/**
 * The per-cassette record/playback state (dsp/src/paging_buffer/buffer.rs,
 * a stub in the source, used from manager.rs and the flow test of mod.rs):
 * a play/record pointer, at most one held page, the recording flag and the
 * cassette whose length is the recorded high-water mark.
 */
module Buffers {
  import opened Options
  import opened Cassettes
  import opened Pages
  import opened Pools

  /**
   * Index of the page wanted next: the one after the held page, or, with no
   * page held, the page the pointer is in.
   */
  function NextIndex(pointer: nat, held: Option<nat>): nat
  {
    match held
    case Some(k) => k + 1
    case None => pointer / PAGE_LENGTH
  }

  /**
   * The request for page `index` of `cassette`: `Load` when the page starts
   * below the recorded length (something of it was recorded before), else
   * `Blank`.
   */
  function RequestFor(cassette: Cassette, index: nat): (r: PageRequest)
    ensures r.RequestedPage() == PageId(cassette.id, index)
    ensures r.Load? <==> PageStart(index) < cassette.length
  {
    var id := PageId(cassette.id, index);
    if PageStart(index) < cassette.length then Load(id) else Blank(id)
  }

  /** Number of pages that hold at least one recorded sample of `length` samples. */
  function CoveredPages(length: nat): nat
  {
    (length + PAGE_LENGTH - 1) / PAGE_LENGTH
  }

  /** The pages requested with `Load` are exactly the pages the recording reaches into. */
  lemma LoadIffCovered(cassette: Cassette, index: nat)
    ensures RequestFor(cassette, index).Load? <==> index < CoveredPages(cassette.length)
    ensures RequestFor(cassette, index).Blank? <==> index >= CoveredPages(cassette.length)
  {
    var n, q := cassette.length, CoveredPages(cassette.length);
    assert q * PAGE_LENGTH <= n + PAGE_LENGTH - 1 < q * PAGE_LENGTH + PAGE_LENGTH;
    if index < q {
      MultiplyMonotone(index, q - 1);
    } else {
      MultiplyMonotone(q, index);
    }
  }

  lemma MultiplyMonotone(a: nat, b: nat)
    requires a <= b
    ensures a * PAGE_LENGTH <= b * PAGE_LENGTH
  {
  }

  /** A fresh cassette has nothing recorded, so every request for it is `Blank`. */
  lemma FreshCassetteWantsBlank(index: nat, k: nat)
    ensures RequestFor(Cassette.New(index), k) == Blank(PageId(CassetteId(index), k))
  {
  }

  /**
   * A held page is full once the pointer sits on a page boundary past the
   * page's first sample.
   */
  predicate FullAt(pointer: nat, held: Option<nat>)
  {
    held.Some? && pointer % PAGE_LENGTH == 0 && pointer > PageStart(held.value)
  }

  /**
   * Full-page accounting: a page installed at its first sample is full
   * exactly when the samples processed since then are a positive multiple of
   * the page length.
   */
  lemma {:induction false} FullIffWholePages(k: nat, n: nat)
    ensures FullAt(PageStart(k) + n, Some(k)) <==> n > 0 && n % PAGE_LENGTH == 0
  {
    if k > 0 {
      FullIffWholePages(k - 1, n);
      assert PageStart(k) + n == (PageStart(k - 1) + n) + PAGE_LENGTH;
    }
  }

  /**
   * The page after one `process` call with the pointer at `pointer`: when
   * recording, the block is written at the pointer's position in the page and
   * the page becomes dirty; otherwise it is unchanged.
   */
  function Processed(page: Page, pointer: nat, block: seq<Sample>, recording: bool): (p: Page)
    ensures p.id == page.id
    ensures p.dirty == (page.dirty || recording)
    ensures !recording ==> p == page
    ensures recording ==> p.data == Record(page.data, pointer - PageStart(page.Index()), block)
  {
    if recording then
      page.(dirty := true, data := Record(page.data, pointer - PageStart(page.Index()), block))
    else
      page
  }

  /** One `process` call as the held page sees it. */
  datatype Step = Step(pointer: nat, block: seq<Sample>, recording: bool)

  /** The held page after a sequence of `process` calls. */
  function ProcessedAll(page: Page, steps: seq<Step>): Page
    decreases |steps|
  {
    if steps == [] then page
    else ProcessedAll(Processed(page, steps[0].pointer, steps[0].block, steps[0].recording), steps[1..])
  }

  /**
   * Dirty tracking: after any sequence of `process` calls a page is dirty
   * exactly when it was dirty before or one of the calls was made while
   * recording; its identity never changes, and calls made without recording
   * leave it as it was.
   */
  lemma {:induction false} DirtyIffRecordedInto(page: Page, steps: seq<Step>)
    ensures ProcessedAll(page, steps).id == page.id
    ensures ProcessedAll(page, steps).dirty <==>
      page.dirty || exists i | 0 <= i < |steps| :: steps[i].recording
    ensures (forall i | 0 <= i < |steps| :: !steps[i].recording) ==> ProcessedAll(page, steps) == page
    decreases |steps|
  {
    if steps != [] {
      var next := Processed(page, steps[0].pointer, steps[0].block, steps[0].recording);
      DirtyIffRecordedInto(next, steps[1..]);
      if exists i | 0 <= i < |steps| :: steps[i].recording {
        var i :| 0 <= i < |steps| && steps[i].recording;
        if i > 0 {
          assert steps[1..][i - 1].recording;
        }
      }
    }
  }

  function Max(a: nat, b: nat): nat
  {
    if a < b then b else a
  }

  class Buffer {
    var cassette: Cassette
    var pointer: nat
    var active: Option<Handle>
    var recording: bool

    /** `Buffer::from_cassette`: at the start, no page held, not recording. */
    constructor FromCassette(c: Cassette)
      ensures cassette == c && pointer == 0 && active == None && !recording
    {
      cassette := c;
      pointer := 0;
      active := None;
      recording := false;
    }

    /** The held handle, if any, refers to an occupied slot of `pool`. */
    ghost predicate Valid(pool: Pool)
      reads this, pool, pool.store
    {
      pool.Valid() && (active.Some? ==> pool.Holds(active.value))
    }

    /** The index of the held page, read through its handle. */
    function HeldIndex(pool: Pool): (k: Option<nat>)
      reads this, pool, pool.store
      requires Valid(pool)
      ensures k.Some? <==> active.Some?
      ensures k.Some? ==> k.value == pool.PageRef(active.value).id.index
    {
      if active.Some? then Some(pool.PageRef(active.value).Index()) else None
    }

    /**
     * `Buffer::wants_next`: the request for the page after the held one, or
     * for the pointer's page when none is held; `Load` exactly when that
     * page starts below the recorded length.
     */
    function WantsNext(pool: Pool): (r: PageRequest)
      reads this, pool, pool.store
      requires Valid(pool)
      ensures r.RequestedPage() == PageId(cassette.id, NextIndex(pointer, HeldIndex(pool)))
      ensures r.Load? <==> PageStart(NextIndex(pointer, HeldIndex(pool))) < cassette.length
    {
      RequestFor(cassette, NextIndex(pointer, HeldIndex(pool)))
    }

    /** The held page is used up. */
    function IsFull(pool: Pool): (full: bool)
      reads this, pool, pool.store
      requires Valid(pool)
      ensures full <==> FullAt(pointer, HeldIndex(pool))
      ensures full ==> active.Some? && pointer > 0
    {
      FullAt(pointer, HeldIndex(pool))
    }

    /** Installs a newly acquired page; only called while no page is held. */
    method SetPage(h: Handle)
      requires active.None?
      modifies this`active
      ensures active == Some(h)
    {
      active := Some(h);
    }

    /** Gives up the held page and returns its handle. */
    method TakePage() returns (h: Handle)
      requires active.Some?
      modifies this`active
      ensures h == old(active.value) && active == None
    {
      h := active.value;
      active := None;
    }

    /** Arms or disarms recording. */
    method SetRecording(flag: bool)
      modifies this`recording
      ensures recording == flag
    {
      recording := flag;
    }

    /** Jumps to the start of the cassette; the held page and the recorded length stay. */
    method ResetPosition()
      modifies this`pointer
      ensures pointer == 0
    {
      pointer := 0;
    }

    /**
     * Feeds one block of audio. With a page held the pointer advances by the
     * block's length, the recorded length rises to the pointer if it was
     * below, and when recording the block is written into the page, which
     * becomes dirty. Without a page the block is dropped and nothing changes.
     */
    method Process(pool: Pool, block: seq<Sample>)
      requires Valid(pool)
      modifies this`pointer, this`cassette, pool.store
      ensures Valid(pool)
      ensures old(active).None? ==>
        pointer == old(pointer) && cassette == old(cassette) && pool.store[..] == old(pool.store[..])
      ensures old(active).Some? ==>
        && pointer == old(pointer) + |block|
        && cassette == old(cassette).(length := Max(old(cassette.length), pointer))
        && pool.store[..] == old(pool.store[..])[active.value.slot :=
             Some(Processed(old(pool.PageRef(active.value)), old(pointer), block, recording))]
    {
      if active.Some? {
        var page := pool.PageRef(active.value);
        pool.PageMut(active.value, Processed(page, pointer, block, recording));
        pointer := pointer + |block|;
        cassette := cassette.(length := Max(cassette.length, pointer));
      }
    }
  }
}
