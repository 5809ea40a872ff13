/**
 * Pages (dsp/src/paging_buffer/page.rs): fixed-size blocks of samples with
 * their identity, the requests the real-time side sends for them, and the
 * pure operations on their contents.
 */
module Pages {
  import opened Cassettes

  /** Number of samples in every page. */
  const PAGE_LENGTH: nat := 512

  /** Samples are abstract tags; the real-time code carries `f32` values. */
  type Sample = int

  /** The sample a blank page is filled with. */
  const SILENCE: Sample := 0

  /** The contents of a page always hold exactly `PAGE_LENGTH` samples. */
  type PageData = s: seq<Sample> | |s| == PAGE_LENGTH witness seq(PAGE_LENGTH, _ => SILENCE)

  /** A page is identified by its cassette and its ordinal within that cassette. */
  datatype PageId = PageId(cassette: CassetteId, index: nat)

  /** Offset, in samples from the start of the cassette, of the first sample of a page. */
  function PageStart(index: nat): nat
  {
    index * PAGE_LENGTH
  }

  /** A page: identity, whether it was written while recording, and its samples. */
  datatype Page = Page(id: PageId, dirty: bool, data: PageData) {

    /** `Page::new`: a clean page of silence with the given identity. */
    static function New(id: PageId): (p: Page)
      ensures p.id == id && !p.dirty
      ensures forall i | 0 <= i < PAGE_LENGTH :: p.data[i] == SILENCE
    {
      Page(id, false, Filled(0, SILENCE, SILENCE))
    }

    /** `Page::index`: the page's ordinal, which together with its cassette is its identity. */
    function Index(): (i: nat)
      ensures PageId(id.cassette, i) == id
    {
      id.index
    }
  }

  /** A request for the page the real-time side needs next. */
  datatype PageRequest = Load(id: PageId) | Blank(id: PageId) {

    /** `PageRequest::page_id`: the identity carried by either kind of request. */
    function RequestedPage(): (r: PageId)
      ensures this == Load(r) || this == Blank(r)
    {
      id
    }
  }

  /** Page contents whose first `n` samples are `front` and the rest `back`. */
  function Filled(n: nat, front: Sample, back: Sample): (d: PageData)
    ensures forall i | 0 <= i < PAGE_LENGTH :: d[i] == if i < n then front else back
  {
    seq(PAGE_LENGTH, i => if i < n then front else back)
  }

  /**
   * Writes `block` into the page contents so that its first sample lands at
   * offset `at`; samples that fall outside the page are not stored.
   */
  function Record(data: PageData, at: int, block: seq<Sample>): (r: PageData)
    ensures forall i | 0 <= i < PAGE_LENGTH ::
      r[i] == if at <= i < at + |block| then block[i - at] else data[i]
  {
    seq(PAGE_LENGTH, i requires 0 <= i < PAGE_LENGTH =>
      if at <= i < at + |block| then block[i - at] else data[i])
  }

  /** Recording a block of one sample value right after a run of that value extends the run. */
  lemma RecordExtendsRun(n: nat, len: nat, front: Sample, back: Sample)
    requires n + len <= PAGE_LENGTH
    ensures Record(Filled(n, front, back), n, seq(len, _ => front)) == Filled(n + len, front, back)
  {
    var r := Record(Filled(n, front, back), n, seq(len, _ => front));
    forall i | 0 <= i < PAGE_LENGTH
      ensures r[i] == Filled(n + len, front, back)[i]
    {
    }
  }

  /** An empty run is the same whatever its sample. */
  lemma EmptyRun(front: Sample, other: Sample, back: Sample)
    ensures Filled(0, front, back) == Filled(0, other, back)
  {
    forall i | 0 <= i < PAGE_LENGTH
      ensures Filled(0, front, back)[i] == Filled(0, other, back)[i]
    {
    }
  }

  /** A run over the whole page hides what was underneath it. */
  lemma FullRunCoversAll(front: Sample, back: Sample, other: Sample)
    ensures Filled(PAGE_LENGTH, front, back) == Filled(0, other, front)
  {
    forall i | 0 <= i < PAGE_LENGTH
      ensures Filled(PAGE_LENGTH, front, back)[i] == Filled(0, other, front)[i]
    {
    }
  }
}
