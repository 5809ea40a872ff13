/**
 * The non-blocking façade (dsp/src/paging_buffer/manager.rs): owns the
 * buffer of the selected cassette and a cache for that cassette's first
 * page, and is driven once per audio cycle by the real-time side.
 */
module Managers {
  import opened Options
  import opened Cassettes
  import opened Pages
  import opened Pools
  import opened Queues
  import opened Buffers

  /** A configuration update from the control side. */
  datatype Config = Config(recording: bool)

  /**
   * The recording flag after applying `updates` in arrival order to the
   * flag `current`: the latest update wins, and no update keeps the flag.
   */
  function LastRecording(updates: seq<Config>, current: bool): (r: bool)
    ensures updates == [] ==> r == current
    ensures updates != [] ==> r == updates[|updates| - 1].recording
    decreases |updates|
  {
    if updates == [] then current else LastRecording(updates[1..], updates[0].recording)
  }

  /** Handle `h` of a response holds the page `wanted`. */
  predicate Serves(store: seq<Option<Page>>, h: Handle, wanted: PageId)
  {
    h.slot < |store| && store[h.slot].Some? && store[h.slot].value.id == wanted
  }

  /** Position of the first response holding the page `wanted`, or `|hs|` if none does. */
  function FirstMatch(store: seq<Option<Page>>, hs: seq<Handle>, wanted: PageId): (k: nat)
    ensures k <= |hs|
    decreases |hs|
  {
    if hs == [] then 0
    else if Serves(store, hs[0], wanted) then 0
    else 1 + FirstMatch(store, hs[1..], wanted)
  }

  /**
   * `FirstMatch` finds the first response for the wanted page: none before it
   * holds that page, and the one it names, if any, does.
   */
  lemma {:induction false} FirstMatchIsFirst(store: seq<Option<Page>>, hs: seq<Handle>, wanted: PageId)
    ensures forall j | 0 <= j < FirstMatch(store, hs, wanted) :: !Serves(store, hs[j], wanted)
    ensures FirstMatch(store, hs, wanted) < |hs| ==> Serves(store, hs[FirstMatch(store, hs, wanted)], wanted)
    decreases |hs|
  {
    if hs != [] && !Serves(store, hs[0], wanted) {
      FirstMatchIsFirst(store, hs[1..], wanted);
      assert forall j | 1 <= j < FirstMatch(store, hs, wanted) :: hs[j] == hs[1..][j - 1];
    }
  }

  /** Where an evicted page goes. */
  datatype SaveRoute = Discard | FirstPageSave | HandleSave

  /**
   * A clean page is discarded; a dirty first page is saved by value (the
   * manager keeps it); any other dirty page is handed over with its handle.
   */
  function RouteFor(page: Page): (r: SaveRoute)
    ensures r == Discard <==> !page.dirty
    ensures r == FirstPageSave <==> page.dirty && page.Index() == 0
    ensures r == HandleSave <==> page.dirty && page.Index() != 0
  {
    if !page.dirty then Discard else if page.Index() == 0 then FirstPageSave else HandleSave
  }

  class Manager {
    var buffer: Buffer?
    var page0Cache: Option<Handle>

    /** `Manager::new`: no cassette selected and nothing cached. */
    constructor ()
      ensures buffer == null && page0Cache == None
    {
      buffer := null;
      page0Cache := None;
    }

    /**
     * The held page and the cached first page are occupied slots of `pool`,
     * the cache holds a first page, and the two are different handles.
     * `Worlds.Sound` states the same facts over the test's world.
     */
    ghost predicate Valid(pool: Pool)
      reads this, buffer, pool, pool.store
    {
      && pool.Valid()
      && (buffer != null ==> buffer.Valid(pool))
      && (page0Cache.Some? ==>
            && pool.Holds(page0Cache.value)
            && pool.PageRef(page0Cache.value).Index() == 0
            && (buffer != null ==> buffer.active != page0Cache))
    }

    /** `Manager::set_cassette`: replaces the buffer by a fresh one for `cassette`. */
    method SetCassette(cassette: Cassette)
      modifies this`buffer
      ensures fresh(buffer)
      ensures buffer.cassette == cassette && buffer.pointer == 0
      ensures buffer.active == None && !buffer.recording
    {
      buffer := new Buffer.FromCassette(cassette);
    }

    /**
     * `Manager::start_loading_next_page`: appends the buffer's next want to
     * the request queue. No cassette or a full queue is a fatal error.
     */
    method StartLoadingNextPage(requests: Queue<PageRequest>, pool: Pool)
      requires Valid(pool) && buffer != null
      requires requests.Valid() && |requests.items| < requests.capacity
      modifies requests
      ensures requests.Valid()
      ensures requests.items == old(requests.items) + [buffer.WantsNext(pool)]
    {
      var next := buffer.WantsNext(pool);
      var ok := requests.Enqueue(next);
    }

    /**
     * Drains every pending configuration update in arrival order; the
     * latest recording flag is the one that stays.
     */
    method ProcessConfigurationUpdates(configs: Queue<Config>)
      requires buffer != null && configs.Valid()
      modifies buffer`recording, configs
      ensures configs.Valid()
      ensures configs.items == []
      ensures buffer.recording == LastRecording(old(configs.items), old(buffer.recording))
    {
      while true
        invariant configs.Valid()
        invariant LastRecording(configs.items, buffer.recording)
               == LastRecording(old(configs.items), old(buffer.recording))
        decreases |configs.items|
      {
        var next := configs.Dequeue();
        match next
        case None => break;
        case Some(update) => buffer.SetRecording(update.recording);
      }
    }

    /** No page is held, so the cycle must try to acquire one. */
    function IsWaitingForPage(): (waiting: bool)
      reads this, buffer
      requires buffer != null
      ensures waiting <==> buffer.active.None?
    {
      buffer.active.None?
    }

    /** The cached first page is the page the buffer wants. */
    predicate CacheServes(pool: Pool)
      reads this, buffer, pool, pool.store
      requires Valid(pool) && buffer != null
    {
      page0Cache.Some? && pool.PageRef(page0Cache.value).id == buffer.WantsNext(pool).RequestedPage()
    }

    /**
     * Tries to give the buffer the page it wants. The cached first page is
     * used when it is that page, with no channel traffic. Otherwise responses
     * are dequeued in order: those for another page are dropped and their slots
     * released, and the first one for the wanted page is installed; whatever
     * follows it stays queued. Reports whether a page was installed.
     */
    method TryFetchingNextPage(responses: Queue<Handle>, pool: Pool) returns (acquired: bool)
      requires Valid(pool) && buffer != null && buffer.active.None? && responses.Valid()
      requires pool.HoldsAll(responses.items) && Distinct(responses.items)
      requires page0Cache.Some? ==> page0Cache.value !in responses.items
      modifies this`page0Cache, buffer`active, responses, pool.store
      ensures Valid(pool) && responses.Valid()
      ensures pool.HoldsAll(responses.items) && Distinct(responses.items)
      ensures page0Cache.Some? ==> page0Cache.value !in responses.items
      ensures acquired == buffer.active.Some?
      ensures acquired ==> pool.PageRef(buffer.active.value).id == old(buffer.WantsNext(pool).RequestedPage())
      ensures old(CacheServes(pool)) ==>
        && acquired && buffer.active == old(page0Cache) && page0Cache == None
        && responses.items == old(responses.items) && pool.store[..] == old(pool.store[..])
      ensures !old(CacheServes(pool)) ==>
        var k := FirstMatch(old(pool.store[..]), old(responses.items), old(buffer.WantsNext(pool).RequestedPage()));
        && page0Cache == old(page0Cache)
        && acquired == (k < |old(responses.items)|)
        && (acquired ==> buffer.active == Some(old(responses.items)[k]))
        && responses.items == (if acquired then old(responses.items)[k + 1..] else [])
        && forall s: Slot :: pool.store[s] == if Handle(s) in old(responses.items)[..k] then None else old(pool.store[s])
    {
      var wanted := buffer.WantsNext(pool).RequestedPage();
      if CacheServes(pool) {
        buffer.SetPage(page0Cache.value);
        page0Cache := None;
        return true;
      }
      acquired := TakeResponseFor(responses, pool, wanted);
    }

    /**
     * The response-draining part of `try_fetching_next_page`: dequeues
     * responses up to the first one for `wanted`, which is installed, and
     * releases the slots of those before it.
     */
    method TakeResponseFor(responses: Queue<Handle>, pool: Pool, wanted: PageId) returns (acquired: bool)
      requires Valid(pool) && buffer != null && buffer.active.None? && responses.Valid()
      requires pool.HoldsAll(responses.items) && Distinct(responses.items)
      requires page0Cache.Some? ==> page0Cache.value !in responses.items
      modifies buffer`active, responses, pool.store
      ensures Valid(pool) && responses.Valid()
      ensures pool.HoldsAll(responses.items) && Distinct(responses.items)
      ensures page0Cache.Some? ==> page0Cache.value !in responses.items
      ensures acquired == buffer.active.Some?
      ensures acquired ==> pool.PageRef(buffer.active.value).id == wanted
      ensures
        var k := FirstMatch(old(pool.store[..]), old(responses.items), wanted);
        && acquired == (k < |old(responses.items)|)
        && (acquired ==> buffer.active == Some(old(responses.items)[k]))
        && responses.items == (if acquired then old(responses.items)[k + 1..] else [])
        && forall s: Slot :: pool.store[s] == if Handle(s) in old(responses.items)[..k] then None else old(pool.store[s])
    {
      ghost var items0, store0 := responses.items, pool.store[..];
      ghost var k := FirstMatch(store0, items0, wanted);
      FirstMatchIsFirst(store0, items0, wanted);
      ghost var n := 0;
      acquired := false;
      while true
        invariant n <= k && responses.items == items0[n..] && responses.Valid()
        invariant !acquired && buffer.active == None
        invariant forall s: Slot :: pool.store[s] == if Handle(s) in items0[..n] then None else store0[s]
        decreases |responses.items|
      {
        var next := responses.Dequeue();
        if next.None? {
          break;
        }
        var h := next.value;
        assert h == items0[n] && h !in items0[..n];
        if pool.PageRef(h).id == wanted {
          buffer.SetPage(h);
          acquired := true;
          break;
        }
        pool.DropPage(h);
        assert items0[..n + 1] == items0[..n] + [h];
        n := n + 1;
      }
    }

    /** `Manager::process`: forwards one block of audio to the buffer. */
    method Process(pool: Pool, block: seq<Sample>)
      requires Valid(pool) && buffer != null
      modifies buffer`pointer, buffer`cassette, pool.store
      ensures Valid(pool)
      ensures buffer.active.None? ==>
        && buffer.pointer == old(buffer.pointer) && buffer.cassette == old(buffer.cassette)
        && pool.store[..] == old(pool.store[..])
      ensures buffer.active.Some? ==>
        && buffer.pointer == old(buffer.pointer) + |block|
        && buffer.cassette == old(buffer.cassette).(length := Max(old(buffer.cassette.length), buffer.pointer))
        && pool.store[..] == old(pool.store[..])[buffer.active.value.slot :=
             Some(Processed(old(pool.PageRef(buffer.active.value)), old(buffer.pointer), block, buffer.recording))]
    {
      buffer.Process(pool, block);
    }

    /**
     * `Manager::has_full_page`: the held page is used up and must be evicted.
     * It asks `Buffer.IsFull`, whose meaning is `FullAt` of module Buffers.
     */
    function HasFullPage(pool: Pool): (full: bool)
      reads this, buffer, pool, pool.store
      requires Valid(pool) && buffer != null
      ensures full <==> FullAt(buffer.pointer, buffer.HeldIndex(pool))
    {
      buffer.IsFull(pool)
    }

    /** The page the buffer holds. */
    ghost function HeldPage(pool: Pool): Page
      reads this, buffer, pool, pool.store
      requires Valid(pool) && buffer != null && buffer.active.Some?
    {
      pool.PageRef(buffer.active.value)
    }

    /**
     * `Manager::start_saving`: evicts the held page. A clean page is dropped
     * and its slot released. A dirty first page is sent by value on the
     * first-page channel and its handle kept as the new cache (releasing an
     * older cache entry). Any other dirty page has its handle sent on the save
     * channel. A full channel on the path taken is a fatal error.
     */
    method StartSaving(saves: Queue<Handle>, firstSaves: Queue<Page>, pool: Pool)
      requires Valid(pool) && buffer != null && buffer.active.Some?
      requires saves.Valid() && firstSaves.Valid()
      requires RouteFor(HeldPage(pool)) == FirstPageSave ==> |firstSaves.items| < firstSaves.capacity
      requires RouteFor(HeldPage(pool)) == HandleSave ==> |saves.items| < saves.capacity
      modifies this`page0Cache, buffer`active, saves, firstSaves, pool.store
      ensures Valid(pool) && buffer.active == None && saves.Valid() && firstSaves.Valid()
      ensures old(RouteFor(HeldPage(pool))) == Discard ==>
        && saves.items == old(saves.items) && firstSaves.items == old(firstSaves.items)
        && page0Cache == old(page0Cache)
        && pool.store[..] == old(pool.store[..])[old(buffer.active.value.slot) := None]
      ensures old(RouteFor(HeldPage(pool))) == FirstPageSave ==>
        && firstSaves.items == old(firstSaves.items) + [old(HeldPage(pool))]
        && saves.items == old(saves.items)
        && page0Cache == old(buffer.active)
        && pool.store[..] == if old(page0Cache).Some?
                             then old(pool.store[..])[old(page0Cache.value.slot) := None]
                             else old(pool.store[..])
      ensures old(RouteFor(HeldPage(pool))) == HandleSave ==>
        && saves.items == old(saves.items) + [old(buffer.active.value)]
        && firstSaves.items == old(firstSaves.items)
        && page0Cache == old(page0Cache)
        && pool.store[..] == old(pool.store[..])
    {
      var page := pool.PageRef(buffer.active.value);
      var h := buffer.TakePage();
      match RouteFor(page)
      case Discard =>
        pool.DropPage(h);
      case FirstPageSave =>
        var ok := firstSaves.Enqueue(page);
        if page0Cache.Some? {
          pool.DropPage(page0Cache.value);
        }
        page0Cache := Some(h);
      case HandleSave =>
        var ok := saves.Enqueue(h);
    }

    /** `Manager::reset_position`: jumps to the start; the held page stays. */
    method ResetPosition()
      requires buffer != null
      modifies buffer`pointer
      ensures buffer.pointer == 0
    {
      buffer.ResetPosition();
    }
  }
}
