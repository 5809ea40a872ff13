/**
 * What the flow test of dsp/src/paging_buffer/mod.rs can observe of the
 * paging engine, as one value, and what each call the test makes does to it.
 */
module Worlds {
  import opened Options
  import opened Cassettes
  import opened Pages
  import opened Pools
  import opened Buffers
  import opened Managers

  /** Everything the test can observe. */
  datatype World = World(
    pointer: nat, cassette: Cassette, recording: bool,
    active: Option<Handle>, cache: Option<Handle>,
    store: seq<Option<Page>>,
    configs: seq<Config>, requests: seq<PageRequest>, responses: seq<Handle>,
    saves: seq<Handle>, firstSaves: seq<Page>,
    sd: seq<Option<Page>>)

  /** The page in slot `h`, if any. */
  function At(w: World, h: Handle): Option<Page>
  {
    if h.slot < |w.store| then w.store[h.slot] else None
  }

  /**
   * The ownership facts the test relies on: the held page and the cached
   * first page are stored and different, every handle in a channel refers
   * to a stored page, no response is queued twice or is the cache, and
   * every page on its way to the card has a place there. This is the world
   * side of `Manager.Valid`; lemma `Benches.Agrees` connects the two.
   */
  ghost predicate Sound(w: World)
  {
    && |w.store| == SLOTS && |w.sd| == SLOTS
    && (w.active.Some? ==> At(w, w.active.value).Some?)
    && (w.cache.Some? ==>
          && At(w, w.cache.value).Some? && At(w, w.cache.value).value.Index() == 0
          && w.active != w.cache && w.cache.value !in w.responses)
    && (forall i | 0 <= i < |w.responses| :: At(w, w.responses[i]).Some?)
    && Distinct(w.responses)
    && (forall i | 0 <= i < |w.saves| ::
          At(w, w.saves[i]).Some? && At(w, w.saves[i]).value.Index() < SLOTS)
    && (forall i | 0 <= i < |w.firstSaves| :: w.firstSaves[i].Index() < SLOTS)
  }

  /** The index of the held page, if any. */
  ghost function HeldOf(w: World): Option<nat>
  {
    if w.active.Some? && At(w, w.active.value).Some?
    then Some(At(w, w.active.value).value.Index()) else None
  }

  /** The request the buffer would send now. */
  ghost function WantOf(w: World): PageRequest
  {
    RequestFor(w.cassette, NextIndex(w.pointer, HeldOf(w)))
  }

  /** The cached first page is the page wanted. */
  ghost predicate CacheHit(w: World)
  {
    w.cache.Some? && Serves(w.store, w.cache.value, WantOf(w).RequestedPage())
  }

  /** `store` with the slots of `hs` emptied. */
  ghost function Released(store: seq<Option<Page>>, hs: seq<Handle>): (r: seq<Option<Page>>)
    ensures |r| == |store|
  {
    seq(|store|, i requires 0 <= i < |store| => if i < SLOTS && Handle(i) in hs then None else store[i])
  }

  /** The world after the configuration updates are drained. */
  ghost function Configured(w: World): World
  {
    w.(configs := [], recording := LastRecording(w.configs, w.recording))
  }

  /** The world after the next page is requested. */
  ghost function Requested(w: World): World
  {
    w.(requests := w.requests + [WantOf(w)])
  }

  /** The world after the buffer tries to acquire the page it wants. */
  ghost function Fetched(w: World): World
  {
    if CacheHit(w) then w.(active := w.cache, cache := None)
    else
      var k := FirstMatch(w.store, w.responses, WantOf(w).RequestedPage());
      if k < |w.responses| then
        w.(active := Some(w.responses[k]), responses := w.responses[k + 1..],
           store := Released(w.store, w.responses[..k]))
      else
        w.(responses := [], store := Released(w.store, w.responses))
  }

  /** The world after one block of audio is processed. */
  ghost function Advanced(w: World, block: seq<Sample>): World
  {
    if w.active.None? || At(w, w.active.value).None? then w
    else
      var s := w.active.value.slot;
      var p := w.pointer + |block|;
      w.(pointer := p, cassette := w.cassette.(length := Max(w.cassette.length, p)),
         store := w.store[s := Some(Processed(w.store[s].value, w.pointer, block, w.recording))])
  }

  /** The world after the held page is evicted. */
  ghost function Evicted(w: World): World
  {
    if w.active.None? || At(w, w.active.value).None? then w
    else
      var h := w.active.value;
      var page := w.store[h.slot].value;
      match RouteFor(page)
      case Discard => w.(active := None, store := w.store[h.slot := None])
      case FirstPageSave =>
        w.(active := None, cache := Some(h), firstSaves := w.firstSaves + [page],
           store := if w.cache.Some? && w.cache.value.slot < |w.store|
                    then w.store[w.cache.value.slot := None] else w.store)
      case HandleSave => w.(active := None, saves := w.saves + [h])
  }

  /** The world after the storage side answers the oldest page request. */
  ghost function Served(w: World): World
  {
    if w.requests == [] || |w.store| != SLOTS || FirstFree(w.store) >= SLOTS then w
    else
      var s := FirstFree(w.store);
      w.(requests := w.requests[1..], responses := w.responses + [Handle(s)],
         store := w.store[s := Some(Page.New(w.requests[0].RequestedPage()))])
  }

  /** The world after the storage side persists the oldest first-page save. */
  ghost function FirstSaved(w: World): World
  {
    if w.firstSaves == [] || w.firstSaves[0].Index() >= |w.sd| then w
    else
      var page := w.firstSaves[0];
      w.(firstSaves := w.firstSaves[1..], sd := w.sd[page.Index() := Some(page)])
  }

  /** The world after the storage side persists the page of the oldest handle save. */
  ghost function HandleSaved(w: World): World
  {
    if w.saves == [] || At(w, w.saves[0]).None? || At(w, w.saves[0]).value.Index() >= |w.sd| then w
    else
      var h := w.saves[0];
      var page := w.store[h.slot].value;
      w.(saves := w.saves[1..], sd := w.sd[page.Index() := Some(page)], store := w.store[h.slot := None])
  }

  /** One cycle of the test's loop before the full-page check: configure, acquire and request if waiting, process. */
  ghost function Ticked(w: World, block: seq<Sample>): World
  {
    var c := Configured(w);
    var f := if c.active.Some? then c
             else if Fetched(c).active.Some? then Requested(Fetched(c)) else Fetched(c);
    Advanced(f, block)
  }

  /** Draining the configuration channel keeps a world sound. */
  lemma ConfiguredSound(w: World)
    requires Sound(w)
    ensures Sound(Configured(w))
  {
  }

  /** Sending a page request keeps a world sound. */
  lemma RequestedSound(w: World)
    requires Sound(w)
    ensures Sound(Requested(w))
  {
  }

  /** The soundness each call of a cycle from `w` relies on, and room for one more page request. */
  ghost predicate TickReady(w: World)
  {
    Sound(w) && |w.requests| < 3 && (w.active.None? ==> Sound(Fetched(Configured(w))))
  }

  /** A cycle that starts with no page held and acquires `f` is ready when `f` is sound. */
  lemma ReadyAcquiring(w: World, f: World)
    requires Sound(w) && |w.requests| < 3 && w.active.None?
    requires Fetched(Configured(w)) == f && Sound(f)
    ensures TickReady(w)
  {
  }

  /** A cycle that acquires a page requests the one after it and then processes the block. */
  lemma TickedAcquiring(w: World, f: World, block: seq<Sample>)
    requires w.active.None? && Fetched(Configured(w)) == f && f.active.Some?
    ensures Ticked(w, block) == Advanced(Requested(f), block)
  {
  }
}
