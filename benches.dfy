/**
 * The objects of the flow test of dsp/src/paging_buffer/mod.rs and one step
 * per call the test makes on them: each step's contract says what the call
 * does to the world the test observes (the `World` of module Worlds).
 */
module Benches {
  import opened Options
  import opened Cassettes
  import opened Pages
  import opened Pools
  import opened Queues
  import opened Buffers
  import opened Managers
  import opened Storage
  import opened Worlds

  /** The objects of the test: the manager and its buffer, the pool, the five channels and the card. */
  datatype Bench = Bench(
    manager: Manager, buffer: Buffer, pool: Pool,
    configs: Queue<Config>, requests: Queue<PageRequest>, responses: Queue<Handle>,
    saves: Queue<Handle>, firstSaves: Queue<Page>,
    sd: array<Option<Page>>)
  {
    /** How the objects are wired: the manager's buffer, the pool's size, and each channel's capacity and bound. */
    ghost predicate Frame()
      reads manager, pool, configs, requests, responses, saves, firstSaves
    {
      && manager.buffer == buffer && pool.Valid()
      && configs.Valid() && requests.Valid() && responses.Valid() && saves.Valid() && firstSaves.Valid()
      && responses != saves && sd != pool.store && sd.Length == SLOTS
      && configs.capacity == 3 && requests.capacity == 3 && responses.capacity == 3
      && saves.capacity == 3 && firstSaves.capacity == 3
    }

    ghost function Snap(): World
      reads manager, buffer, pool, pool.store, configs, requests, responses, saves, firstSaves, sd
    {
      World(buffer.pointer, buffer.cassette, buffer.recording, buffer.active, manager.page0Cache,
            pool.store[..], configs.items, requests.items, responses.items,
            saves.items, firstSaves.items, sd[..])
    }
  }

  /** A sound world makes the manager's own invariant hold, and its wants are the world's. */
  lemma Agrees(b: Bench)
    requires b.Frame() && Sound(b.Snap())
    ensures b.manager.Valid(b.pool) && b.manager.buffer != null
    ensures b.buffer.HeldIndex(b.pool) == HeldOf(b.Snap())
    ensures b.buffer.WantsNext(b.pool) == WantOf(b.Snap())
    ensures b.manager.CacheServes(b.pool) <==> CacheHit(b.Snap())
  {
    var w := b.Snap();
    assert forall s: Slot :: b.pool.store[s] == w.store[s];
  }

  /** An array whose slots are those of `store` with the slots of `gone` emptied holds `Released(store, gone)`. */
  lemma ReleasedSlots(a: array<Option<Page>>, store: seq<Option<Page>>, gone: seq<Handle>)
    requires a.Length == |store| == SLOTS
    requires forall s: Slot :: a[s] == if Handle(s) in gone then None else store[s]
    ensures a[..] == Released(store, gone)
  {
    assert forall i | 0 <= i < SLOTS :: a[..][i] == Released(store, gone)[i];
  }

  /** `process_configuration_updates`. */
  method Configure(b: Bench, ghost w: World)
    requires b.Frame() && b.Snap() == w
    modifies b.buffer, b.configs
    ensures b.Frame() && b.Snap() == Configured(w)
  {
    b.manager.ProcessConfigurationUpdates(b.configs);
  }

  /** `start_loading_next_page`. */
  method RequestNext(b: Bench, ghost w: World)
    requires b.Frame() && Sound(w) && b.Snap() == w && |w.requests| < 3
    modifies b.requests
    ensures b.Frame() && b.Snap() == Requested(w)
  {
    Agrees(b);
    b.manager.StartLoadingNextPage(b.requests, b.pool);
  }

  /** `try_fetching_next_page`. */
  method Fetch(b: Bench, ghost w: World) returns (acquired: bool)
    requires b.Frame() && Sound(w) && b.Snap() == w && w.active.None?
    modifies b.manager, b.buffer, b.responses, b.pool.store
    ensures b.Frame() && b.Snap() == Fetched(w)
    ensures acquired <==> Fetched(w).active.Some?
  {
    Agrees(b);
    assert b.pool.HoldsAll(b.responses.items);
    acquired := b.manager.TryFetchingNextPage(b.responses, b.pool);
    FetchedSnap(b, w);
  }

  /** The objects after `try_fetching_next_page` make up the world `Fetched(w)`. */
  lemma FetchedSnap(b: Bench, w: World)
    requires b.Frame() && |w.store| == SLOTS && w.active.None?
    requires b.buffer.pointer == w.pointer && b.buffer.cassette == w.cassette && b.buffer.recording == w.recording
    requires b.configs.items == w.configs && b.requests.items == w.requests && b.sd[..] == w.sd
    requires b.saves.items == w.saves && b.firstSaves.items == w.firstSaves
    requires CacheHit(w) ==>
      && b.buffer.active == w.cache && b.manager.page0Cache == None
      && b.responses.items == w.responses && b.pool.store[..] == w.store
    requires !CacheHit(w) ==>
      var k := FirstMatch(w.store, w.responses, WantOf(w).RequestedPage());
      && b.manager.page0Cache == w.cache
      && b.buffer.active == (if k < |w.responses| then Some(w.responses[k]) else None)
      && b.responses.items == (if k < |w.responses| then w.responses[k + 1..] else [])
      && forall s: Slot :: b.pool.store[s] == if Handle(s) in w.responses[..k] then None else w.store[s]
    ensures b.Snap() == Fetched(w)
  {
    if !CacheHit(w) {
      var k := FirstMatch(w.store, w.responses, WantOf(w).RequestedPage());
      assert w.responses[..|w.responses|] == w.responses;
      ReleasedSlots(b.pool.store, w.store, w.responses[..k]);
    }
  }

  /** `process`. */
  method Advance(b: Bench, ghost w: World, block: seq<Sample>)
    requires b.Frame() && Sound(w) && b.Snap() == w
    modifies b.buffer, b.pool.store
    ensures b.Frame() && b.Snap() == Advanced(w, block)
  {
    Agrees(b);
    b.manager.Process(b.pool, block);
  }

  /** `has_full_page`, through `Manager.HasFullPage`, read as `FullAt` of the world. */
  method IsFull(b: Bench, ghost w: World) returns (full: bool)
    requires b.Frame() && Sound(w) && b.Snap() == w
    ensures full <==> FullAt(w.pointer, HeldOf(w))
  {
    Agrees(b);
    full := b.manager.HasFullPage(b.pool);
  }

  /** `start_saving`. */
  method Evict(b: Bench, ghost w: World)
    requires b.Frame() && Sound(w) && b.Snap() == w && w.active.Some?
    requires |w.saves| < 3 && |w.firstSaves| < 3
    modifies b.manager, b.buffer, b.saves, b.firstSaves, b.pool.store
    ensures b.Frame() && b.Snap() == Evicted(w)
  {
    Agrees(b);
    b.manager.StartSaving(b.saves, b.firstSaves, b.pool);
  }

  /** `reset_position`. */
  method Rewind(b: Bench, ghost w: World)
    requires b.Frame() && b.Snap() == w
    modifies b.buffer
    ensures b.Frame() && b.Snap() == w.(pointer := 0)
  {
    b.manager.ResetPosition();
  }

  /** The control side enqueues a configuration update. */
  method Arm(b: Bench, ghost w: World, recording: bool)
    requires b.Frame() && b.Snap() == w && |w.configs| < 3
    modifies b.configs
    ensures b.Frame() && b.Snap() == w.(configs := w.configs + [Config(recording)])
  {
    var ok := b.configs.Enqueue(Config(recording));
  }

  /** `assert_and_handle_load_page_request`, returning the request it received. */
  method ServeLoad(b: Bench, ghost w: World) returns (received: Option<PageRequest>)
    requires b.Frame() && b.Snap() == w
    requires w.requests != [] ==> FirstFree(w.store) < SLOTS && |w.responses| < 3
    modifies b.requests, b.responses, b.pool.store
    ensures b.Frame() && b.Snap() == Served(w)
    ensures received == if w.requests == [] then None else Some(w.requests[0])
  {
    FreeSlotIffNotFull(w.store);
    var answer;
    received, answer := AnswerLoadRequest(b.pool, b.requests, b.responses);
  }

  /** `assert_and_handle_page_save_request`, returning the identity it received. */
  method ServeFirstSave(b: Bench, ghost w: World) returns (received: Option<PageId>)
    requires b.Frame() && b.Snap() == w
    requires w.firstSaves != [] ==> w.firstSaves[0].Index() < SLOTS
    modifies b.sd, b.firstSaves
    ensures b.Frame() && b.Snap() == FirstSaved(w)
    ensures received == if w.firstSaves == [] then None else Some(w.firstSaves[0].id)
  {
    received := PersistFirstPageSave(b.sd, b.firstSaves);
  }

  /** `assert_and_handle_handle_save_request`, returning the identity it received. */
  method ServeHandleSave(b: Bench, ghost w: World) returns (received: Option<PageId>)
    requires b.Frame() && b.Snap() == w
    requires w.saves != [] ==> At(w, w.saves[0]).Some? && At(w, w.saves[0]).value.Index() < SLOTS
    modifies b.sd, b.saves, b.pool.store
    ensures b.Frame() && b.Snap() == HandleSaved(w)
    ensures received == if w.saves == [] then None else Some(At(w, w.saves[0]).value.id)
  {
    assert forall s: Slot :: b.pool.store[s] == w.store[s];
    received := PersistHandleSave(b.sd, b.pool, b.saves);
  }

  method Tick(b: Bench, ghost w: World, block: seq<Sample>)
    requires b.Frame() && TickReady(w) && b.Snap() == w
    modifies b.manager, b.buffer, b.pool.store, b.configs, b.requests, b.responses
    ensures b.Frame() && b.Snap() == Ticked(w, block)
  {
    Configure(b, w);
    ghost var f := Configured(w);
    ConfiguredSound(w);
    if b.manager.IsWaitingForPage() {
      var acquired := Fetch(b, f);
      f := Fetched(f);
      if acquired {
        RequestNext(b, f);
        RequestedSound(f);
        f := Requested(f);
      }
    }
    Advance(b, f, block);
  }

  /**
   * One cycle of the test's recording and playback loops: a `Tick` to `next`
   * followed by `has_full_page`, and `start_saving` to `evicted` when the held
   * page is full.
   */
  method Cycle(b: Bench, ghost w: World, block: seq<Sample>, ghost next: World, ghost evicted: World)
    returns (full: bool)
    requires b.Frame() && TickReady(w) && b.Snap() == w
    requires Ticked(w, block) == next && Sound(next) && |w.saves| < 3 && |w.firstSaves| < 3
    requires FullAt(next.pointer, HeldOf(next)) ==> Evicted(next) == evicted
    modifies b.manager, b.buffer, b.pool.store, b.configs, b.requests, b.responses, b.saves, b.firstSaves
    ensures b.Frame()
    ensures full <==> FullAt(next.pointer, HeldOf(next))
    ensures b.Snap() == if full then evicted else next
  {
    Tick(b, w, block);
    assert next.saves == w.saves && next.firstSaves == w.firstSaves;
    full := IsFull(b, next);
    if full {
      Evict(b, next);
    }
  }
}
