/**
 * The flow test `full_flow_starting_from_nothing_with_long_recording`
 * (dsp/src/paging_buffer/mod.rs) restated over the model: one thread plays both
 * the real-time cycle and the storage task over a manager, a pool, five
 * bounded channels and an in-memory card. Each call the test makes is wrapped
 * in a step whose contract says what it does to the observable world, and
 * every request and save the test expects is proved to happen, in order.
 */
module Flow {
  import opened Options
  import opened Cassettes
  import opened Pages
  import opened Pools
  import opened Queues
  import opened Buffers
  import opened Managers
  import opened Storage
  import opened Worlds
  import opened Scenario
  import opened Benches

  /** Sets up the objects of the test and selects cassette 1 (mod.rs:84-111). */
  method NewBench() returns (b: Bench)
    ensures fresh(b.manager) && fresh(b.buffer) && fresh(b.pool) && fresh(b.pool.store)
    ensures fresh(b.configs) && fresh(b.requests) && fresh(b.responses) && fresh(b.saves)
    ensures fresh(b.firstSaves) && fresh(b.sd)
    ensures b.Frame() && b.Snap() == Start()
  {
    var configs := new Queue<Config>(4);
    var requests := new Queue<PageRequest>(4);
    var responses := new Queue<Handle>(4);
    var saves := new Queue<Handle>(4);
    var firstSaves := new Queue<Page>(4);
    var sd := new Option<Page>[SLOTS](_ => None);
    var pool := new Pool();
    var manager := new Manager();
    manager.SetCassette(Cassette.New(1));
    b := Bench(manager, manager.buffer, pool, configs, requests, responses, saves, firstSaves, sd);
    assert sd[..] == NOTHING;
    assert pool.store[..] == NOTHING;
  }

  /** Requests page 0, answers it blank and arms recording (mod.rs:112-126). */
  method Prime(b: Bench) returns (load: Option<PageRequest>)
    requires b.Frame() && b.Snap() == Start()
    modifies b.requests, b.responses, b.pool.store, b.configs
    ensures b.Frame() && b.Snap() == Primed()
    ensures load == Some(Blank(Id(0)))
  {
    PrimeSteps();
    RequestNext(b, Start());
    load := ServeLoad(b, Start().(requests := [Blank(Id(0))]));
    Arm(b, Primed().(configs := []), true);
  }

  /** Records the first take until page 0 is full, then evicts it (mod.rs:130-149). */
  method RecordFirstPage(b: Bench)
    requires b.Frame() && b.Snap() == Primed()
    modifies b.manager, b.buffer, b.pool.store, b.configs, b.requests, b.responses, b.saves, b.firstSaves
    ensures b.Frame() && b.Snap() == FirstPageFull()
  {
    FirstTakeReady();
    FirstTakeStarts();
    FirstTakeFills(1);
    var full := Cycle(b, Primed(), Block(TAKE_1), RecordingFirst(1), FirstPageFull());
    ghost var n := 1;
    while !full
      invariant b.Frame() && 1 <= n <= BLOCKS_PER_PAGE
      invariant full ==> b.Snap() == FirstPageFull()
      invariant !full ==> n < BLOCKS_PER_PAGE && b.Snap() == RecordingFirst(n)
      decreases BLOCKS_PER_PAGE - n
    {
      full := ContinueFirstPage(b, n);
      n := n + 1;
    }
  }

  /** A later cycle of the first loop: one more block, and the eviction once the page is full. */
  method ContinueFirstPage(b: Bench, ghost n: nat) returns (full: bool)
    requires 1 <= n < BLOCKS_PER_PAGE && b.Frame() && b.Snap() == RecordingFirst(n)
    modifies b.manager, b.buffer, b.pool.store, b.configs, b.requests, b.responses, b.saves, b.firstSaves
    ensures b.Frame() && (full <==> n + 1 == BLOCKS_PER_PAGE)
    ensures b.Snap() == if full then FirstPageFull() else RecordingFirst(n + 1)
  {
    FirstTakeContinues(n);
    FirstTakeFills(n + 1);
    full := Cycle(b, RecordingFirst(n), Block(TAKE_1), RecordingFirst(n + 1), FirstPageFull());
  }

  /** The storage side after page 0 filled (mod.rs:154-168). */
  method AnswerFirstPage(b: Bench)
    returns (load: Option<PageRequest>, pageSave: Option<PageId>, handleSave: Option<PageId>, recorded: seq<Sample>)
    requires b.Frame() && b.Snap() == FirstPageFull()
    modifies b.requests, b.responses, b.pool.store, b.sd, b.firstSaves, b.saves
    ensures b.Frame() && b.Snap() == SecondPageReady()
    ensures load == Some(Blank(Id(1))) && pageSave == Some(Id(0)) && handleSave == None
    ensures recorded == [TAKE_1]
  {
    AnswerFirstPageSteps();
    load := ServeLoad(b, FirstPageFull());
    pageSave := ServeFirstSave(b, SecondPageReady().(firstSaves := [FirstTake()], sd := NOTHING));
    handleSave := ServeHandleSave(b, SecondPageReady());
    CardAfterFirstPage();
    assert b.sd[..] == SecondPageReady().sd;
    recorded := FirstSamples(b.sd[..], 1);
  }

  /** Records the second take until page 1 is full, then evicts it (mod.rs:172-191). */
  method RecordSecondPage(b: Bench)
    requires b.Frame() && b.Snap() == SecondPageReady()
    modifies b.manager, b.buffer, b.pool.store, b.configs, b.requests, b.responses, b.saves, b.firstSaves
    ensures b.Frame() && b.Snap() == SecondPageFull()
  {
    SecondTakeReady();
    SecondTakeStarts();
    SecondTakeFills(1);
    var full := Cycle(b, SecondPageReady(), Block(TAKE_2), RecordingSecond(1), SecondPageFull());
    ghost var n := 1;
    while !full
      invariant b.Frame() && 1 <= n <= BLOCKS_PER_PAGE
      invariant full ==> b.Snap() == SecondPageFull()
      invariant !full ==> n < BLOCKS_PER_PAGE && b.Snap() == RecordingSecond(n)
      decreases BLOCKS_PER_PAGE - n
    {
      full := ContinueSecondPage(b, n);
      n := n + 1;
    }
  }

  /** A later cycle of the second loop: one more block, and the eviction once the page is full. */
  method ContinueSecondPage(b: Bench, ghost n: nat) returns (full: bool)
    requires 1 <= n < BLOCKS_PER_PAGE && b.Frame() && b.Snap() == RecordingSecond(n)
    modifies b.manager, b.buffer, b.pool.store, b.configs, b.requests, b.responses, b.saves, b.firstSaves
    ensures b.Frame() && (full <==> n + 1 == BLOCKS_PER_PAGE)
    ensures b.Snap() == if full then SecondPageFull() else RecordingSecond(n + 1)
  {
    SecondTakeContinues(n);
    SecondTakeFills(n + 1);
    full := Cycle(b, RecordingSecond(n), Block(TAKE_2), RecordingSecond(n + 1), SecondPageFull());
  }

  /** The storage side after page 1 filled (mod.rs:196-216). */
  method AnswerSecondPage(b: Bench)
    returns (load: Option<PageRequest>, pageSave: Option<PageId>, handleSave: Option<PageId>, recorded: seq<Sample>)
    requires b.Frame() && b.Snap() == SecondPageFull()
    modifies b.requests, b.responses, b.pool.store, b.sd, b.firstSaves, b.saves
    ensures b.Frame() && b.Snap() == ThirdPageReady()
    ensures load == Some(Blank(Id(2))) && pageSave == None && handleSave == Some(Id(1))
    ensures recorded == [TAKE_1, TAKE_2]
  {
    AnswerSecondPageSteps();
    load := ServeLoad(b, SecondPageFull());
    pageSave := ServeFirstSave(b, SecondPageSaving());
    handleSave := ServeHandleSave(b, SecondPageSaving());
    CardAfterSecondPage();
    assert b.sd[..] == ThirdPageReady().sd;
    recorded := FirstSamples(b.sd[..], 2);
  }

  /** Records three blocks of the third take, evicts page 2 and resets the position (mod.rs:219-238). */
  method RecordThirdPageAndReset(b: Bench)
    requires b.Frame() && b.Snap() == ThirdPageReady()
    modifies b.manager, b.buffer, b.pool.store, b.configs, b.requests, b.responses, b.saves, b.firstSaves
    ensures b.Frame() && b.Snap() == ResetMidThird()
  {
    StartThirdPage(b);
    for n := 1 to 3
      invariant b.Frame() && b.Snap() == RecordingThird(n)
    {
      ContinueThirdPage(b, n);
    }
    InterruptThirdPage(b);
  }

  /** The first cycle of the third loop: page 2 installed and page 3 asked for. */
  method StartThirdPage(b: Bench)
    requires b.Frame() && b.Snap() == ThirdPageReady()
    modifies b.manager, b.buffer, b.pool.store, b.configs, b.requests, b.responses
    ensures b.Frame() && b.Snap() == RecordingThird(1)
  {
    ThirdTakeReady();
    ThirdTakeStarts();
    Tick(b, ThirdPageReady(), Block(TAKE_3));
  }

  /** After three blocks: page 2 is evicted part-way and the position is reset. */
  method InterruptThirdPage(b: Bench)
    requires b.Frame() && b.Snap() == RecordingThird(3)
    modifies b.manager, b.buffer, b.pool.store, b.saves, b.firstSaves
    ensures b.Frame() && b.Snap() == ResetMidThird()
  {
    ThirdTakeInterrupted();
    Evict(b, RecordingThird(3));
    Rewind(b, ResetMidThird().(pointer := 1120));
  }

  /** A later cycle of the third loop, which has no full-page check. */
  method ContinueThirdPage(b: Bench, ghost n: nat)
    requires 1 <= n < 3 && b.Frame() && b.Snap() == RecordingThird(n)
    modifies b.manager, b.buffer, b.pool.store, b.configs, b.requests, b.responses
    ensures b.Frame() && b.Snap() == RecordingThird(n + 1)
  {
    ThirdTakeContinues(n);
    Tick(b, RecordingThird(n), Block(TAKE_3));
  }

  /** The storage side after the reset (mod.rs:243-268). */
  method AnswerAfterReset(b: Bench)
    returns (load: Option<PageRequest>, pageSave: Option<PageId>, secondLoad: Option<PageRequest>,
             handleSave: Option<PageId>, recorded: seq<Sample>)
    requires b.Frame() && b.Snap() == ResetMidThird()
    modifies b.requests, b.responses, b.pool.store, b.sd, b.firstSaves, b.saves
    ensures b.Frame() && b.Snap() == RestartReady()
    ensures load == Some(Blank(Id(3))) && pageSave == None && secondLoad == None && handleSave == Some(Id(2))
    ensures recorded == [TAKE_1, TAKE_2, TAKE_3]
  {
    AnswerAfterResetSteps();
    load := ServeLoad(b, ResetMidThird());
    pageSave := ServeFirstSave(b, ThirdPageSaving());
    secondLoad := ServeLoad(b, ThirdPageSaving());
    handleSave := ServeHandleSave(b, ThirdPageSaving());
    CardAfterReset();
    assert b.sd[..] == RestartReady().sd;
    recorded := FirstSamples(b.sd[..], 3);
  }

  /** Records the fourth take over page 0 until it is full, then evicts it (mod.rs:272-291). */
  method RerecordFirstPage(b: Bench)
    requires b.Frame() && b.Snap() == RestartReady()
    modifies b.manager, b.buffer, b.pool.store, b.configs, b.requests, b.responses, b.saves, b.firstSaves
    ensures b.Frame() && b.Snap() == FirstPageRerecorded()
  {
    RetakeReady();
    RetakeStarts();
    RetakeFills(1);
    var full := Cycle(b, RestartReady(), Block(TAKE_4), RerecordingFirst(1), FirstPageRerecorded());
    ghost var n := 1;
    while !full
      invariant b.Frame() && 1 <= n <= BLOCKS_PER_PAGE
      invariant full ==> b.Snap() == FirstPageRerecorded()
      invariant !full ==> n < BLOCKS_PER_PAGE && b.Snap() == RerecordingFirst(n)
      decreases BLOCKS_PER_PAGE - n
    {
      full := ContinueRetake(b, n);
      n := n + 1;
    }
  }

  /** A later cycle of the fourth loop: one more block, and the eviction once the page is full. */
  method ContinueRetake(b: Bench, ghost n: nat) returns (full: bool)
    requires 1 <= n < BLOCKS_PER_PAGE && b.Frame() && b.Snap() == RerecordingFirst(n)
    modifies b.manager, b.buffer, b.pool.store, b.configs, b.requests, b.responses, b.saves, b.firstSaves
    ensures b.Frame() && (full <==> n + 1 == BLOCKS_PER_PAGE)
    ensures b.Snap() == if full then FirstPageRerecorded() else RerecordingFirst(n + 1)
  {
    RetakeContinues(n);
    RetakeFills(n + 1);
    full := Cycle(b, RerecordingFirst(n), Block(TAKE_4), RerecordingFirst(n + 1), FirstPageRerecorded());
  }

  /** The storage side after page 0 filled again (mod.rs:296-311). */
  method AnswerRerecorded(b: Bench)
    returns (load: Option<PageRequest>, pageSave: Option<PageId>, handleSave: Option<PageId>, recorded: seq<Sample>)
    requires b.Frame() && b.Snap() == FirstPageRerecorded()
    modifies b.requests, b.responses, b.pool.store, b.sd, b.firstSaves, b.saves
    ensures b.Frame() && b.Snap() == SecondPageReloaded()
    ensures load == Some(Load(Id(1))) && pageSave == Some(Id(0)) && handleSave == None
    ensures recorded == [TAKE_4, TAKE_2, TAKE_3]
  {
    AnswerRerecordedSteps();
    load := ServeLoad(b, FirstPageRerecorded());
    pageSave := ServeFirstSave(b, RetakeSaving());
    handleSave := ServeHandleSave(b, SecondPageReloaded());
    CardAfterRetake();
    assert b.sd[..] == SecondPageReloaded().sd;
    recorded := FirstSamples(b.sd[..], 3);
  }

  /** The control side turns recording off (mod.rs:314-319). */
  method Disarm(b: Bench)
    requires b.Frame() && b.Snap() == SecondPageReloaded()
    modifies b.configs
    ensures b.Frame() && b.Snap() == Disarmed()
  {
    AnswerRerecordedSteps();
    Arm(b, SecondPageReloaded(), false);
  }

  /** Plays page 1 back with recording off until its end, then evicts it (mod.rs:323-342). */
  method PlaySecondPage(b: Bench)
    requires b.Frame() && b.Snap() == Disarmed()
    modifies b.manager, b.buffer, b.pool.store, b.configs, b.requests, b.responses, b.saves, b.firstSaves
    ensures b.Frame() && b.Snap() == SecondPagePlayed()
  {
    PlaybackReady();
    PlaybackStarts();
    PlaybackEnds(1);
    var full := Cycle(b, Disarmed(), Block(TAKE_5), PlayingSecond(1), SecondPagePlayed());
    ghost var n := 1;
    while !full
      invariant b.Frame() && 1 <= n <= BLOCKS_PER_PAGE
      invariant full ==> b.Snap() == SecondPagePlayed()
      invariant !full ==> n < BLOCKS_PER_PAGE && b.Snap() == PlayingSecond(n)
      decreases BLOCKS_PER_PAGE - n
    {
      full := ContinuePlayback(b, n);
      n := n + 1;
    }
  }

  /** A later cycle of the fifth loop: one more block, and the eviction once the page is full. */
  method ContinuePlayback(b: Bench, ghost n: nat) returns (full: bool)
    requires 1 <= n < BLOCKS_PER_PAGE && b.Frame() && b.Snap() == PlayingSecond(n)
    modifies b.manager, b.buffer, b.pool.store, b.configs, b.requests, b.responses, b.saves, b.firstSaves
    ensures b.Frame() && (full <==> n + 1 == BLOCKS_PER_PAGE)
    ensures b.Snap() == if full then SecondPagePlayed() else PlayingSecond(n + 1)
  {
    PlaybackContinues(n);
    PlaybackEnds(n + 1);
    full := Cycle(b, PlayingSecond(n), Block(TAKE_5), PlayingSecond(n + 1), SecondPagePlayed());
  }

  /** The storage side after playback (mod.rs:346-362). */
  method AnswerFinal(b: Bench)
    returns (load: Option<PageRequest>, pageSave: Option<PageId>, handleSave: Option<PageId>, recorded: seq<Sample>)
    requires b.Frame() && b.Snap() == SecondPagePlayed()
    modifies b.requests, b.responses, b.pool.store, b.sd, b.firstSaves, b.saves
    ensures b.Frame() && b.Snap() == Finished()
    ensures load == Some(Load(Id(2))) && pageSave == None && handleSave == None
    ensures recorded == [TAKE_4, TAKE_2, TAKE_3]
  {
    AnswerFinalSteps();
    load := ServeLoad(b, SecondPagePlayed());
    pageSave := ServeFirstSave(b, Finished());
    handleSave := ServeHandleSave(b, Finished());
    CardAfterRetake();
    assert b.sd[..] == Finished().sd;
    recorded := FirstSamples(b.sd[..], 3);
  }

  /**
   * `full_flow_starting_from_nothing_with_long_recording`: starting from
   * nothing, the storage side receives exactly these page requests, first-page
   * saves and handle saves, in this order; the first samples it checks on the
   * card after each round are these; and the card ends up holding the
   * re-recorded page 0, the second take and the interrupted third take.
   */
  method FullFlowStartingFromNothingWithLongRecording()
    returns (loads: seq<Option<PageRequest>>, pageSaves: seq<Option<PageId>>,
             handleSaves: seq<Option<PageId>>, recorded: seq<seq<Sample>>, card: seq<Option<Page>>)
    ensures loads == [Some(Blank(Id(0))), Some(Blank(Id(1))), Some(Blank(Id(2))), Some(Blank(Id(3))), None,
                      Some(Load(Id(1))), Some(Load(Id(2)))]
    ensures pageSaves == [Some(Id(0)), None, None, Some(Id(0)), None]
    ensures handleSaves == [None, Some(Id(1)), Some(Id(2)), None, None]
    ensures recorded == [[TAKE_1], [TAKE_1, TAKE_2], [TAKE_1, TAKE_2, TAKE_3],
                         [TAKE_4, TAKE_2, TAKE_3], [TAKE_4, TAKE_2, TAKE_3]]
    ensures card == [Some(Retake()), Some(SecondTake()), Some(ThirdTake()), None]
  {
    var b := NewBench();
    var first := Prime(b);
    RecordFirstPage(b);
    var l1, p1, h1, r1 := AnswerFirstPage(b);
    RecordSecondPage(b);
    var l2, p2, h2, r2 := AnswerSecondPage(b);
    RecordThirdPageAndReset(b);
    var l3, p3, l3b, h3, r3 := AnswerAfterReset(b);
    RerecordFirstPage(b);
    var l4, p4, h4, r4 := AnswerRerecorded(b);
    Disarm(b);
    PlaySecondPage(b);
    var l5, p5, h5, r5 := AnswerFinal(b);
    loads := [first, l1, l2, l3, l3b, l4, l5];
    pageSaves := [p1, p2, p3, p4, p5];
    handleSaves := [h1, h2, h3, h4, h5];
    recorded := [r1, r2, r3, r4, r5];
    card := b.sd[..];
  }
}
