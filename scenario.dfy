/**
 * The course of `full_flow_starting_from_nothing_with_long_recording`
 * (dsp/src/paging_buffer/mod.rs, lines 75-363) as the sequence of worlds it
 * passes through, with the lemmas that take each cycle of its loops and each
 * round of its storage side from one world to the next.
 */
module Scenario {
  import opened Options
  import opened Cassettes
  import opened Pages
  import opened Pools
  import opened Buffers
  import opened Managers
  import opened Worlds

  /** Samples per audio block fed to the manager in one cycle. */
  const BLOCK_LENGTH: nat := 32

  /** Blocks that fill one page. */
  const BLOCKS_PER_PAGE: nat := 16

  /** Sample levels of the five takes (the test's 0.1 to 0.5). */
  const TAKE_1: Sample := 1

  const TAKE_2: Sample := 2

  const TAKE_3: Sample := 3

  const TAKE_4: Sample := 4

  const TAKE_5: Sample := 5

  function Block(level: Sample): seq<Sample>
  {
    seq(BLOCK_LENGTH, _ => level)
  }

  /** The cassette of the test. */
  const ONE: CassetteId := CassetteId(1)

  function Id(k: nat): PageId
  {
    PageId(ONE, k)
  }

  function H(slot: Slot): Handle
  {
    Handle(slot)
  }

  /** Page `k` freshly allocated by the storage side. */
  function Fresh(k: nat): Page
  {
    Page.New(Id(k))
  }

  /** Page `k` after `n` samples of `level` were recorded over `under`. */
  function Written(k: nat, n: nat, level: Sample, under: Sample): Page
    requires n <= PAGE_LENGTH
  {
    Page(Id(k), true, Filled(n, level, under))
  }

  /** The pages as they reach the card. */
  function FirstTake(): Page { Written(0, PAGE_LENGTH, TAKE_1, SILENCE) }

  function SecondTake(): Page { Written(1, PAGE_LENGTH, TAKE_2, SILENCE) }

  function ThirdTake(): Page { Written(2, 3 * BLOCK_LENGTH, TAKE_3, SILENCE) }

  function Retake(): Page { Written(0, PAGE_LENGTH, TAKE_4, TAKE_1) }

  const NOTHING: seq<Option<Page>> := [None, None, None, None]

  /** Cassette 1 selected, nothing requested yet (mod.rs:84-111). */
  function Start(): World
  {
    World(0, Cassette(ONE, 0), false, None, None, NOTHING, [], [], [], [], [], NOTHING)
  }

  /** Page 0 requested, answered blank, and recording asked for (mod.rs:112-126). */
  function Primed(): World
  {
    World(0, Cassette(ONE, 0), false, None, None, [Some(Fresh(0)), None, None, None],
          [Config(true)], [], [H(0)], [], [], NOTHING)
  }

  /** Recording the first take into page 0, `n` blocks in. */
  function RecordingFirst(n: nat): World
    requires n <= BLOCKS_PER_PAGE
  {
    World(BLOCK_LENGTH * n, Cassette(ONE, BLOCK_LENGTH * n), true, Some(H(0)), None,
          [Some(Written(0, BLOCK_LENGTH * n, TAKE_1, SILENCE)), None, None, None],
          [], [Blank(Id(1))], [], [], [], NOTHING)
  }

  /** Page 0 full: sent by value, kept as the cache, page 1 requested (mod.rs:130-149). */
  function FirstPageFull(): World
  {
    World(512, Cassette(ONE, 512), true, None, Some(H(0)), [Some(FirstTake()), None, None, None],
          [], [Blank(Id(1))], [], [], [FirstTake()], NOTHING)
  }

  /** Page 1 answered blank in slot 1 and page 0 on the card (mod.rs:154-168). */
  function SecondPageReady(): World
  {
    World(512, Cassette(ONE, 512), true, None, Some(H(0)), [Some(FirstTake()), Some(Fresh(1)), None, None],
          [], [], [H(1)], [], [], [Some(FirstTake()), None, None, None])
  }

  /** Recording the second take into page 1, `n` blocks in. */
  function RecordingSecond(n: nat): World
    requires n <= BLOCKS_PER_PAGE
  {
    World(512 + BLOCK_LENGTH * n, Cassette(ONE, 512 + BLOCK_LENGTH * n), true, Some(H(1)), Some(H(0)),
          [Some(FirstTake()), Some(Written(1, BLOCK_LENGTH * n, TAKE_2, SILENCE)), None, None],
          [], [Blank(Id(2))], [], [], [], [Some(FirstTake()), None, None, None])
  }

  /** Page 1 full: its handle sent for saving (mod.rs:172-191). */
  function SecondPageFull(): World
  {
    World(1024, Cassette(ONE, 1024), true, None, Some(H(0)), [Some(FirstTake()), Some(SecondTake()), None, None],
          [], [Blank(Id(2))], [], [H(1)], [], [Some(FirstTake()), None, None, None])
  }

  /** Page 2 answered blank in slot 2, page 1 moved to the card (mod.rs:196-216). */
  function ThirdPageReady(): World
  {
    World(1024, Cassette(ONE, 1024), true, None, Some(H(0)), [Some(FirstTake()), None, Some(Fresh(2)), None],
          [], [], [H(2)], [], [], [Some(FirstTake()), Some(SecondTake()), None, None])
  }

  /** Recording the third take into page 2, `n` blocks in. */
  function RecordingThird(n: nat): World
    requires n <= BLOCKS_PER_PAGE
  {
    World(1024 + BLOCK_LENGTH * n, Cassette(ONE, 1024 + BLOCK_LENGTH * n), true, Some(H(2)), Some(H(0)),
          [Some(FirstTake()), None, Some(Written(2, BLOCK_LENGTH * n, TAKE_3, SILENCE)), None],
          [], [Blank(Id(3))], [], [], [], [Some(FirstTake()), Some(SecondTake()), None, None])
  }

  /** Page 2 evicted part-way and the position reset (mod.rs:219-238). */
  function ResetMidThird(): World
  {
    World(0, Cassette(ONE, 1120), true, None, Some(H(0)), [Some(FirstTake()), None, Some(ThirdTake()), None],
          [], [Blank(Id(3))], [], [H(2)], [], [Some(FirstTake()), Some(SecondTake()), None, None])
  }

  /** Page 3 answered blank in slot 1, page 2 moved to the card (mod.rs:243-268). */
  function RestartReady(): World
  {
    World(0, Cassette(ONE, 1120), true, None, Some(H(0)), [Some(FirstTake()), Some(Fresh(3)), None, None],
          [], [], [H(1)], [], [], [Some(FirstTake()), Some(SecondTake()), Some(ThirdTake()), None])
  }

  /** Recording the fourth take over page 0, taken from the cache, `n` blocks in. */
  function RerecordingFirst(n: nat): World
    requires n <= BLOCKS_PER_PAGE
  {
    World(BLOCK_LENGTH * n, Cassette(ONE, 1120), true, Some(H(0)), None,
          [Some(Written(0, BLOCK_LENGTH * n, TAKE_4, TAKE_1)), Some(Fresh(3)), None, None],
          [], [Load(Id(1))], [H(1)], [], [], [Some(FirstTake()), Some(SecondTake()), Some(ThirdTake()), None])
  }

  /** Page 0 full again: sent by value and cached (mod.rs:272-291). */
  function FirstPageRerecorded(): World
  {
    World(512, Cassette(ONE, 1120), true, None, Some(H(0)), [Some(Retake()), Some(Fresh(3)), None, None],
          [], [Load(Id(1))], [H(1)], [], [Retake()], [Some(FirstTake()), Some(SecondTake()), Some(ThirdTake()), None])
  }

  /** Page 1 answered in slot 2 and the new page 0 on the card (mod.rs:296-311). */
  function SecondPageReloaded(): World
  {
    World(512, Cassette(ONE, 1120), true, None, Some(H(0)), [Some(Retake()), Some(Fresh(3)), Some(Fresh(1)), None],
          [], [], [H(1), H(2)], [], [], [Some(Retake()), Some(SecondTake()), Some(ThirdTake()), None])
  }

  /** Playing page 1 back with recording off, `n` blocks in; the stale page 3 was dropped. */
  function PlayingSecond(n: nat): World
  {
    World(512 + BLOCK_LENGTH * n, Cassette(ONE, 1120), false, Some(H(2)), Some(H(0)),
          [Some(Retake()), None, Some(Fresh(1)), None],
          [], [Load(Id(2))], [], [], [], [Some(Retake()), Some(SecondTake()), Some(ThirdTake()), None])
  }

  /** Page 1 played to its end and dropped unsaved (mod.rs:323-342). */
  function SecondPagePlayed(): World
  {
    World(1024, Cassette(ONE, 1120), false, None, Some(H(0)), [Some(Retake()), None, None, None],
          [], [Load(Id(2))], [], [], [], [Some(Retake()), Some(SecondTake()), Some(ThirdTake()), None])
  }

  /** Page 2 answered in slot 1; nothing saved (mod.rs:346-362). */
  function Finished(): World
  {
    World(1024, Cassette(ONE, 1120), false, None, Some(H(0)), [Some(Retake()), Some(Fresh(2)), None, None],
          [], [], [H(1)], [], [], [Some(Retake()), Some(SecondTake()), Some(ThirdTake()), None])
  }

  /** Page 1 answered, and the control side turning recording off (mod.rs:314-319). */
  function Disarmed(): World
  {
    SecondPageReloaded().(configs := [Config(false)])
  }

  /** `assert_recorded` for pages `0 .. count`: the first sample of each page on the card. */
  function FirstSamples(sd: seq<Option<Page>>, count: nat): (r: seq<Sample>)
    requires count <= |sd| && forall i | 0 <= i < count :: sd[i].Some?
    ensures |r| == count && forall i | 0 <= i < count :: r[i] == sd[i].value.data[0]
  {
    seq(count, i requires 0 <= i < count => sd[i].value.data[0])
  }

  // The cycles of each loop of the test, as world transitions: the first
  // cycle of a loop acquires a page (`...Starts`), later ones only process
  // (`...Continues`), and `...Fills` says when the held page is full and
  // what evicting it leaves.

  /** The first cycle installs the blank page 0 answered during setup. */
  lemma FirstTakeFetches()
    ensures Fetched(Configured(Primed())) == Primed().(configs := [], recording := true, active := Some(H(0)), responses := [])
  {
  }

  lemma FirstTakeReady()
    ensures TickReady(Primed())
  {
    var f := Primed().(configs := [], recording := true, active := Some(H(0)), responses := []);
    FirstTakeFetches();
    FirstTakeSound();
    ReadyAcquiring(Primed(), f);
  }

  /** The worlds before and after the acquisition keep the ownership facts. */
  lemma FirstTakeSound()
    ensures Sound(Primed()) && Sound(Primed().(configs := [], recording := true, active := Some(H(0)), responses := []))
  {
  }

  lemma FirstTakeStarts()
    ensures Ticked(Primed(), Block(TAKE_1)) == RecordingFirst(1)
  {
    var f := Primed().(configs := [], recording := true, active := Some(H(0)), responses := []);
    FirstTakeFetches();
    TickedAcquiring(Primed(), f, Block(TAKE_1));
    assert WantOf(f) == Blank(Id(1));
    EmptyRun(SILENCE, TAKE_1, SILENCE);
    RecordExtendsRun(0, BLOCK_LENGTH, TAKE_1, SILENCE);
  }

  lemma FirstTakeContinues(n: nat)
    requires 1 <= n < BLOCKS_PER_PAGE
    ensures TickReady(RecordingFirst(n))
    ensures Ticked(RecordingFirst(n), Block(TAKE_1)) == RecordingFirst(n + 1)
  {
    RecordExtendsRun(BLOCK_LENGTH * n, BLOCK_LENGTH, TAKE_1, SILENCE);
  }

  lemma FirstTakeFills(n: nat)
    requires 1 <= n <= BLOCKS_PER_PAGE
    ensures Sound(RecordingFirst(n))
    ensures FullAt(RecordingFirst(n).pointer, HeldOf(RecordingFirst(n))) <==> n == BLOCKS_PER_PAGE
    ensures n == BLOCKS_PER_PAGE ==> Evicted(RecordingFirst(n)) == FirstPageFull()
  {
    FullIffWholePages(0, BLOCK_LENGTH * n);
  }

  /** Setting up: page 0 is wanted blank, answered in slot 0, and recording is asked for. */
  lemma PrimeSteps()
    ensures Sound(Start()) && Requested(Start()) == Start().(requests := [Blank(Id(0))])
    ensures FirstFree(NOTHING) == 0
    ensures Served(Start().(requests := [Blank(Id(0))])) == Primed().(configs := [])
  {
    assert NextIndex(0, None) == 0;
  }

  /** Each take begins with its own level (`assert_recorded`, mod.rs:365-371). */
  lemma TakesBegin()
    ensures FirstTake().data[0] == TAKE_1 && SecondTake().data[0] == TAKE_2
    ensures ThirdTake().data[0] == TAKE_3 && Retake().data[0] == TAKE_4
  {
  }

  /** The first samples the test checks on the card after each round of the storage side. */
  lemma CardAfterFirstPage()
    ensures FirstSamples(SecondPageReady().sd, 1) == [TAKE_1]
  {
    TakesBegin();
  }

  lemma CardAfterSecondPage()
    ensures FirstSamples(ThirdPageReady().sd, 2) == [TAKE_1, TAKE_2]
  {
    TakesBegin();
  }

  lemma CardAfterReset()
    ensures FirstSamples(RestartReady().sd, 3) == [TAKE_1, TAKE_2, TAKE_3]
  {
    TakesBegin();
  }

  lemma CardAfterRetake()
    ensures FirstSamples(SecondPageReloaded().sd, 3) == [TAKE_4, TAKE_2, TAKE_3]
    ensures Finished().sd == SecondPageReloaded().sd
  {
    TakesBegin();
  }

  /** Storage after page 0 filled: page 1 answered blank in slot 1, page 0 written to the card. */
  lemma AnswerFirstPageSteps()
    ensures FirstFree(FirstPageFull().store) == 1
    ensures Served(FirstPageFull()) == SecondPageReady().(firstSaves := [FirstTake()], sd := NOTHING)
    ensures FirstSaved(SecondPageReady().(firstSaves := [FirstTake()], sd := NOTHING)) == SecondPageReady()
    ensures HandleSaved(SecondPageReady()) == SecondPageReady()
  {
  }

  /** The first cycle of the second loop installs the blank page 1 from the responses. */
  lemma SecondTakeFetches()
    ensures Fetched(Configured(SecondPageReady())) == SecondPageReady().(active := Some(H(1)), responses := [])
  {
    var c := Configured(SecondPageReady());
    assert c == SecondPageReady();
    assert WantOf(c) == Blank(Id(1));
  }

  lemma SecondTakeReady()
    ensures TickReady(SecondPageReady())
  {
    var f := SecondPageReady().(active := Some(H(1)), responses := []);
    SecondTakeFetches();
    SecondTakeSound();
    ReadyAcquiring(SecondPageReady(), f);
  }

  /** The worlds before and after the acquisition keep the ownership facts. */
  lemma SecondTakeSound()
    ensures Sound(SecondPageReady()) && Sound(SecondPageReady().(active := Some(H(1)), responses := []))
  {
  }

  lemma SecondTakeStarts()
    ensures Ticked(SecondPageReady(), Block(TAKE_2)) == RecordingSecond(1)
  {
    var f := SecondPageReady().(active := Some(H(1)), responses := []);
    SecondTakeFetches();
    TickedAcquiring(SecondPageReady(), f, Block(TAKE_2));
    assert WantOf(f) == Blank(Id(2));
    EmptyRun(SILENCE, TAKE_2, SILENCE);
    RecordExtendsRun(0, BLOCK_LENGTH, TAKE_2, SILENCE);
  }

  lemma SecondTakeContinues(n: nat)
    requires 1 <= n < BLOCKS_PER_PAGE
    ensures TickReady(RecordingSecond(n))
    ensures Ticked(RecordingSecond(n), Block(TAKE_2)) == RecordingSecond(n + 1)
  {
    RecordExtendsRun(BLOCK_LENGTH * n, BLOCK_LENGTH, TAKE_2, SILENCE);
  }

  lemma SecondTakeFills(n: nat)
    requires 1 <= n <= BLOCKS_PER_PAGE
    ensures Sound(RecordingSecond(n))
    ensures FullAt(RecordingSecond(n).pointer, HeldOf(RecordingSecond(n))) <==> n == BLOCKS_PER_PAGE
    ensures n == BLOCKS_PER_PAGE ==> Evicted(RecordingSecond(n)) == SecondPageFull()
  {
    FullIffWholePages(1, BLOCK_LENGTH * n);
  }

  /** The world after page 2 is answered, before page 1 is persisted. */
  function SecondPageSaving(): World
  {
    ThirdPageReady().(store := [Some(FirstTake()), Some(SecondTake()), Some(Fresh(2)), None],
                      saves := [H(1)], sd := [Some(FirstTake()), None, None, None])
  }

  /** Storage after page 1 filled: page 2 answered blank in slot 2, page 1 moved to the card. */
  lemma AnswerSecondPageSteps()
    ensures FirstFree(SecondPageFull().store) == 2
    ensures Served(SecondPageFull()) == SecondPageSaving()
    ensures FirstSaved(SecondPageSaving()) == SecondPageSaving()
    ensures HandleSaved(SecondPageSaving()) == ThirdPageReady()
    ensures At(SecondPageSaving(), H(1)) == Some(SecondTake())
  {
  }

  /** The first cycle of the third loop installs the blank page 2 and asks for blank page 3. */
  lemma ThirdTakeReady()
    ensures TickReady(ThirdPageReady())
  {
    var f := ThirdPageReady().(active := Some(H(2)), responses := []);
    ThirdTakeFetches();
    ThirdTakeSound();
    ReadyAcquiring(ThirdPageReady(), f);
  }

  /** The worlds before and after the acquisition keep the ownership facts. */
  lemma ThirdTakeSound()
    ensures Sound(ThirdPageReady()) && Sound(ThirdPageReady().(active := Some(H(2)), responses := []))
  {
  }

  lemma ThirdTakeStarts()
    ensures Ticked(ThirdPageReady(), Block(TAKE_3)) == RecordingThird(1)
  {
    var f := ThirdPageReady().(active := Some(H(2)), responses := []);
    ThirdTakeFetches();
    TickedAcquiring(ThirdPageReady(), f, Block(TAKE_3));
    assert WantOf(f) == Blank(Id(3));
    EmptyRun(SILENCE, TAKE_3, SILENCE);
    RecordExtendsRun(0, BLOCK_LENGTH, TAKE_3, SILENCE);
  }

  lemma ThirdTakeContinues(n: nat)
    requires 1 <= n < 3
    ensures TickReady(RecordingThird(n))
    ensures Ticked(RecordingThird(n), Block(TAKE_3)) == RecordingThird(n + 1)
  {
    RecordExtendsRun(BLOCK_LENGTH * n, BLOCK_LENGTH, TAKE_3, SILENCE);
  }

  /** The first cycle of the third loop installs the blank page 2 from the responses. */
  lemma ThirdTakeFetches()
    ensures Fetched(Configured(ThirdPageReady())) == ThirdPageReady().(active := Some(H(2)), responses := [])
  {
    var c := Configured(ThirdPageReady());
    assert c == ThirdPageReady();
    assert WantOf(c) == Blank(Id(2));
  }

  /** Three blocks in, page 2 is evicted part-way with its handle, and the position reset. */
  lemma ThirdTakeInterrupted()
    ensures Sound(RecordingThird(3))
    ensures Evicted(RecordingThird(3)) == ResetMidThird().(pointer := 1120)
  {
  }

  /** The world after page 3 is answered, before page 2 is persisted. */
  function ThirdPageSaving(): World
  {
    RestartReady().(store := [Some(FirstTake()), Some(Fresh(3)), Some(ThirdTake()), None],
                    saves := [H(2)], sd := [Some(FirstTake()), Some(SecondTake()), None, None])
  }

  /**
   * Storage after the reset: the stale request for page 3 is answered blank
   * in slot 1, there is no second request, and page 2 moves to the card.
   */
  lemma AnswerAfterResetSteps()
    ensures FirstFree(ResetMidThird().store) == 1
    ensures Served(ResetMidThird()) == ThirdPageSaving()
    ensures FirstSaved(ThirdPageSaving()) == ThirdPageSaving()
    ensures Served(ThirdPageSaving()) == ThirdPageSaving()
    ensures HandleSaved(ThirdPageSaving()) == RestartReady()
    ensures At(ThirdPageSaving(), H(2)) == Some(ThirdTake())
  {
  }

  /** After the reset the wanted page 0 is the cached one, so no response is touched. */
  lemma RetakeFetches()
    ensures Fetched(Configured(RestartReady())) == RestartReady().(active := Some(H(0)), cache := None)
  {
    var c := Configured(RestartReady());
    assert c == RestartReady();
    assert WantOf(c) == Load(Id(0));
    assert CacheHit(c);
  }

  lemma RetakeReady()
    ensures TickReady(RestartReady())
  {
    var f := RestartReady().(active := Some(H(0)), cache := None);
    RetakeFetches();
    RetakeSound();
    ReadyAcquiring(RestartReady(), f);
  }

  /** The worlds before and after the acquisition keep the ownership facts. */
  lemma RetakeSound()
    ensures Sound(RestartReady()) && Sound(RestartReady().(active := Some(H(0)), cache := None))
  {
  }

  lemma RetakeStarts()
    ensures Ticked(RestartReady(), Block(TAKE_4)) == RerecordingFirst(1)
  {
    var f := RestartReady().(active := Some(H(0)), cache := None);
    RetakeFetches();
    TickedAcquiring(RestartReady(), f, Block(TAKE_4));
    assert WantOf(f) == Load(Id(1));
    FullRunCoversAll(TAKE_1, SILENCE, TAKE_4);
    RecordExtendsRun(0, BLOCK_LENGTH, TAKE_4, TAKE_1);
  }

  lemma RetakeContinues(n: nat)
    requires 1 <= n < BLOCKS_PER_PAGE
    ensures TickReady(RerecordingFirst(n))
    ensures Ticked(RerecordingFirst(n), Block(TAKE_4)) == RerecordingFirst(n + 1)
  {
    RecordExtendsRun(BLOCK_LENGTH * n, BLOCK_LENGTH, TAKE_4, TAKE_1);
  }

  lemma RetakeFills(n: nat)
    requires 1 <= n <= BLOCKS_PER_PAGE
    ensures Sound(RerecordingFirst(n))
    ensures FullAt(RerecordingFirst(n).pointer, HeldOf(RerecordingFirst(n))) <==> n == BLOCKS_PER_PAGE
    ensures n == BLOCKS_PER_PAGE ==> Evicted(RerecordingFirst(n)) == FirstPageRerecorded()
  {
    FullIffWholePages(0, BLOCK_LENGTH * n);
  }

  /** The world after page 1 is answered, before the new page 0 is persisted. */
  function RetakeSaving(): World
  {
    SecondPageReloaded().(firstSaves := [Retake()],
                          sd := [Some(FirstTake()), Some(SecondTake()), Some(ThirdTake()), None])
  }

  /** Storage after page 0 filled again: page 1 answered in slot 2, the new page 0 on the card. */
  lemma AnswerRerecordedSteps()
    ensures FirstFree(FirstPageRerecorded().store) == 2
    ensures Served(FirstPageRerecorded()) == RetakeSaving()
    ensures FirstSaved(RetakeSaving()) == SecondPageReloaded()
    ensures HandleSaved(SecondPageReloaded()) == SecondPageReloaded()
  {
  }

  /**
   * With recording off, page 1 is wanted by `Load`; the cache holds page 0, the
   * first response is the stale page 3, whose slot is released, and the second
   * is page 1.
   */
  lemma PlaybackFetches()
    ensures Fetched(Configured(Disarmed())) == PlayingSecond(0).(requests := [])
  {
    var c := Configured(Disarmed());
    assert c == SecondPageReloaded().(recording := false);
    assert WantOf(c) == Load(Id(1)) by {
      assert NextIndex(512, None) == 1;
    }
    assert !CacheHit(c);
    FirstMatchSkipsOne(c.store, H(1), H(2), Id(1));
    assert c.responses[..1] == [H(1)] && c.responses[2..] == [];
    assert Released(c.store, [H(1)]) == [Some(Retake()), None, Some(Fresh(1)), None];
  }

  lemma PlaybackReady()
    ensures TickReady(Disarmed())
  {
    var f := PlayingSecond(0).(requests := []);
    PlaybackFetches();
    PlaybackSound();
    ReadyAcquiring(Disarmed(), f);
  }

  /** The worlds before and after the acquisition keep the ownership facts. */
  lemma PlaybackSound()
    ensures Sound(Disarmed()) && Sound(PlayingSecond(0).(requests := []))
  {
  }

  lemma PlaybackStarts()
    ensures Ticked(Disarmed(), Block(TAKE_5)) == PlayingSecond(1)
  {
    var f := PlayingSecond(0).(requests := []);
    PlaybackFetches();
    TickedAcquiring(Disarmed(), f, Block(TAKE_5));
    assert Requested(f) == PlayingSecond(0);
  }

  /** The first of two responses is for another page and the second is for the wanted one. */
  lemma FirstMatchSkipsOne(store: seq<Option<Page>>, a: Handle, b: Handle, wanted: PageId)
    requires !Serves(store, a, wanted) && Serves(store, b, wanted)
    ensures FirstMatch(store, [a, b], wanted) == 1
  {
    assert [a, b][1..] == [b];
  }

  lemma PlaybackContinues(n: nat)
    requires 1 <= n < BLOCKS_PER_PAGE
    ensures TickReady(PlayingSecond(n))
    ensures Ticked(PlayingSecond(n), Block(TAKE_5)) == PlayingSecond(n + 1)
  {
  }

  lemma PlaybackEnds(n: nat)
    requires 1 <= n <= BLOCKS_PER_PAGE
    ensures Sound(PlayingSecond(n))
    ensures FullAt(PlayingSecond(n).pointer, HeldOf(PlayingSecond(n))) <==> n == BLOCKS_PER_PAGE
    ensures n == BLOCKS_PER_PAGE ==> Evicted(PlayingSecond(n)) == SecondPagePlayed()
  {
    FullIffWholePages(1, BLOCK_LENGTH * n);
  }

  /** Storage after playback: page 2 answered in slot 1, nothing to save. */
  lemma AnswerFinalSteps()
    ensures FirstFree(SecondPagePlayed().store) == 1
    ensures Served(SecondPagePlayed()) == Finished()
    ensures FirstSaved(Finished()) == Finished() && HandleSaved(Finished()) == Finished()
  {
  }
}
