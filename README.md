# Paging buffer: a verified model

This project models the paging engine of the looper's DSP crate
(`dsp/src/paging_buffer`). The engine lets a recording loop far longer than
RAM be recorded and played back by swapping fixed-size pages of 512 samples
with a storage routine.

The engine's parts:

- **Pool.** A four-slot arena of pages. A handle is the one ticket to a slot.
- **Values.** Pages, page identities, page requests and cassettes.
- **Buffer.** The per-cassette record/playback state: the pointer, the held
  page, the recording flag, and the cassette length as a high-water mark.
- **Manager.** Drives the buffer once per audio cycle. It keeps a cache of
  the cassette's first page. It talks to the storage side over four bounded
  channels: page requests, page responses, first-page saves and handle
  saves. A fifth bounded channel brings it configuration updates from the
  control loop.

The source is partly unwritten:

- `buffer.rs` is an empty stub.
- `manager.rs` implements only `new`, `set_cassette` and
  `start_loading_next_page`.
- The rest of the behaviour is fixed by the flow test
  `full_flow_starting_from_nothing_with_long_recording` in `mod.rs`, and the
  model gives the missing operations the behaviour that test relies on.

The model's modules:

| module | what it holds |
|---|---|
| `Options` | The `Option` type. |
| `Cassettes`, `Pages` | The value types, as datatypes. A sample is an integer tag. |
| `Pools` | The pool as a class over an `array<Option<Page>>`. `new_page` scans for the lowest free slot in a loop. |
| `Queues` | A `heapless::spsc::Queue<T, N>` as a class over a `seq`. It holds at most `N - 1` items. |
| `Buffers`, `Managers` | The buffer and the manager as classes whose methods update their fields in place. |
| `Storage` | The test's three storage-side helpers, over the pool, the channels and the in-memory card `sd`. |
| `Worlds` | One value, `World`, for everything the test can observe, and one function per call the test makes, saying what the call does to that value. |
| `Benches` | The test's objects. Each call is wrapped in a method proved to move the objects' snapshot exactly as the matching `Worlds` function says. |
| `Scenario` | The worlds the test passes through, and one lemma per cycle kind and per storage round that takes one world to the next. |
| `Flow` | The test itself, as imperative code with the same loops, and the top method proving every request and save it asserts. |

Where the model goes beyond the code, it follows the tests:

- **Page identity.** `PageId::new` discards its arguments
  (dsp/src/paging_buffer/page.rs:28-32), so as written every page identity
  is equal. The test tells pages 0, 1, 2 and 3 of cassette 1 apart, so the
  model's `PageId` is the pair (cassette, page index).
- **Load or Blank.** A request for page `k` is `Load` exactly when the page
  starts below the recorded length (`k * 512 < length`). Otherwise it is
  `Blank`. A rule that looks at the pointer instead would ask to `Load` a
  page never recorded into, whenever the page before it ended part-way. Both
  rules give the same answer on every request the test makes.
- **Full page.** A held page is full when the pointer sits on a page
  boundary *after* the page's first sample. Without the second condition, a
  page installed at a boundary would count as full before anything was
  written into it.
- **Writing.** `process` writes only the samples whose position lies inside
  the held page, which stays safe after a reset mid-page.
- **Cache.** The first-page cache is used when it holds exactly the page
  wanted, comparing cassette and page index.
- **Released slots.** Three handles the manager gives up release their pool
  slot: a clean page at `start_saving`, the older cache entry that
  `start_saving` replaces when it caches a new page 0, and a stale response
  skipped by `try_fetching_next_page`. The source's `Handle` has no `Drop`, so as
  written those slots would never be freed. Other handles the manager drops
  keep their slot (see `Managers.Manager.SetCassette` under "## Left out").

## Model

| member | source | states |
|---|---|---|
| Cassettes.Cassette.New | dsp/src/paging_buffer/cassette.rs:10-15 | A new cassette has identity `CassetteId(index)` and length 0. |
| Cassettes.CassetteIdEquality | dsp/src/paging_buffer/cassette.rs:19-27 | Two cassette identities are equal exactly when their indices are, in both directions. |
| Pages.Page.New | dsp/src/paging_buffer/page.rs:9-15 | A new page carries the given identity (`id()` returns it), is clean and holds only silence. |
| Pages.Page.Index | dsp/src/paging_buffer/mod.rs:410-411 | A page's index, with its cassette, is its whole identity. |
| Pages.PageRequest.RequestedPage | dsp/src/paging_buffer/page.rs:19-22 | A request is `Load(r)` or `Blank(r)` for the identity `r` it returns. |
| Pages.Record | dsp/src/paging_buffer/mod.rs:140 | Writing a block at an offset replaces exactly the samples under the block and keeps every other sample. |
| Pools.Pool.constructor | dsp/src/paging_buffer/pool.rs:12-16 | A new pool has four empty slots and stores nothing. |
| Pools.Pool.Stored | dsp/src/paging_buffer/pool.rs:37-39 | The number of occupied slots, never more than four. |
| Pools.FreeSlotIffNotFull | dsp/src/paging_buffer/pool.rs:19-24 | There is a free slot exactly when fewer than all slots are occupied, so `new_page` fails only on a full pool. |
| Pools.FirstFreeIsLowest | dsp/src/paging_buffer/pool.rs:19-25 | The slot the search finds is empty, and every slot below it is occupied. |
| Pools.OccupiedUpdate | dsp/src/paging_buffer/pool.rs:37-39 | Overwriting one slot changes the count by what left and what arrived. |
| Pools.Pool.NewPage | dsp/src/paging_buffer/pool.rs:18-31 | Requires a pool that is not full. Installs a fresh page with the requested identity in the lowest empty slot, which is the only slot changed. The count grows by one, and the returned handle reaches the page. |
| Pools.Pool.DropPage | dsp/src/paging_buffer/pool.rs:33-35 | Empties the handle's slot and no other. The count drops by one if the slot was occupied. |
| Pools.Pool.PageRef | dsp/src/paging_buffer/pool.rs:49-51 | Requires an occupied slot, and returns exactly the page in it. |
| Pools.Pool.PageMut | dsp/src/paging_buffer/pool.rs:53-55 | Requires an occupied slot. Replaces that slot's page with one of the same identity; nothing else changes and the count stays. |
| Pools.Pool.TakePage | dsp/src/paging_buffer/mod.rs:388 | Moves the handle's page out of the pool. Only its slot empties, and the count drops by one. |
| Queues.Queue.constructor | dsp/src/paging_buffer/mod.rs:84 | A queue declared with `N` slots starts empty with capacity `N - 1`, and satisfies `Valid`: it never holds more items than its capacity. |
| Queues.Queue.Enqueue | dsp/src/paging_buffer/mod.rs:123-126 | Appends at the tail exactly when the queue is not full, and reports whether it did; a full queue is unchanged. The capacity bound `Valid` is kept. |
| Queues.Queue.Dequeue | dsp/src/paging_buffer/mod.rs:379 | Returns and removes the head, or returns `None` and changes nothing when the queue is empty. The capacity bound `Valid` is kept. |
| Buffers.RequestFor | dsp/src/paging_buffer/mod.rs:296-301 | The request names page `k` of the cassette. It is `Load` exactly when page `k` starts below the recorded length. |
| Buffers.LoadIffCovered | dsp/src/paging_buffer/mod.rs:347-352 | `Load` is asked for exactly the pages the recording reaches into, and `Blank` for every page beyond them. |
| Buffers.FreshCassetteWantsBlank | dsp/src/paging_buffer/mod.rs:111-116 | Every request for a new cassette is `Blank`. |
| Buffers.FullIffWholePages | dsp/src/paging_buffer/mod.rs:142-148 | A page installed at its first sample is full exactly when a positive whole number of pages of samples has passed since. |
| Buffers.Processed | dsp/src/paging_buffer/mod.rs:140 | One `process` keeps the page's identity. While recording, it writes the block at the pointer's offset and marks the page dirty; otherwise the page is unchanged. |
| Buffers.DirtyIffRecordedInto | dsp/src/paging_buffer/mod.rs:353-358 | After any sequence of `process` calls, a page is dirty exactly when it was dirty before or one call was made while recording. Calls made without recording leave it as it was. |
| Buffers.Buffer.FromCassette | dsp/src/paging_buffer/manager.rs:20 | A new buffer is at position 0 with no page held and recording off. |
| Buffers.Buffer.WantsNext | dsp/src/paging_buffer/manager.rs:28 | Names the page after the held one, or the pointer's page when none is held. It is `Load` exactly when that page starts below the recorded length. |
| Buffers.Buffer.IsFull | dsp/src/paging_buffer/mod.rs:142 | True exactly when a page is held and the pointer is on a page boundary past the page's start. |
| Buffers.Buffer.SetPage | dsp/src/paging_buffer/mod.rs:134 | Installs the handle, and only while no page is held. |
| Buffers.Buffer.TakePage | dsp/src/paging_buffer/mod.rs:143 | Returns the held handle and leaves no page held. |
| Buffers.Buffer.SetRecording | dsp/src/paging_buffer/mod.rs:131 | Sets the recording flag. |
| Buffers.Buffer.ResetPosition | dsp/src/paging_buffer/mod.rs:237 | Sets the pointer to 0. The held page and the recorded length stay. |
| Buffers.Buffer.Process | dsp/src/paging_buffer/mod.rs:140 | With a page held: the pointer advances by the block's length, the length rises to the pointer if it was below, and the page becomes `Processed`. Without a page nothing changes. |
| Managers.LastRecording | dsp/src/paging_buffer/mod.rs:123-131 | After a drain of configuration updates the latest update's flag wins, and no update keeps the flag. |
| Managers.FirstMatchIsFirst | dsp/src/paging_buffer/mod.rs:327 | The response the search picks serves the wanted page, and none before it does. |
| Managers.RouteFor | dsp/src/paging_buffer/mod.rs:143-146 | A clean page is discarded. A dirty page 0 goes by value on the first-page channel, and any other dirty page by handle on the save channel; each direction is an if-and-only-if. |
| Managers.Manager.constructor | dsp/src/paging_buffer/manager.rs:15-17 | A new manager has no buffer and an empty cache. |
| Managers.Manager.SetCassette | dsp/src/paging_buffer/manager.rs:19-21 | Replaces the buffer with a new one for the cassette: position 0, no page held, recording off. |
| Managers.Manager.StartLoadingNextPage | dsp/src/paging_buffer/manager.rs:23-33 | Requires a cassette to be set and the request queue not to be full. Appends exactly the buffer's `WantsNext` at the tail, and the earlier entries stay. |
| Managers.Manager.ProcessConfigurationUpdates | dsp/src/paging_buffer/mod.rs:131 | Drains the configuration queue; the recording flag is `LastRecording` of what was queued. |
| Managers.Manager.IsWaitingForPage | dsp/src/paging_buffer/mod.rs:133 | True exactly when no page is held. |
| Managers.Manager.TryFetchingNextPage | dsp/src/paging_buffer/mod.rs:134 | When the cache holds the wanted page, installs it with no channel traffic and empties the cache. Otherwise it takes the first response for the wanted page (`FirstMatch`), releases the slots of the responses before it and leaves those after it queued. It reports whether a page was installed, and an installed page is always the wanted one. |
| Managers.Manager.TakeResponseFor | dsp/src/paging_buffer/mod.rs:134 | The response-draining loop of `try_fetching_next_page`, with the same contract for the non-cache case. |
| Managers.Manager.Process | dsp/src/paging_buffer/mod.rs:140 | Forwards one block to the buffer, with the buffer's `Process` contract. |
| Managers.Manager.HasFullPage | dsp/src/paging_buffer/mod.rs:142 | True exactly when the held page is full. |
| Managers.Manager.StartSaving | dsp/src/paging_buffer/mod.rs:143-146 | Evicts the held page by its `RouteFor`. A clean page has its slot released. A dirty page 0 is appended by value to the first-page channel and kept as the cache, releasing any older cache. Any other dirty page has its handle appended to the save channel. In each case the other channel is unchanged. |
| Managers.Manager.ResetPosition | dsp/src/paging_buffer/mod.rs:237 | Sets the pointer to 0 and changes nothing else. |
| Storage.AnswerLoadRequest | dsp/src/paging_buffer/mod.rs:420-437 | Takes the oldest request if there is one, installs a new page with its identity in the lowest free slot and queues the handle as the response. With no request, nothing changes. |
| Storage.PersistFirstPageSave | dsp/src/paging_buffer/mod.rs:397-418 | Takes the oldest first-page save if there is one and writes that page to the card at its index. With none, it returns `None` and nothing changes. |
| Storage.PersistHandleSave | dsp/src/paging_buffer/mod.rs:373-395 | Takes the oldest handle save if there is one, moves its page out of the pool onto the card at its index and frees the slot. With none, it returns `None` and nothing changes. |
| Worlds.ConfiguredSound | dsp/src/paging_buffer/mod.rs:131 | Draining configuration keeps the ownership facts (`Sound`). |
| Worlds.RequestedSound | dsp/src/paging_buffer/mod.rs:136 | Asking for the next page keeps the ownership facts. |
| Worlds.ReadyAcquiring | dsp/src/paging_buffer/mod.rs:133-138 | A proof step for the scenario lemmas, not a model of its own: it unfolds `TickReady` for a cycle that starts with no page held and acquires a world that keeps the ownership facts. |
| Worlds.TickedAcquiring | dsp/src/paging_buffer/mod.rs:133-140 | A proof step for the scenario lemmas, not a model of its own: it unfolds `Ticked` for a cycle that acquires a page, which asks for the next one and then processes the block. |
| Benches.Configure | dsp/src/paging_buffer/mod.rs:131 | The test's `process_configuration_updates` moves the world to `Configured`. |
| Benches.RequestNext | dsp/src/paging_buffer/mod.rs:136 | `start_loading_next_page` moves the world to `Requested`. |
| Benches.Fetch | dsp/src/paging_buffer/mod.rs:134 | `try_fetching_next_page` moves the world to `Fetched` and reports whether that world holds a page. |
| Benches.Advance | dsp/src/paging_buffer/mod.rs:140 | `process` moves the world to `Advanced`. |
| Benches.IsFull | dsp/src/paging_buffer/mod.rs:142 | `has_full_page` answers `FullAt` of the world. |
| Benches.Evict | dsp/src/paging_buffer/mod.rs:143-146 | `start_saving` moves the world to `Evicted`. |
| Benches.Rewind | dsp/src/paging_buffer/mod.rs:237 | `reset_position` sets the world's pointer to 0 and nothing else. |
| Benches.Arm | dsp/src/paging_buffer/mod.rs:123-126 | The control side's update is appended to the configuration queue. |
| Benches.ServeLoad | dsp/src/paging_buffer/mod.rs:420-437 | Answering a load request moves the world to `Served` and returns the request received. |
| Benches.ServeFirstSave | dsp/src/paging_buffer/mod.rs:397-418 | Persisting a first-page save moves the world to `FirstSaved` and returns the identity received. |
| Benches.ServeHandleSave | dsp/src/paging_buffer/mod.rs:373-395 | Persisting a handle save moves the world to `HandleSaved` and returns the identity received. |
| Benches.Tick | dsp/src/paging_buffer/mod.rs:131-140 | One cycle of the test's loops without the full-page check moves the world to `Ticked`. |
| Benches.Cycle | dsp/src/paging_buffer/mod.rs:130-149 | One cycle with the full-page check. It reports fullness exactly when the ticked world is full, and ends in the evicted world when it is. |
| Scenario.FirstSamples | dsp/src/paging_buffer/mod.rs:365-371 | The first sample of each of the first `count` pages on the card, in order. |
| Scenario.PrimeSteps | dsp/src/paging_buffer/mod.rs:112-120 | On the new cassette, page 0 is asked for with `Blank` and answered in slot 0. |
| Scenario.FirstTakeFetches | dsp/src/paging_buffer/mod.rs:130-134 | A proof step for `FirstTakeStarts`: the first fetch takes the queued recording flag and installs blank page 0, leaving no response queued. |
| Scenario.FirstTakeStarts | dsp/src/paging_buffer/mod.rs:130-140 | The first cycle installs page 0, asks for `Blank` page 1 and records one block. |
| Scenario.FirstTakeContinues | dsp/src/paging_buffer/mod.rs:130-140 | A later cycle of the first loop records one more block. |
| Scenario.FirstTakeFills | dsp/src/paging_buffer/mod.rs:142-148 | Page 0 is full exactly after 16 blocks. Evicting it sends it by value and caches it. |
| Scenario.AnswerFirstPageSteps | dsp/src/paging_buffer/mod.rs:154-168 | Page 1 is answered in slot 1, page 0 reaches the card, and no handle save is pending. |
| Scenario.SecondTakeFetches | dsp/src/paging_buffer/mod.rs:172-176 | A proof step for `SecondTakeStarts`: the second loop's first fetch installs blank page 1 from the responses, leaving none queued. |
| Scenario.SecondTakeStarts | dsp/src/paging_buffer/mod.rs:172-182 | The second loop installs page 1 and asks for `Blank` page 2. |
| Scenario.SecondTakeContinues | dsp/src/paging_buffer/mod.rs:172-182 | A later cycle of the second loop records one more block. |
| Scenario.SecondTakeFills | dsp/src/paging_buffer/mod.rs:184-190 | Page 1 is full exactly after 16 blocks. Evicting it sends its handle for saving. |
| Scenario.AnswerSecondPageSteps | dsp/src/paging_buffer/mod.rs:196-216 | Page 2 is answered in slot 2, there is no first-page save, and page 1 moves from the pool to the card. |
| Scenario.ThirdTakeFetches | dsp/src/paging_buffer/mod.rs:220-224 | A proof step for `ThirdTakeStarts`: the third loop's first fetch installs blank page 2 from the responses, leaving none queued. |
| Scenario.ThirdTakeStarts | dsp/src/paging_buffer/mod.rs:220-230 | The third loop installs page 2 and asks for `Blank` page 3. |
| Scenario.ThirdTakeContinues | dsp/src/paging_buffer/mod.rs:220-230 | Its second and third cycles record one more block each. |
| Scenario.ThirdTakeInterrupted | dsp/src/paging_buffer/mod.rs:233-237 | The part-filled dirty page 2 is sent for saving with its handle. |
| Scenario.AnswerAfterResetSteps | dsp/src/paging_buffer/mod.rs:243-268 | The stale request for page 3 is still answered, no second request follows the reset, and page 2 moves to the card. |
| Scenario.RetakeFetches | dsp/src/paging_buffer/mod.rs:272-280 | After the reset, page 0 comes from the cache; the response for page 3 stays queued. |
| Scenario.RetakeStarts | dsp/src/paging_buffer/mod.rs:272-282 | The fourth loop installs the cached page 0 and asks for page 1 with `Load`, since it was recorded. |
| Scenario.RetakeContinues | dsp/src/paging_buffer/mod.rs:272-282 | A later cycle of the fourth loop records one more block over page 0. |
| Scenario.RetakeFills | dsp/src/paging_buffer/mod.rs:284-290 | The re-recorded page 0 is full exactly after 16 blocks. Evicting it sends it by value and caches it again. |
| Scenario.AnswerRerecordedSteps | dsp/src/paging_buffer/mod.rs:296-311 | `Load` page 1 is answered in slot 2, the new page 0 replaces the old one on the card, and no handle save is pending. |
| Scenario.PlaybackFetches | dsp/src/paging_buffer/mod.rs:324-327 | With recording off, the stale page 3 is skipped and its slot released, and page 1 is installed. |
| Scenario.PlaybackStarts | dsp/src/paging_buffer/mod.rs:323-333 | The fifth loop installs page 1 and asks for page 2 with `Load`. |
| Scenario.PlaybackContinues | dsp/src/paging_buffer/mod.rs:323-333 | A later cycle of the fifth loop moves the pointer and writes nothing. |
| Scenario.PlaybackEnds | dsp/src/paging_buffer/mod.rs:335-341 | Page 1 is used up exactly after 16 blocks. Evicting the clean page sends nothing and releases its slot. |
| Scenario.AnswerFinalSteps | dsp/src/paging_buffer/mod.rs:346-362 | `Load` page 2 is answered in slot 1 and no save of either kind is pending. |
| Scenario.FirstMatchSkipsOne | dsp/src/paging_buffer/mod.rs:327 | With a response for another page ahead of one for the wanted page, the second is picked. |
| Scenario.TakesBegin | dsp/src/paging_buffer/mod.rs:365-371 | Each recorded page begins with its own take's level. |
| Scenario.CardAfterFirstPage | dsp/src/paging_buffer/mod.rs:167 | After the first storage round, the card's page 0 begins with take 1. |
| Scenario.CardAfterSecondPage | dsp/src/paging_buffer/mod.rs:214-215 | After the second round, pages 0 and 1 begin with takes 1 and 2. |
| Scenario.CardAfterReset | dsp/src/paging_buffer/mod.rs:266-268 | After the reset round, pages 0, 1 and 2 begin with takes 1, 2 and 3. |
| Scenario.CardAfterRetake | dsp/src/paging_buffer/mod.rs:308-310 | After the retake, page 0 begins with take 4 while pages 1 and 2 keep takes 2 and 3. Playback leaves the card as it was. |
| Flow.NewBench | dsp/src/paging_buffer/mod.rs:84-111 | Creates the channels, the card, the pool and the manager, and selects cassette 1. |
| Flow.Prime | dsp/src/paging_buffer/mod.rs:112-126 | The first request received is `Blank` page 0, and the update that turns recording on is queued. |
| Flow.RecordFirstPage | dsp/src/paging_buffer/mod.rs:130-149 | The first loop ends with page 0 full, sent by value and cached, and `Blank` page 1 requested. |
| Flow.ContinueFirstPage | dsp/src/paging_buffer/mod.rs:130-149 | A later cycle of that loop reports fullness exactly at the 16th block. |
| Flow.AnswerFirstPage | dsp/src/paging_buffer/mod.rs:154-168 | The storage side receives `Blank` 1, a first-page save of page 0 and no handle save. Page 0 on the card begins with take 1. |
| Flow.RecordSecondPage | dsp/src/paging_buffer/mod.rs:172-191 | The second loop ends with page 1's handle sent for saving and `Blank` page 2 requested. |
| Flow.ContinueSecondPage | dsp/src/paging_buffer/mod.rs:172-191 | A later cycle of that loop reports fullness exactly at the 16th block. |
| Flow.AnswerSecondPage | dsp/src/paging_buffer/mod.rs:196-216 | The storage side receives `Blank` 2, no first-page save and a handle save of page 1. The card begins with takes 1 and 2. |
| Flow.RecordThirdPageAndReset | dsp/src/paging_buffer/mod.rs:219-238 | The third phase ends with the part-filled page 2 sent for saving and the position at 0. |
| Flow.StartThirdPage | dsp/src/paging_buffer/mod.rs:220-231 | The first cycle of the third phase installs page 2 and asks for `Blank` page 3. |
| Flow.ContinueThirdPage | dsp/src/paging_buffer/mod.rs:220-231 | Its second and third cycles each record one block. |
| Flow.InterruptThirdPage | dsp/src/paging_buffer/mod.rs:233-237 | `start_saving` and then `reset_position` after the third block. |
| Flow.AnswerAfterReset | dsp/src/paging_buffer/mod.rs:243-268 | The storage side receives `Blank` 3, no first-page save, no further request and a handle save of page 2. The card begins with takes 1, 2 and 3. |
| Flow.RerecordFirstPage | dsp/src/paging_buffer/mod.rs:272-291 | The fourth loop ends with the new page 0 full, sent by value and cached, and `Load` page 1 requested. |
| Flow.ContinueRetake | dsp/src/paging_buffer/mod.rs:272-291 | A later cycle of that loop reports fullness exactly at the 16th block. |
| Flow.AnswerRerecorded | dsp/src/paging_buffer/mod.rs:296-311 | The storage side receives `Load` 1, a first-page save of page 0 and no handle save. The card begins with takes 4, 2 and 3. |
| Flow.Disarm | dsp/src/paging_buffer/mod.rs:314-319 | The control side queues `recording: false`. |
| Flow.PlaySecondPage | dsp/src/paging_buffer/mod.rs:323-342 | The fifth loop ends with page 1 dropped unsaved and `Load` page 2 requested. |
| Flow.ContinuePlayback | dsp/src/paging_buffer/mod.rs:323-342 | A later cycle of that loop reports fullness exactly at the 16th block. |
| Flow.AnswerFinal | dsp/src/paging_buffer/mod.rs:346-362 | The storage side receives `Load` 2 and nothing to save. The card still begins with takes 4, 2 and 3. |
| Flow.FullFlowStartingFromNothingWithLongRecording | dsp/src/paging_buffer/mod.rs:75-363 | Starting from nothing, the storage side receives exactly these requests, in this order: `Blank` 0, 1, 2, 3, then nothing, then `Load` 1, 2. It receives exactly these first-page saves and handle saves. The samples `assert_recorded` checks are the takes the test expects. The card ends with the re-recorded page 0, the second take and the interrupted third take. |

## Left out

- Audio samples are `f32` levels in the source. The model uses integer tags (1 to 5 for the test's 0.1 to 0.5), so the float comparisons of `assert_recorded` become equalities.
- `process` also produces output audio in the source's design. Only the recording side is modelled.
- A handle's raw pointer and the `unsafe` access through it are a slot index into the pool here. Every page access goes through the pool, so there is no aliasing to model.
- The `static mut POOL` singleton is a pool object passed to each operation.
- The `spsc` producer/consumer split and concurrency are not modelled. The test drives every side from one thread, and each channel is one bounded queue.
- When a `Load` request arrives, the storage side installs a fresh page, exactly as the test's helper does (mod.rs:432). Reading persisted contents back from the card is not modelled.
- A storage helper that expects a request and receives none panics in the source. Here it returns `None`, and the caller proves what was received.
- The configuration type's own file (`config.rs`) is not part of this model; `Config` carries only the recording flag the test sets.
- The firmware binaries and the empty test harness are outside the paging engine.
- The first cycle of each loop of the test is written out before the loop. Its cycle acquires a page while later cycles only process.
- Managers.Manager.SetCassette: like manager.rs:19-21 it replaces the buffer and leaves the pool alone, so a page the old buffer still held, and a first-page cache of the old cassette, keep their slots with no handle left to free them. The test switches cassettes only during setup, when neither exists.
- The source's `usize` positions, lengths, page indices and slot numbers are unbounded `nat` here. No operation of the core comes near overflow (the positions the test reaches stay near a thousand samples), so wrap-around is not modelled.
