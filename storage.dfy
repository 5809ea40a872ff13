/**
 * The storage side of the flow test (dsp/src/paging_buffer/mod.rs): it
 * answers page requests with pages from the pool and persists saved pages
 * into `sd`, an in-memory stand-in for the card addressed by page index.
 * Each routine returns what it dequeued, so the test's expectations become
 * assertions of the caller.
 */
module Storage {
  import opened Options
  import opened Pages
  import opened Pools
  import opened Queues

  /**
   * Answers the oldest page request, if any, by allocating a page with the
   * requested identity and queueing its handle as the response.
   */
  method AnswerLoadRequest(pool: Pool, requests: Queue<PageRequest>, responses: Queue<Handle>)
    returns (received: Option<PageRequest>, answer: Option<Handle>)
    requires pool.Valid() && requests.Valid() && responses.Valid()
    requires requests.items != [] ==> pool.Stored() < SLOTS && |responses.items| < responses.capacity
    modifies requests, responses, pool.store
    ensures requests.Valid() && responses.Valid()
    ensures old(requests.items) == [] ==>
      && received == None && answer == None && requests.items == []
      && responses.items == old(responses.items) && pool.store[..] == old(pool.store[..])
    ensures old(requests.items) != [] ==>
      && received == Some(old(requests.items)[0]) && requests.items == old(requests.items)[1..]
      && answer.Some? && answer.value.slot == FirstFree(old(pool.store[..]))
      && pool.store[..] == old(pool.store[..])[answer.value.slot := Some(Page.New(received.value.RequestedPage()))]
      && responses.items == old(responses.items) + [answer.value]
  {
    received := requests.Dequeue();
    answer := None;
    if received.Some? {
      var h := pool.NewPage(received.value.RequestedPage());
      var ok := responses.Enqueue(h);
      answer := Some(h);
    }
  }

  /** Persists the oldest first-page save, which carries the page by value, at its index. */
  method PersistFirstPageSave(sd: array<Option<Page>>, firstSaves: Queue<Page>) returns (received: Option<PageId>)
    requires firstSaves.Valid()
    requires firstSaves.items != [] ==> firstSaves.items[0].Index() < sd.Length
    modifies sd, firstSaves
    ensures firstSaves.Valid()
    ensures old(firstSaves.items) == [] ==>
      received == None && firstSaves.items == [] && sd[..] == old(sd[..])
    ensures old(firstSaves.items) != [] ==>
      var page := old(firstSaves.items)[0];
      && received == Some(page.id) && firstSaves.items == old(firstSaves.items)[1..]
      && sd[..] == old(sd[..])[page.Index() := Some(page)]
  {
    var next := firstSaves.Dequeue();
    received := None;
    if next.Some? {
      var page := next.value;
      sd[page.Index()] := Some(page);
      received := Some(page.id);
    }
  }

  /**
   * Persists the oldest handle save: the page is moved out of the pool into
   * `sd` at its index, which frees its slot.
   */
  method PersistHandleSave(sd: array<Option<Page>>, pool: Pool, saves: Queue<Handle>) returns (received: Option<PageId>)
    requires pool.Valid() && sd != pool.store && saves.Valid()
    requires saves.items != [] ==> pool.Holds(saves.items[0]) && pool.PageRef(saves.items[0]).Index() < sd.Length
    modifies sd, saves, pool.store
    ensures saves.Valid()
    ensures old(saves.items) == [] ==>
      && received == None && saves.items == []
      && sd[..] == old(sd[..]) && pool.store[..] == old(pool.store[..])
    ensures old(saves.items) != [] ==>
      var h := old(saves.items)[0];
      var page := old(pool.PageRef(saves.items[0]));
      && received == Some(page.id) && saves.items == old(saves.items)[1..]
      && sd[..] == old(sd[..])[page.Index() := Some(page)]
      && pool.store[..] == old(pool.store[..])[h.slot := None]
  {
    var next := saves.Dequeue();
    received := None;
    if next.Some? {
      var h := next.value;
      var id := pool.PageRef(h).id;
      var page := pool.TakePage(h);
      sd[id.index] := Some(page);
      received := Some(id);
    }
  }
}
