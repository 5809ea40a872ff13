/**
 * The page pool (dsp/src/paging_buffer/pool.rs): a fixed arena of four page
 * slots. A handle is the index of the slot it owns; the raw pointer the
 * source keeps beside the index is the same slot, so page access goes
 * through the pool with the handle.
 */
module Pools {
  import opened Options
  import opened Pages

  /** Number of page slots in the pool. */
  const SLOTS: nat := 4

  type Slot = i: nat | i < SLOTS

  /** Exclusive ticket for one pool slot. */
  datatype Handle = Handle(slot: Slot)

  /** Number of occupied slots. */
  function Occupied(s: seq<Option<Page>>): (n: nat)
    ensures n <= |s|
  {
    if s == [] then 0 else (if s[0].Some? then 1 else 0) + Occupied(s[1..])
  }

  /** Index of the lowest empty slot, or `|s|` when every slot is occupied. */
  function FirstFree(s: seq<Option<Page>>): (i: nat)
    ensures i <= |s|
  {
    if s == [] then 0
    else if s[0].None? then 0
    else 1 + FirstFree(s[1..])
  }

  /** The slot `FirstFree` picks is empty and every slot below it is occupied. */
  lemma {:induction false} FirstFreeIsLowest(s: seq<Option<Page>>)
    ensures FirstFree(s) < |s| ==> s[FirstFree(s)].None?
    ensures forall j | 0 <= j < FirstFree(s) :: s[j].Some?
  {
    if s != [] && s[0].Some? {
      FirstFreeIsLowest(s[1..]);
      assert forall j | 1 <= j < FirstFree(s) :: s[j] == s[1..][j - 1];
    }
  }

  /** Overwriting one slot changes the occupancy by what left and what arrived. */
  lemma {:induction false} OccupiedUpdate(s: seq<Option<Page>>, i: nat, v: Option<Page>)
    requires i < |s|
    ensures Occupied(s[i := v]) == Occupied(s) - (if s[i].Some? then 1 else 0) + (if v.Some? then 1 else 0)
  {
    if i == 0 {
      assert s[i := v][1..] == s[1..];
    } else {
      assert s[i := v][1..] == s[1..][i - 1 := v];
      OccupiedUpdate(s[1..], i - 1, v);
    }
  }

  /** There is a free slot exactly when fewer slots than there are slots are occupied. */
  lemma {:induction false} FreeSlotIffNotFull(s: seq<Option<Page>>)
    ensures FirstFree(s) < |s| <==> Occupied(s) < |s|
  {
    if s != [] {
      FreeSlotIffNotFull(s[1..]);
    }
  }

  /** An arena of empty slots stores nothing. */
  lemma {:induction false} NothingOccupied(s: seq<Option<Page>>)
    requires forall i | 0 <= i < |s| :: s[i].None?
    ensures Occupied(s) == 0
  {
    if s != [] {
      assert forall i | 0 <= i < |s| - 1 :: s[1..][i] == s[i + 1];
      NothingOccupied(s[1..]);
    }
  }

  /** No handle occurs twice: each slot has at most one owner. */
  ghost predicate Distinct(hs: seq<Handle>)
  {
    forall i, j | 0 <= i < j < |hs| :: hs[i] != hs[j]
  }

  class Pool {
    const store: array<Option<Page>>

    ghost predicate Valid()
      reads this
    {
      store.Length == SLOTS
    }

    /** `Pool::new`: every slot empty. */
    constructor ()
      ensures Valid() && fresh(store)
      ensures forall i | 0 <= i < SLOTS :: store[i].None?
      ensures Stored() == 0
    {
      store := new Option<Page>[SLOTS](_ => None);
      new;
      NothingOccupied(store[..]);
    }

    /** `Pool::stored`: the number of occupied slots, never above the pool's size. */
    function Stored(): (n: nat)
      reads this, store
      requires Valid()
      ensures n <= SLOTS
    {
      Occupied(store[..])
    }

    /** The handle's slot holds a page. */
    predicate Holds(h: Handle)
      reads this, store
      requires Valid()
    {
      store[h.slot].Some?
    }

    /** Every handle of `hs` refers to an occupied slot. */
    ghost predicate HoldsAll(hs: seq<Handle>)
      reads this, store
      requires Valid()
    {
      forall i | 0 <= i < |hs| :: Holds(hs[i])
    }

    /** `Handle::page_ref`: the page in the handle's slot, which must be occupied. */
    function PageRef(h: Handle): (p: Page)
      reads this, store
      requires Valid() && Holds(h)
      ensures store[h.slot] == Some(p)
    {
      store[h.slot].value
    }

    /**
     * `Pool::new_page`: installs a fresh page with identity `id` in the lowest
     * empty slot and returns the handle to it. A full pool is a fatal error.
     */
    method NewPage(id: PageId) returns (h: Handle)
      requires Valid() && Stored() < SLOTS
      modifies store
      ensures h.slot == FirstFree(old(store[..]))
      ensures old(store[h.slot]).None? && forall j | 0 <= j < h.slot :: old(store[j]).Some?
      ensures store[..] == old(store[..])[h.slot := Some(Page.New(id))]
      ensures Stored() == old(Stored()) + 1
      ensures Holds(h) && PageRef(h).id == id
    {
      FreeSlotIffNotFull(store[..]);
      FirstFreeIsLowest(store[..]);
      var i := 0;
      while i < store.Length && store[i].Some?
        invariant 0 <= i <= store.Length
        invariant forall j | 0 <= j < i :: store[j].Some?
      {
        i := i + 1;
      }
      h := Handle(i);
      OccupiedUpdate(store[..], i, Some(Page.New(id)));
      store[i] := Some(Page.New(id));
    }

    /** `Pool::drop_page`: empties the handle's slot and nothing else. */
    method DropPage(h: Handle)
      requires Valid()
      modifies store
      ensures store[..] == old(store[..])[h.slot := None]
      ensures Stored() == old(Stored()) - (if old(Holds(h)) then 1 else 0)
    {
      OccupiedUpdate(store[..], h.slot, None);
      store[h.slot] := None;
    }

    /** `Pool::take_page`: moves the handle's page out of the pool, freeing its slot. */
    method TakePage(h: Handle) returns (p: Page)
      requires Valid() && Holds(h)
      modifies store
      ensures old(store[h.slot]) == Some(p)
      ensures store[..] == old(store[..])[h.slot := None]
      ensures Stored() == old(Stored()) - 1
    {
      p := store[h.slot].value;
      OccupiedUpdate(store[..], h.slot, None);
      store[h.slot] := None;
    }

    /**
     * `Handle::page_mut`: the holder of the handle replaces the contents and
     * the dirty flag of its page; the identity stays.
     */
    method PageMut(h: Handle, p: Page)
      requires Valid() && Holds(h) && p.id == PageRef(h).id
      modifies store
      ensures store[..] == old(store[..])[h.slot := Some(p)]
      ensures Stored() == old(Stored())
    {
      OccupiedUpdate(store[..], h.slot, Some(p));
      store[h.slot] := Some(p);
    }
  }
}
