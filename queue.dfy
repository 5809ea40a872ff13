/**
 * Bounded single-producer/single-consumer FIFO channels. A
 * `heapless::spsc::Queue<T, N>` keeps one slot free and holds at most `N - 1`
 * items; enqueueing onto a full queue fails.
 */
module Queues {
  import opened Options

  class Queue<T> {
    var items: seq<T>
    const capacity: nat

    /** A queue never holds more items than its capacity. */
    ghost predicate Valid()
      reads this
    {
      |items| <= capacity
    }

    /** A queue declared with `slots` slots, empty. */
    constructor (slots: nat)
      requires slots >= 1
      ensures Valid() && items == [] && capacity == slots - 1
    {
      items := [];
      capacity := slots - 1;
    }

    /** Appends `x` at the tail unless the queue is full; reports whether it did. */
    method Enqueue(x: T) returns (ok: bool)
      requires Valid()
      modifies this
      ensures Valid()
      ensures ok == (|old(items)| < capacity)
      ensures items == if ok then old(items) + [x] else old(items)
    {
      ok := |items| < capacity;
      if ok {
        items := items + [x];
      }
    }

    /** Removes and returns the head, or `None` when the queue is empty. */
    method Dequeue() returns (r: Option<T>)
      requires Valid()
      modifies this
      ensures Valid()
      ensures old(items) == [] ==> r == None && items == []
      ensures old(items) != [] ==> r == Some(old(items)[0]) && items == old(items)[1..]
    {
      if items == [] {
        r := None;
      } else {
        r := Some(items[0]);
        items := items[1..];
      }
    }
  }
}
