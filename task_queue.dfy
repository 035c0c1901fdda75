/**
 * `ThreadSafeQueue<T>` of soldier_w_threadpool.cpp, sequential view: the
 * mutex and condition variable are left out, which leaves a FIFO queue over
 * a `std::queue<T>`, modelled as a sequence whose front is index 0.
 */
module TaskQueue {

  class ThreadSafeQueue<T> {
    /** The wrapped `std::queue`, oldest item first. */
    var items: seq<T>

    constructor ()
      ensures items == []
    {
      items := [];
    }

    /** `push(item)`: append at the back. */
    method Push(item: T)
      modifies this
      ensures items == old(items) + [item]
    {
      items := items + [item];
    }

    /**
     * `pop()`: remove and return the oldest item.  `ThreadSafeQueue::pop` blocks on an
     * empty queue until a push arrives; in the sequential view that wait is the
     * precondition (the pool's worker pops only after seeing the queue non-empty).
     */
    method Pop() returns (item: T)
      requires items != []
      modifies this
      ensures item == old(items)[0]
      ensures items == old(items)[1..]
      ensures [item] + items == old(items)
    {
      item := items[0];
      items := items[1..];
    }

    /** `empty()`: whether no item is queued; changes nothing. */
    method Empty() returns (b: bool)
      ensures b <==> |items| == 0
    {
      b := |items| == 0;
    }
  }

  /**
   * Items pushed into an empty queue come out in the order they went in: push
   * every item of `s`, then pop while the queue is not empty.
   */
  method FifoOrder<T>(s: seq<T>) returns (out: seq<T>)
    ensures out == s
  {
    var q := new ThreadSafeQueue<T>();
    var i := 0;
    while i < |s|
      invariant 0 <= i <= |s|
      invariant q.items == s[..i]
    {
      assert s[..i + 1] == s[..i] + [s[i]];
      q.Push(s[i]);
      i := i + 1;
    }
    out := [];
    var done := q.Empty();
    while !done
      invariant |out| <= |s|
      invariant out + q.items == s
      invariant done <==> q.items == []
      decreases |q.items|
    {
      var item := q.Pop();
      out := out + [item];
      done := q.Empty();
    }
  }
}
