/** The two implementations of the queue cannot be told apart by one thread: on
    every sequence of calls they return the same results and end with the same
    contents. */
module Comparison {
  import opened SequentialSpec
  import LinkedQueue
  import ArrayQueue

  method RunLinked<T>(q: LinkedQueue.LinkedBQ<T>, calls: seq<Call<T>>) returns (os: seq<Outcome<T>>)
    requires q.Settled()
    modifies q, q.nodes
    ensures q.Settled() && (q.Contents(), os) == RunCalls(old(q.Contents()), calls)
  {
    os := [];
    for k := 0 to |calls|
      invariant q.Settled() && q.Grows()
      invariant (q.Contents(), os) == RunCalls(old(q.Contents()), calls[..k])
    {
      RunCallsAppend(old(q.Contents()), calls[..k], calls[k]);
      assert calls[..k + 1] == calls[..k] + [calls[k]];
      var o := q.Call(calls[k]);
      os := os + [o];
    }
    assert calls[..|calls|] == calls;
  }

  method RunArray<T>(q: ArrayQueue.ArrayBQ<T>, calls: seq<Call<T>>) returns (os: seq<Outcome<T>>)
    requires q.Settled()
    modifies q
    ensures q.Settled() && (q.Contents(), os) == RunCalls(old(q.Contents()), calls)
  {
    os := [];
    for k := 0 to |calls|
      invariant q.Settled()
      invariant (q.Contents(), os) == RunCalls(old(q.Contents()), calls[..k])
    {
      RunCallsAppend(old(q.Contents()), calls[..k], calls[k]);
      assert calls[..k + 1] == calls[..k] + [calls[k]];
      var o := q.Call(calls[k]);
      os := os + [o];
    }
    assert calls[..|calls|] == calls;
  }

  /** Fresh queues of the same capacity, the same calls: the same results, and every
      item comes out in the order it went in. */
  method RunBoth<T>(capacity: nat, calls: seq<Call<T>>) returns (linked: seq<Outcome<T>>, arrayed: seq<Outcome<T>>)
    ensures linked == arrayed && |linked| == |calls|
    ensures Given(linked) <= Taken(calls, linked)
  {
    var l := new LinkedQueue.LinkedBQ<T>(capacity);
    var a := new ArrayQueue.ArrayBQ<T>(capacity);
    ghost var start := l.Contents();
    linked := RunLinked(l, calls);
    arrayed := RunArray(a, calls);
    SequentialFifo(start, calls);
    assert start.items + Taken(calls, linked) == Taken(calls, linked);
  }
}
