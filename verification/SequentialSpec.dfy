/** What one call of the blocking-queue interface does when no other thread is
    around: the result and the new contents.  Both implementations are proved
    against this specification. */
module SequentialSpec {
  import opened Base

  datatype Queue<T> = Queue(capacity: nat, items: seq<T>, disposed: bool)

  /** `PushFor` and `PopFor` are the timed variants; alone, their timeout expires. */
  datatype Call<+T> =
    | Push(x: T) | TryPush(x: T) | PushFor(x: T)
    | Pop | TryPop | PopFor
    | Drain | Dispose | Size | IsDisposed

  /** `Blocks`: the call waits, and nobody is there to end the wait. */
  datatype Outcome<+T> =
    | Done
    | Item(x: T)
    | Items(xs: seq<T>)
    | Number(n: nat)
    | Truth(b: bool)
    | Refused(err: HioError, item: T)
    | Error(err: HioError)
    | Blocks

  function DoPush<T>(q: Queue<T>, x: T, ifFull: Outcome<T>): (Queue<T>, Outcome<T>) {
    if q.disposed then (q, Refused(ResourceUnavailable, x))
    else if |q.items| >= q.capacity then (q, ifFull)
    else (q.(items := q.items + [x]), Done)
  }

  function DoPop<T>(q: Queue<T>, ifEmpty: Outcome<T>): (Queue<T>, Outcome<T>) {
    if q.items != [] then (q.(items := q.items[1..]), Item(q.items[0]))
    else if q.disposed then (q, Error(ResourceUnavailable))
    else (q, ifEmpty)
  }

  function Perform<T>(q: Queue<T>, call: Call<T>): (Queue<T>, Outcome<T>) {
    match call
    case Push(x) => DoPush(q, x, Blocks)
    case TryPush(x) => DoPush(q, x, Refused(WouldBlock, x))
    case PushFor(x) => DoPush(q, x, Refused(Timeout, x))
    case Pop => DoPop(q, Blocks)
    case TryPop => DoPop(q, Error(WouldBlock))
    case PopFor => DoPop(q, Error(Timeout))
    case Drain => (q.(items := []), Items(q.items))
    case Dispose => (q.(disposed := true), Done)
    case Size => (q, Number(|q.items|))
    case IsDisposed => (q, Truth(q.disposed))
  }

  // ---------------------------------------------- what each call promises

  /** A push on an open queue with room puts the item behind the others; otherwise nothing
      changes and the item comes back, with the reason. */
  lemma PushPromises<T>(q: Queue<T>, call: Call<T>)
    requires call.Push? || call.TryPush? || call.PushFor?
    ensures var (q', o) := Perform(q, call);
      && (o.Done? <==> !q.disposed && |q.items| < q.capacity)
      && (o.Done? ==> q' == Queue(q.capacity, q.items + [call.x], false))
      && (!o.Done? ==> q' == q && (o == Refused(ResourceUnavailable, call.x) <==> q.disposed))
      && (!o.Done? && !q.disposed ==>
            o == if call.TryPush? then Refused(WouldBlock, call.x) else if call.PushFor? then Refused(Timeout, call.x)
                 else Blocks)
  {}

  /** A pop on a queue that is not empty, disposed or not, delivers the oldest item;
      otherwise nothing changes and the reason is given. */
  lemma PopPromises<T>(q: Queue<T>, call: Call<T>)
    requires call.Pop? || call.TryPop? || call.PopFor?
    ensures var (q', o) := Perform(q, call);
      && (o.Item? <==> q.items != [])
      && (o.Item? ==> q.items == [o.x] + q'.items && q'.disposed == q.disposed && q'.capacity == q.capacity)
      && (!o.Item? ==> q' == q && (o == Error(ResourceUnavailable) <==> q.disposed))
      && (!o.Item? && !q.disposed ==>
            o == if call.TryPop? then Error(WouldBlock) else if call.PopFor? then Error(Timeout) else Blocks)
  {}

  lemma QueryPromises<T>(q: Queue<T>)
    ensures Perform(q, Size) == (q, Number(|q.items|)) && Perform(q, IsDisposed) == (q, Truth(q.disposed))
    ensures Perform(q, Dispose) == (Queue(q.capacity, q.items, true), Done)
  {}

  function RunCalls<T>(q: Queue<T>, calls: seq<Call<T>>): (Queue<T>, seq<Outcome<T>>)
    decreases calls
  {
    if calls == [] then (q, [])
    else
      var (q1, o) := Perform(q, calls[0]);
      var (q2, os) := RunCalls(q1, calls[1..]);
      (q2, [o] + os)
  }

  lemma {:induction false} RunCallsAppend<T>(q: Queue<T>, calls: seq<Call<T>>, call: Call<T>)
    ensures var before := RunCalls(q, calls);
            var last := Perform(before.0, call);
            RunCalls(q, calls + [call]) == (last.0, before.1 + [last.1])
    decreases calls
  {
    if calls == [] {
      var last := Perform(q, call);
      assert [] + [call] == [call] && [call][1..] == [];
      assert RunCalls(last.0, []) == (last.0, []);
      assert RunCalls(q, [call]) == (last.0, [last.1] + []);
      assert [last.1] + [] == [] + [last.1];
    } else {
      var first := Perform(q, calls[0]);
      var rest := RunCalls(first.0, calls[1..]);
      var last := Perform(rest.0, call);
      assert (calls + [call])[1..] == calls[1..] + [call];
      RunCallsAppend(first.0, calls[1..], call);
      assert [first.1] + (rest.1 + [last.1]) == ([first.1] + rest.1) + [last.1];
    }
  }

  /** Items one call takes in and gives out. */
  function TakenBy<T>(call: Call<T>, o: Outcome<T>): seq<T> {
    if (call.Push? || call.TryPush? || call.PushFor?) && o.Done? then [call.x] else []
  }

  function GivenBy<T>(o: Outcome<T>): seq<T> {
    if o.Item? then [o.x] else if o.Items? then o.xs else []
  }

  function Taken<T>(calls: seq<Call<T>>, os: seq<Outcome<T>>): seq<T>
    requires |calls| == |os|
  {
    if calls == [] then [] else TakenBy(calls[0], os[0]) + Taken(calls[1..], os[1..])
  }

  function Given<T>(os: seq<Outcome<T>>): seq<T> {
    if os == [] then [] else GivenBy(os[0]) + Given(os[1..])
  }

  lemma CallFifo<T>(q: Queue<T>, call: Call<T>)
    ensures var r := Perform(q, call); q.items + TakenBy(call, r.1) == GivenBy(r.1) + r.0.items
    ensures |q.items| <= q.capacity ==> |Perform(q, call).0.items| <= q.capacity
    ensures Perform(q, call).0.capacity == q.capacity
  {}

  function Pops<T>(n: nat): seq<Call<T>> {
    if n == 0 then [] else [TryPop] + Pops(n - 1)
  }

  /** A drain is as good as popping until nothing is left: the same items in the same order,
      and the same queue behind it. */
  lemma {:induction false} DrainIsAllPops<T>(q: Queue<T>)
    ensures var drained, popped := Perform(q, Drain), RunCalls(q, Pops(|q.items|));
      drained.1.Items? && drained.1.xs == Given(popped.1) && drained.0 == popped.0 && drained.0.items == []
    decreases |q.items|
  {
    if q.items != [] {
      var q1 := q.(items := q.items[1..]);
      assert Pops<T>(|q.items|) == [TryPop] + Pops(|q1.items|);
      assert ([TryPop] + Pops<T>(|q1.items|))[1..] == Pops(|q1.items|);
      DrainIsAllPops(q1);
      var popped := RunCalls(q1, Pops(|q1.items|));
      assert ([Item(q.items[0])] + popped.1)[1..] == popped.1;
      assert q.items == [q.items[0]] + q1.items;
    }
  }

  lemma CallThenRest<T>(a: seq<T>, b: seq<T>, c: seq<T>, d: seq<T>, e: seq<T>, f: seq<T>, g: seq<T>)
    requires a + b == c + d && d + e == f + g
    ensures a + (b + e) == (c + f) + g
  {
    assert a + (b + e) == (a + b) + e;
    assert (c + d) + e == c + (d + e);
    assert c + (f + g) == (c + f) + g;
  }

  /** First in, first out over every sequence of calls, within the capacity. */
  lemma {:induction false} SequentialFifo<T>(q: Queue<T>, calls: seq<Call<T>>)
    ensures |RunCalls(q, calls).1| == |calls|
    ensures var r := RunCalls(q, calls); q.items + Taken(calls, r.1) == Given(r.1) + r.0.items
    ensures |q.items| <= q.capacity ==> |RunCalls(q, calls).0.items| <= q.capacity
    decreases calls
  {
    if calls == [] {
      assert q.items + [] == [] + q.items;
    } else {
      var first := Perform(q, calls[0]);
      var rest := RunCalls(first.0, calls[1..]);
      CallFifo(q, calls[0]);
      SequentialFifo(first.0, calls[1..]);
      assert ([first.1] + rest.1)[1..] == rest.1;
      CallThenRest(q.items, TakenBy(calls[0], first.1), GivenBy(first.1), first.0.items,
              Taken(calls[1..], rest.1), Given(rest.1), rest.0.items);
    }
  }
}
