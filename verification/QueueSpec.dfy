/** The bounded blocking queue as its users see it: an atomic FIFO.  The step
    machines of both implementations are proved to refine this specification,
    and the thread pool is proved on top of it. */
module QueueSpec {
  import opened Base
  import opened QueueOps

  /** `closed` means that no further item can be accepted.  `accepted` and
      `delivered` are the histories in the order the items took effect. */
  datatype Queue<T> = Queue(
    capacity: nat, items: seq<T>, disposed: bool, closed: bool,
    accepted: seq<T>, delivered: seq<T>)

  datatype Event<T> =
    | Quiet              // nothing a user can see
    | Accept(item: T)    // a push takes effect
    | Deliver(out: seq<T>) // a pop (one item) or a drain takes effect
    | Dispose            // the winning compare-and-swap of dispose
    | Refuse             // a pop reports that the queue is unavailable
    | SeeEmpty           // a pop that gives up for now, or times out, finds the queue empty
    | HandBack(err: HioError, item: T) // a push fails and returns its item

  /** What each error of a push says about the queue. */
  predicate Justified<T(==)>(a: Queue<T>, err: HioError) {
    match err
    case ResourceUnavailable => a.disposed
    case WouldBlock => |a.items| >= a.capacity
    case Timeout => |a.items| >= a.capacity
    case _ => false
  }

  /** What the caller of a failing operation is told. */
  function Announced<T>(op: Op<T>, err: HioError): Event<T> {
    if op.PushOp? then HandBack(err, op.item)
    else if err == ResourceUnavailable then Refuse
    else SeeEmpty
  }

  ghost predicate Next<T>(a: Queue<T>, e: Event<T>, b: Queue<T>) {
    && b.capacity == a.capacity
    && (a.closed ==> b.closed)
    && (b.closed ==> b.disposed)
    && b.disposed == (a.disposed || e.Dispose?)
    && match e {
         case Accept(x) =>
           !a.closed && |a.items| < a.capacity &&
           b.items == a.items + [x] && b.accepted == a.accepted + [x] && b.delivered == a.delivered
         case Deliver(out) =>
           out <= a.items && b.items == a.items[|out|..] &&
           b.accepted == a.accepted && b.delivered == a.delivered + out
         case _ =>
           (e.Refuse? ==> a.disposed && a.items == []) &&
           (e.SeeEmpty? ==> a.items == []) &&
           (e.HandBack? ==> Justified(a, e.err)) &&
           b.items == a.items && b.accepted == a.accepted && b.delivered == a.delivered
       }
  }

  ghost predicate Sound<T>(a: Queue<T>) {
    && |a.items| <= a.capacity
    && a.accepted == a.delivered + a.items
    && (a.closed ==> a.disposed)
  }

  ghost predicate Trace<T>(qs: seq<Queue<T>>, es: seq<Event<T>>) {
    && |qs| == |es| + 1
    && forall i :: 0 <= i < |es| ==> Next(qs[i], es[i], qs[i + 1])
  }

  lemma TracePrepend<T>(q: Queue<T>, e: Event<T>, qs: seq<Queue<T>>, es: seq<Event<T>>)
    requires Trace(qs, es) && Next(q, e, qs[0])
    ensures Trace([q] + qs, [e] + es)
  {
    forall i | 0 <= i < |es| + 1 ensures Next(([q] + qs)[i], ([e] + es)[i], ([q] + qs)[i + 1]) {
      if i > 0 {
        assert Next(qs[i - 1], es[i - 1], qs[i]);
      }
    }
  }

  lemma StepSound<T>(a: Queue<T>, e: Event<T>, b: Queue<T>)
    requires Sound(a) && Next(a, e, b)
    ensures Sound(b)
  {
    if e.Deliver? {
      assert a.items == e.out + a.items[|e.out|..];
    }
  }

  /** First in, first out, nothing lost, nothing duplicated: at every instant the
      accepted items are the delivered ones followed by the queue's contents. */
  lemma {:induction false} FifoConservation<T>(qs: seq<Queue<T>>, es: seq<Event<T>>, i: nat)
    requires Trace(qs, es) && Sound(qs[0]) && i < |qs|
    ensures Sound(qs[i])
  {
    if i > 0 {
      FifoConservation(qs, es, i - 1);
      StepSound(qs[i - 1], es[i - 1], qs[i]);
    }
  }

  /** Once closed, the accepted set is frozen. */
  lemma {:induction false} ClosedFreezes<T>(qs: seq<Queue<T>>, es: seq<Event<T>>, i: nat, j: nat)
    requires Trace(qs, es) && i <= j < |qs| && qs[i].closed
    ensures qs[j].closed && qs[j].accepted == qs[i].accepted
  {
    if i < j {
      ClosedFreezes(qs, es, i, j - 1);
    }
  }

  /** A refusal on a closed queue is final: every accepted item has been delivered, in
      order, and the queue stays empty. */
  lemma RefusalIsFinal<T>(qs: seq<Queue<T>>, es: seq<Event<T>>, i: nat, j: nat)
    requires Trace(qs, es) && Sound(qs[0]) && i < |es| && i <= j < |qs|
    requires qs[i].closed && es[i].Refuse?
    ensures qs[j].items == [] && qs[j].accepted == qs[i].accepted && qs[j].delivered == qs[j].accepted
  {
    FifoConservation(qs, es, i);
    FifoConservation(qs, es, j);
    ClosedFreezes(qs, es, i, j);
    DeliveredGrows(qs, es, i, j);
    assert Next(qs[i], es[i], qs[i + 1]);
    assert |qs[j].accepted| == |qs[j].delivered| + |qs[j].items|;
  }

  lemma {:induction false} DeliveredGrows<T>(qs: seq<Queue<T>>, es: seq<Event<T>>, i: nat, j: nat)
    requires Trace(qs, es) && i <= j < |qs|
    ensures qs[i].delivered <= qs[j].delivered
  {
    if i < j {
      DeliveredGrows(qs, es, i, j - 1);
      assert Next(qs[j - 1], es[j - 1], qs[j]);
    }
  }
}
