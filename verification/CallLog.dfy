/** Calls and their answers.  Each machine of this project keeps, for every thread, a log
    of the calls it has begun and the answers they got, read off the steps of a run. */
module CallLog {
  import opened Base

  datatype Log<+C, +A> = Log(begun: seq<C>, answers: seq<A>)

  /** One step: a call may begin, and a call may be answered. */
  function Extend<C, A>(log: Log<C, A>, call: Option<C>, answer: Option<A>): Log<C, A> {
    Log(log.begun + (if call.Some? then [call.value] else []),
        log.answers + (if answer.Some? then [answer.value] else []))
  }

  /** Calls are answered one by one, each with an answer that fits it; only the last one
      may still be pending. */
  ghost predicate Kept<C, A>(fits: (C, A) -> bool, log: Log<C, A>, pending: Option<C>) {
    && |log.begun| == |log.answers| + (if pending.Some? then 1 else 0)
    && (pending.Some? ==> log.begun[|log.answers|] == pending.value)
    && forall k :: 0 <= k < |log.answers| ==> fits(log.begun[k], log.answers[k])
  }

  /** The call a thread is inside of once `call` may have begun. */
  function Current<C>(pending: Option<C>, call: Option<C>): Option<C> {
    if call.Some? then call else pending
  }

  function Left<C, A>(pending: Option<C>, call: Option<C>, answer: Option<A>): Option<C> {
    if answer.Some? then None else Current(pending, call)
  }

  /** No call begins inside another, and an answer fits the call it is given to. */
  ghost predicate Proper<C, A>(fits: (C, A) -> bool, pending: Option<C>, call: Option<C>, answer: Option<A>) {
    && (call.Some? ==> pending.None?)
    && (answer.Some? ==> Current(pending, call).Some? && fits(Current(pending, call).value, answer.value))
  }

  lemma KeptExtends<C, A>(fits: (C, A) -> bool, log: Log<C, A>, pending: Option<C>,
                          call: Option<C>, answer: Option<A>)
    requires Kept(fits, log, pending) && Proper(fits, pending, call, answer)
    ensures Kept(fits, Extend(log, call, answer), Left(pending, call, answer))
  {
    var next := Extend(log, call, answer);
    forall k | 0 <= k < |next.answers| ensures fits(next.begun[k], next.answers[k]) {
      if k < |log.answers| {
        assert fits(log.begun[k], log.answers[k]);
      }
    }
  }
}

/** The calls of the queue interface and what they may answer. */
module QueueCalls {
  import opened Base
  import opened QueueOps

  datatype Call<+T> = Does(op: Op<T>) | Drains

  datatype Answer<+T> =
    | Accepted(x: T)
    | Delivered(x: T)
    | Drained(out: seq<T>)
    | Failure(err: HioError, item: Option<T>)

  /** Only a try call may say that it would block, only a timed one that its time is up. */
  predicate ErrorFits<T>(op: Op<T>, err: HioError) {
    err == ResourceUnavailable || (err == WouldBlock && op.mode == Try) || (err == Timeout && op.mode == Timed)
  }

  /** A push is accepted with its own item or fails and gives it back; a pop delivers one
      item or fails; a drain always answers. */
  ghost predicate Fits<T>(call: Call<T>, answer: Answer<T>) {
    match answer
    case Accepted(x) => call.Does? && call.op.PushOp? && call.op.item == x
    case Delivered(_) => call.Does? && call.op.PopOp?
    case Drained(_) => call.Drains?
    case Failure(err, item) => call.Does? && ErrorFits(call.op, err) && item == Offer(call.op)
  }

  function AcceptedItems<T>(answer: Option<Answer<T>>): seq<T> {
    if answer.Some? && answer.value.Accepted? then [answer.value.x] else []
  }

  function DeliveredItems<T>(answer: Option<Answer<T>>): seq<T> {
    if answer.Some? && answer.value.Delivered? then [answer.value.x]
    else if answer.Some? && answer.value.Drained? then answer.value.out
    else []
  }
}

/** The calls on a semaphore and what they may answer. */
module SemaphoreCalls {

  /** `AcquireFor` has a deadline. */
  datatype Call = Acquire | TryAcquire | AcquireFor | Releases(n: nat)

  datatype Answer = Got | NoPermit | TimedOut | Added(n: nat)

  /** An acquire without a deadline comes back with a permit and in no other way; a release
      hands in what it was called with. */
  predicate Fits(call: Call, answer: Answer) {
    match answer
    case Got => !call.Releases?
    case NoPermit => call.TryAcquire?
    case TimedOut => call.AcquireFor?
    case Added(n) => call == Releases(n)
  }

  function Taken(answer: Answer): nat {
    if answer.Got? then 1 else 0
  }

  function HandedIn(answer: Answer): nat {
    if answer.Added? then answer.n else 0
  }
}
