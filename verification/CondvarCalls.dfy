/** What every call on the condvar semaphore answers, under every schedule. */
module CondvarCalls {
  import opened Base
  import opened CallLog
  import opened SemaphoreCalls
  import opened CondvarSemaphore

  // ------------------------------------------------------------ the log

  /** The call thread `t` begins with a step. */
  function Begins(a: Step, t: nat): Option<Call> {
    if a.t != t then None
    else match a
      case Start(_, path) =>
        Some(match path {
          case Fast => Acquire
          case Once => TryAcquire
          case Slow(timed) => if timed then AcquireFor else Acquire
        })
      case StartRelease(_, n) => Some(Releases(n))
      case _ => None
  }

  /** The answer thread `t` gets with a step: a permit by its successful exchange, none
      because a single try reads 0, none because its deadline has passed, or its permits
      handed in by the releasing exchange. */
  function Answers(s: State, a: Step, t: nat): Option<Answer>
    requires a.t < |s.pcs|
  {
    if a.t != t then None
    else match a
      case CasOk(_) => Some(Got)
      case DoLoad(_) => if s.pcs[t] == Load(Once) && s.permits == 0 then Some(NoPermit) else None
      case CasFail(_) =>
        if s.pcs[t].Cas? && s.pcs[t].path == Once && s.permits == 0 then Some(NoPermit) else None
      case CheckDeadline(_, expired) => if expired then Some(TimedOut) else None
      case Add(_) => if s.pcs[t].RelCas? then Some(Added(s.pcs[t].n)) else None
      case _ => None
  }

  ghost function LogOf(s: State, steps: seq<Step>, end: State, t: nat, log: Log<Call, Answer>): Log<Call, Answer>
    requires Run(s, steps, end)
    decreases steps
  {
    if steps == [] then log
    else LogOf(Apply(s, steps[0]), steps[1..], end, t,
               Extend(log, Begins(steps[0], t), Answers(s, steps[0], t)))
  }

  // ------------------------------------------------------------ one thread

  /** Outside every call, or past the answer: on the way out, or waking others. */
  predicate Outside(p: Pc) {
    p == Idle || p == Returning || p == Leave
    || p.RelWaiters? || p.RelLock? || p.RelHeld? || p.RelNotify?
  }

  /** Inside an acquire, on its fast path or in its loop with or without a deadline. */
  predicate InAcquire(p: Pc, timed: bool) {
    match p
    case Load(path) => path == Slow(timed) || (path == Fast && !timed)
    case Cas(path, _) => path == Slow(timed) || (path == Fast && !timed)
    case Announce(td) => td == timed
    case LockWait(td) => td == timed
    case Missed(td) => td == timed
    case Recheck(td) => td == timed
    case Spin(td) => td == timed
    case Sleep(td) => td == timed
    case Asleep(td) => td == timed
    case _ => false
  }

  /** Where a thread with this pending call may be. */
  predicate Tracks(p: Pc, pending: Option<Call>) {
    match pending
    case None => Outside(p)
    case Some(Acquire) => InAcquire(p, false)
    case Some(AcquireFor) => InAcquire(p, true)
    case Some(TryAcquire) => p == Load(Once) || (p.Cas? && p.path == Once)
    case Some(Releases(n)) => p == RelLoad(n) || (p.RelCas? && p.n == n)
  }

  /** Every action takes its thread from one place of its call to the next, and answers the
      call exactly where it ends. */
  lemma ActorTracks(s: State, a: Step, pending: Option<Call>)
    requires Enabled(s, a) && Tracks(s.pcs[a.t], pending)
    ensures |Apply(s, a).pcs| == |s.pcs| && Proper(Fits, pending, Begins(a, a.t), Answers(s, a, a.t))
    ensures Tracks(Apply(s, a).pcs[a.t], Left(pending, Begins(a, a.t), Answers(s, a, a.t)))
  {}

  lemma OthersTrack(s: State, a: Step, t: nat, pending: Option<Call>)
    requires Enabled(s, a) && t < |s.pcs| && t != a.t && Tracks(s.pcs[t], pending)
    ensures |Apply(s, a).pcs| == |s.pcs| && Tracks(Apply(s, a).pcs[t], pending)
  {}

  // ------------------------------------------------------------ every run

  lemma {:induction false} LogIsKept(s: State, steps: seq<Step>, end: State, t: nat, log: Log<Call, Answer>,
                                     pending: Option<Call>)
    returns (left: Option<Call>)
    requires Run(s, steps, end) && t < |s.pcs| && Tracks(s.pcs[t], pending) && Kept(Fits, log, pending)
    ensures t < |end.pcs| && Tracks(end.pcs[t], left) && Kept(Fits, LogOf(s, steps, end, t, log), left)
    decreases steps
  {
    if steps == [] {
      left := pending;
    } else {
      var a := steps[0];
      var call, answer := Begins(a, t), Answers(s, a, t);
      if a.t == t {
        ActorTracks(s, a, pending);
      } else {
        OthersTrack(s, a, t, pending);
      }
      KeptExtends(Fits, log, pending, call, answer);
      left := LogIsKept(Apply(s, a), steps[1..], end, t, Extend(log, call, answer), Left(pending, call, answer));
    }
  }

  /** In every run and for every thread: each call gets exactly one answer, in order, that
      fits it.  So an acquire without a deadline returns only with a permit, and one with a
      deadline returns without only once the deadline has passed. */
  lemma CallsAreAnswered(s: State, steps: seq<Step>, end: State, t: nat) returns (pending: Option<Call>)
    requires Init(s) && Run(s, steps, end) && t < |s.pcs|
    ensures t < |end.pcs| && Kept(Fits, LogOf(s, steps, end, t, Log([], [])), pending)
    ensures Tracks(end.pcs[t], pending) && (pending == None <==> Outside(end.pcs[t]))
  {
    pending := LogIsKept(s, steps, end, t, Log([], []), None);
  }

  // ------------------------------------------------------------ permits

  /** What all the answers of a run add up to. */
  ghost function Total(s: State, steps: seq<Step>, end: State, w: Answer -> nat): nat
    requires Run(s, steps, end)
    decreases steps
  {
    if steps == [] then 0
    else
      var answer := Answers(s, steps[0], steps[0].t);
      (if answer.Some? then w(answer.value) else 0) + Total(Apply(s, steps[0]), steps[1..], end, w)
  }

  lemma AnswersMoveHistory(s: State, a: Step)
    requires Enabled(s, a)
    ensures var answer := Answers(s, a, a.t);
      && Apply(s, a).acquired == s.acquired + (if answer.Some? then Taken(answer.value) else 0)
      && Apply(s, a).released == s.released + (if answer.Some? then HandedIn(answer.value) else 0)
  {}

  lemma {:induction false} HistoriesAreAnswers(s: State, steps: seq<Step>, end: State)
    requires Run(s, steps, end)
    ensures end.acquired == s.acquired + Total(s, steps, end, Taken)
    ensures end.released == s.released + Total(s, steps, end, HandedIn)
    decreases steps
  {
    if steps != [] {
      AnswersMoveHistory(s, steps[0]);
      HistoriesAreAnswers(Apply(s, steps[0]), steps[1..], end);
    }
  }

  /** Permits are what the calls have made of them: in every run the permits at hand and
      those acquires returned with are at most the initial ones and those releases were
      called with, and exactly those if no addition saturated. */
  lemma PermitsFollowAnswers(s: State, steps: seq<Step>, end: State)
    requires Init(s) && Run(s, steps, end)
    ensures end.permits + Total(s, steps, end, Taken) <= s.permits + Total(s, steps, end, HandedIn)
    ensures end.permits + Total(s, steps, end, Taken) == s.permits + Total(s, steps, end, HandedIn) <==> !end.saturated
  {
    HistoriesAreAnswers(s, steps, end);
    PermitsConserved(s, steps, end);
  }

  // ------------------------------------------------------ looks before sleeping

  /** A thread makes up its mind to sleep only on seeing no permit, and a release that sees
      no waiter leaves the mutex alone. */
  lemma NobodySleepsOnPermits(s: State, a: Step)
    requires Enabled(s, a) && |Apply(s, a).pcs| == |s.pcs|
    ensures Apply(s, a).pcs[a.t].Sleep? ==> s.permits == 0
    ensures Apply(s, a).pcs[a.t].Asleep? ==> s.pcs[a.t].Sleep?
    ensures a.ReadWaiters? ==> (Apply(s, a).pcs[a.t].RelLock? <==> s.waiters > 0)
  {}

  /** An idle thread may begin any call; an exchange may fail, a sleeper wake and a deadline
      pass at any time. */
  lemma NothingIsRuledOut(s: State, t: nat, path: Path, n: nat)
    requires t < |s.pcs| && 0 < n <= U32_MAX
    ensures s.pcs[t] == Idle ==> Enabled(s, Start(t, path)) && Enabled(s, StartRelease(t, n))
    ensures s.pcs[t].Cas? ==> Enabled(s, CasFail(t)) && (Enabled(s, CasOk(t)) <==> s.permits == s.pcs[t].cur)
    ensures s.pcs[t].RelCas? ==> Enabled(s, AddFail(t)) && (Enabled(s, Add(t)) <==> s.permits == s.pcs[t].cur)
    ensures s.pcs[t].Asleep? ==> Enabled(s, Awaken(t))
    ensures s.pcs[t].Missed? ==>
              Enabled(s, CheckDeadline(t, false)) && (Enabled(s, CheckDeadline(t, true)) <==> s.pcs[t].timed)
  {}
}
