/** What every call on the futex semaphore answers, under every schedule. */
module FutexCalls {
  import opened Base
  import opened CallLog
  import opened SemaphoreCalls
  import opened FutexSemaphore

  // ------------------------------------------------------------ the log

  /** The call thread `t` begins with a step. */
  function Begins(a: Step, t: nat): Option<Call> {
    if a.t != t then None
    else match a
      case StartAcquire(_) => Some(Acquire)
      case StartTry(_) => Some(TryAcquire)
      case Release(_, n, _) => Some(Releases(n))
      case _ => None
  }

  /** The answer thread `t` gets with a step: a permit by its successful exchange, none
      because a single try reads 0 or loses its one exchange, or its permits handed in,
      which a release does at once. */
  function Answers(s: State, a: Step, t: nat): Option<Answer>
    requires a.t < |s.pcs|
  {
    if a.t != t then None
    else match a
      case CasOk(_) => Some(Got)
      case DoLoad(_) => if s.pcs[t] == Load(Once) && s.permits == 0 then Some(NoPermit) else None
      case CasFail(_) => if s.pcs[t].Cas? && s.pcs[t].path == Once then Some(NoPermit) else None
      case Release(_, n, _) => Some(Added(n))
      case _ => None
  }

  ghost function LogOf(s: State, steps: seq<Step>, end: State, t: nat, log: Log<Call, Answer>): Log<Call, Answer>
    requires Run(s, steps, end)
    decreases steps
  {
    if steps == [] then log
    else LogOf(Apply(s, steps[0]), steps[1..], end, t,
               Extend(log, Begins(steps[0], t), Answers(s, steps[0], t)))
  }

  // ------------------------------------------------------------ one thread

  /** Outside every call, or past the answer: on the way out, waking others, or panicked. */
  predicate Outside(p: Pc) {
    p == Idle || p == Leave || p == Panicked || p.ReadWaiters? || p.WakeAll? || p.WakeOne?
  }

  /** Where a thread with this pending call may be. */
  predicate Tracks(p: Pc, pending: Option<Call>) {
    match pending
    case None => Outside(p)
    case Some(Acquire) =>
      (p.Load? && p.path != Once) || (p.Cas? && p.path != Once)
      || p == Announce || p == Recheck || p == Wait || p == Asleep
    case Some(TryAcquire) => p == Load(Once) || (p.Cas? && p.path == Once)
    case _ => false
  }

  /** Every action takes its thread from one place of its call to the next, and answers the
      call exactly where it ends. */
  lemma ActorTracks(s: State, a: Step, pending: Option<Call>)
    requires Enabled(s, a) && Tracks(s.pcs[a.t], pending)
    ensures |Apply(s, a).pcs| == |s.pcs| && Proper(Fits, pending, Begins(a, a.t), Answers(s, a, a.t))
    ensures Tracks(Apply(s, a).pcs[a.t], Left(pending, Begins(a, a.t), Answers(s, a, a.t)))
  {}

  lemma OthersTrack(s: State, a: Step, t: nat, pending: Option<Call>)
    requires Enabled(s, a) && t < |s.pcs| && t != a.t && Tracks(s.pcs[t], pending)
    ensures |Apply(s, a).pcs| == |s.pcs| && Tracks(Apply(s, a).pcs[t], pending)
  {}

  // ------------------------------------------------------------ every run

  lemma {:induction false} LogIsKept(s: State, steps: seq<Step>, end: State, t: nat, log: Log<Call, Answer>,
                                     pending: Option<Call>)
    returns (left: Option<Call>)
    requires Run(s, steps, end) && t < |s.pcs| && Tracks(s.pcs[t], pending) && Kept(Fits, log, pending)
    ensures t < |end.pcs| && Tracks(end.pcs[t], left) && Kept(Fits, LogOf(s, steps, end, t, log), left)
    decreases steps
  {
    if steps == [] {
      left := pending;
    } else {
      var a := steps[0];
      var call, answer := Begins(a, t), Answers(s, a, t);
      if a.t == t {
        ActorTracks(s, a, pending);
      } else {
        OthersTrack(s, a, t, pending);
      }
      KeptExtends(Fits, log, pending, call, answer);
      left := LogIsKept(Apply(s, a), steps[1..], end, t, Extend(log, call, answer), Left(pending, call, answer));
    }
  }

  /** In every run and for every thread: each call gets exactly one answer, in order, that
      fits it.  So an acquire returns only with a permit of its own. */
  lemma CallsAreAnswered(s: State, steps: seq<Step>, end: State, t: nat) returns (pending: Option<Call>)
    requires Init(s) && Run(s, steps, end) && t < |s.pcs|
    ensures t < |end.pcs| && Kept(Fits, LogOf(s, steps, end, t, Log([], [])), pending)
    ensures Tracks(end.pcs[t], pending) && (pending == None <==> Outside(end.pcs[t]))
  {
    pending := LogIsKept(s, steps, end, t, Log([], []), None);
  }

  // ------------------------------------------------------------ permits

  /** What all the answers of a run add up to. */
  ghost function Total(s: State, steps: seq<Step>, end: State, w: Answer -> nat): nat
    requires Run(s, steps, end)
    decreases steps
  {
    if steps == [] then 0
    else
      var answer := Answers(s, steps[0], steps[0].t);
      (if answer.Some? then w(answer.value) else 0) + Total(Apply(s, steps[0]), steps[1..], end, w)
  }

  lemma AnswersMoveHistory(s: State, a: Step)
    requires Enabled(s, a)
    ensures var answer := Answers(s, a, a.t);
      && Apply(s, a).acquired == s.acquired + (if answer.Some? then Taken(answer.value) else 0)
      && Apply(s, a).released == s.released + (if answer.Some? then HandedIn(answer.value) else 0)
  {}

  lemma {:induction false} HistoriesAreAnswers(s: State, steps: seq<Step>, end: State)
    requires Run(s, steps, end)
    ensures end.acquired == s.acquired + Total(s, steps, end, Taken)
    ensures end.released == s.released + Total(s, steps, end, HandedIn)
    decreases steps
  {
    if steps != [] {
      AnswersMoveHistory(s, steps[0]);
      HistoriesAreAnswers(Apply(s, steps[0]), steps[1..], end);
    }
  }

  /** Permits are what the calls have made of them: in every run whose releases fit when
      called, the permits at hand and those acquires returned with are the initial ones
      and those releases were called with. */
  lemma PermitsFollowAnswers(s: State, steps: seq<Step>, end: State)
    requires Init(s) && Run(s, steps, end) && InLimit(s, steps)
    ensures end.permits + Total(s, steps, end, Taken) == s.permits + Total(s, steps, end, HandedIn)
  {
    HistoriesAreAnswers(s, steps, end);
    NoLostWakeup(s, steps, end);
  }

  // ------------------------------------------------------ looks before sleeping

  /** A thread goes to wait, and to sleep, only on seeing no permit; a release wakes nobody
      if it sees no waiter, everybody if its permits are enough for all, and as many as it
      has permits otherwise. */
  lemma NobodySleepsOnPermits(s: State, a: Step)
    requires Enabled(s, a) && |Apply(s, a).pcs| == |s.pcs|
    ensures Apply(s, a).pcs[a.t] == Wait || Apply(s, a).pcs[a.t] == Asleep ==> s.permits == 0
    ensures a.DoReadWaiters? ==>
              var p, n := Apply(s, a).pcs[a.t], s.pcs[a.t].n;
              && (p == Idle <==> s.waiters == 0)
              && (p == WakeAll(n) <==> 0 < s.waiters <= n)
              && (p == WakeOne(n) <==> n < s.waiters && 0 < s.waiters)
  {}

  /** An idle thread may begin any call; a weak exchange may fail and a sleeper wake at any
      time; the one exchange of a try fails only if the word has changed. */
  lemma NothingIsRuledOut(s: State, t: nat, n: nat, strict: bool)
    requires t < |s.pcs| && n < U32
    ensures s.pcs[t] == Idle ==>
              Enabled(s, StartAcquire(t)) && Enabled(s, StartTry(t)) && Enabled(s, Release(t, n, strict))
    ensures s.pcs[t].Cas? ==> (Enabled(s, CasOk(t)) <==> s.permits == s.pcs[t].cur)
    ensures s.pcs[t].Cas? ==> (Enabled(s, CasFail(t)) <==> s.pcs[t].path != Once || s.permits != s.pcs[t].cur)
    ensures s.pcs[t] == Asleep ==> Enabled(s, SpuriousWake(t))
  {}
}
