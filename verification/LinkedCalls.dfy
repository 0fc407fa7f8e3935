/** What every call on the linked queue answers, under every schedule. */
module LinkedCalls {
  import opened Base
  import opened QueueOps
  import opened QueueCalls
  import opened CallLog
  import opened LinkedMachine
  import opened LinkedInvariant
  import opened LinkedTheorems

  // ------------------------------------------------------------ the log

  /** The call thread `t` begins with a step. */
  function Begins<T>(a: Step<T>, t: nat): Option<Call<T>> {
    if a.t != t then None
    else match a
      case Begin(_, op) => Some(Does(op))
      case BeginDrain(_) => Some(Drains)
      case _ => None
  }

  /** The answer thread `t` gets with a step: what the queue accepts from it or delivers to
      it, or the error it returns. */
  function Answers<T>(s: State<T>, a: Step<T>, t: nat): Option<Answer<T>>
    requires a.t < |s.pcs|
  {
    if a.t != t then None
    else match EventOf(s, a)
      case Accept(x) => Some(Accepted(x))
      case Deliver(out) => if a.DoSub? && out != [] then Some(Delivered(out[0])) else Some(Drained(out))
      case _ =>
        if a.DoFail? && s.pcs[t].Fail? then Some(Failure(s.pcs[t].err, Offer(s.pcs[t].op))) else None
  }

  ghost function LogOf<T>(s: State<T>, steps: seq<Step<T>>, end: State<T>, t: nat, log: Log<Call<T>, Answer<T>>)
    : Log<Call<T>, Answer<T>>
    requires Run(s, steps, end)
    decreases steps
  {
    if steps == [] then log
    else LogOf(Apply(s, steps[0]), steps[1..], end, t,
               Extend(log, Begins(steps[0], t), Answers(s, steps[0], t)))
  }

  // ------------------------------------------------------------ one thread

  /** Outside every call, or past the answer and only notifying. */
  predicate Outside<T>(p: Pc<T>) {
    p.Idle? || p.Cascade? || p.SigLock? || p.SigHeld? || (p.Unlock? && (p.next.Idle? || p.next.SigLock?))
  }

  predicate InDrain<T>(p: Pc<T>) {
    p.DrainLock? || p.DrainLoad? || p.Draining? || p.DrainFree?
  }

  /** Inside the call of `op`; a try call never waits. */
  ghost predicate InCall<T>(p: Pc<T>, op: Op<T>) {
    match p
    case Lock(o) => o == op
    case Test(o) => o == op && op != PopOp(Try)
    case TestCount(o) => o == op
    case Pred(o) => o == op && op.mode != Try
    case PredCount(o) => o == op && op.mode != Try
    case GoSleep(o) => o == op && op.mode != Try
    case Asleep(o) => o == op && op.mode != Try
    case Relock(o) => o == op && op.mode != Try
    case Decide(o) => o == op && op.mode != Try
    case ReadKind(o) => o == op == PopOp(Try)
    case Fail(o, err) => o == op && ErrorFits(op, err)
    case Link(x) => op.PushOp? && op.item == x
    case Advance(x) => op.PushOp? && op.item == x
    case Add(x) => op.PushOp? && op.item == x
    case Take => op.PopOp?
    case Free(_) => op.PopOp?
    case Sub(_) => op.PopOp?
    case _ => false
  }

  /** Where a thread with this pending call may be. */
  ghost predicate Tracks<T>(p: Pc<T>, pending: Option<Call<T>>) {
    match pending
    case None => Outside(p)
    case Some(call) => if call.Drains? then InDrain(p) else InCall(p, call.op)
  }

  ghost predicate StepTracks<T>(s: State<T>, a: Step<T>, pending: Option<Call<T>>)
    requires Enabled(s, a)
  {
    var call, answer := Begins(a, a.t), Answers(s, a, a.t);
    && |Apply(s, a).pcs| == |s.pcs| && Proper(Fits, pending, call, answer)
    && Tracks(Apply(s, a).pcs[a.t], Left(pending, call, answer))
  }

  lemma PushTracks<T>(s: State<T>, a: Step<T>, pending: Option<Call<T>>)
    requires Enabled(s, a) && Tracks(s.pcs[a.t], pending) && (a.DoLink? || a.DoAdvance? || a.DoAdd?)
    ensures StepTracks(s, a, pending)
  {}

  lemma PopTracks<T>(s: State<T>, a: Step<T>, pending: Option<Call<T>>)
    requires Enabled(s, a) && Tracks(s.pcs[a.t], pending) && (a.DoTake? || a.DoFree? || a.DoSub?)
    ensures StepTracks(s, a, pending)
  {}

  lemma DrainTracks<T>(s: State<T>, a: Step<T>, pending: Option<Call<T>>)
    requires Enabled(s, a) && Tracks(s.pcs[a.t], pending)
    requires a.DoDrainLoad? || a.DoDrainTake? || a.DoDrainFree?
    ensures StepTracks(s, a, pending)
  {}

  lemma DrainEndTracks<T>(s: State<T>, a: Step<T>, pending: Option<Call<T>>)
    requires Enabled(s, a) && Tracks(s.pcs[a.t], pending) && a.DoDrainSub?
    ensures StepTracks(s, a, pending)
  {}

  lemma TestTracks<T>(s: State<T>, a: Step<T>, pending: Option<Call<T>>)
    requires Enabled(s, a) && Tracks(s.pcs[a.t], pending) && (a.DoTest? || a.DoTestCount?)
    ensures StepTracks(s, a, pending)
  {}

  lemma DecideTracks<T>(s: State<T>, a: Step<T>, pending: Option<Call<T>>)
    requires Enabled(s, a) && Tracks(s.pcs[a.t], pending)
    requires a.DoPred? || a.DoPredCount? || a.DoDecide? || a.DoReadKind?
    ensures StepTracks(s, a, pending)
  {}

  lemma CallTracks<T>(s: State<T>, a: Step<T>, pending: Option<Call<T>>)
    requires Enabled(s, a) && Tracks(s.pcs[a.t], pending)
    requires a.Begin? || a.BeginDrain? || a.BeginDispose? || a.DoFail?
    ensures StepTracks(s, a, pending)
  {}

  lemma LockTracks<T>(s: State<T>, a: Step<T>, pending: Option<Call<T>>)
    requires Enabled(s, a) && Tracks(s.pcs[a.t], pending)
    requires a.TakeLock? || a.DoUnlock?
    ensures StepTracks(s, a, pending)
  {}

  lemma SleepTracks<T>(s: State<T>, a: Step<T>, pending: Option<Call<T>>)
    requires Enabled(s, a) && Tracks(s.pcs[a.t], pending) && (a.DoSleep? || a.Awaken?)
    ensures StepTracks(s, a, pending)
  {}

  lemma NotifyTracks<T>(s: State<T>, a: Step<T>, pending: Option<Call<T>>)
    requires Enabled(s, a) && Tracks(s.pcs[a.t], pending) && (a.DoCascade? || a.DoSignal?)
    ensures StepTracks(s, a, pending)
  {
    NotifierUnlocks(s, a);
  }

  lemma NotifierUnlocks<T>(s: State<T>, a: Step<T>)
    requires Enabled(s, a) && (a.DoCascade? || a.DoSignal?)
    ensures |Apply(s, a).pcs| == |s.pcs| && Outside(Apply(s, a).pcs[a.t])
  {}

  /** Every action takes its thread from one place of its call to the next, and answers the
      call exactly where it ends. */
  lemma ActorTracks<T>(s: State<T>, a: Step<T>, pending: Option<Call<T>>)
    requires Enabled(s, a) && Tracks(s.pcs[a.t], pending)
    ensures StepTracks(s, a, pending)
  {
    match a
    case DoLink(_) => PushTracks(s, a, pending);
    case DoAdvance(_) => PushTracks(s, a, pending);
    case DoAdd(_) => PushTracks(s, a, pending);
    case DoTake(_) => PopTracks(s, a, pending);
    case DoFree(_) => PopTracks(s, a, pending);
    case DoSub(_) => PopTracks(s, a, pending);
    case DoDrainLoad(_) => DrainTracks(s, a, pending);
    case DoDrainTake(_) => DrainTracks(s, a, pending);
    case DoDrainFree(_) => DrainTracks(s, a, pending);
    case DoDrainSub(_) => DrainEndTracks(s, a, pending);
    case DoTest(_) => TestTracks(s, a, pending);
    case DoTestCount(_) => TestTracks(s, a, pending);
    case DoPred(_) => DecideTracks(s, a, pending);
    case DoPredCount(_, _) => DecideTracks(s, a, pending);
    case DoDecide(_) => DecideTracks(s, a, pending);
    case DoReadKind(_) => DecideTracks(s, a, pending);
    case Begin(_, _) => CallTracks(s, a, pending);
    case BeginDrain(_) => CallTracks(s, a, pending);
    case BeginDispose(_) => CallTracks(s, a, pending);
    case DoFail(_) => CallTracks(s, a, pending);
    case DoSleep(_) => SleepTracks(s, a, pending);
    case Awaken(_) => SleepTracks(s, a, pending);
    case DoCascade(_, _) => NotifyTracks(s, a, pending);
    case DoSignal(_, _) => NotifyTracks(s, a, pending);
    case _ => LockTracks(s, a, pending);
  }

  lemma OthersTrack<T>(s: State<T>, a: Step<T>, t: nat, pending: Option<Call<T>>)
    requires Enabled(s, a) && t < |s.pcs| && t != a.t && Tracks(s.pcs[t], pending)
    ensures |Apply(s, a).pcs| == |s.pcs| && Tracks(Apply(s, a).pcs[t], pending)
  {
    OthersStay(s, a, t);
  }

  // ------------------------------------------------------------ every run

  lemma {:induction false} LogIsKept<T>(s: State<T>, steps: seq<Step<T>>, end: State<T>, t: nat,
                                        log: Log<Call<T>, Answer<T>>, pending: Option<Call<T>>)
    returns (left: Option<Call<T>>)
    requires Run(s, steps, end) && t < |s.pcs| && Tracks(s.pcs[t], pending) && Kept(Fits, log, pending)
    ensures t < |end.pcs| && Tracks(end.pcs[t], left) && Kept(Fits, LogOf(s, steps, end, t, log), left)
    decreases steps
  {
    if steps == [] {
      left := pending;
    } else {
      var a := steps[0];
      var call, answer := Begins(a, t), Answers(s, a, t);
      if a.t == t {
        ActorTracks(s, a, pending);
      } else {
        OthersTrack(s, a, t, pending);
      }
      KeptExtends(Fits, log, pending, call, answer);
      left := LogIsKept(Apply(s, a), steps[1..], end, t, Extend(log, call, answer), Left(pending, call, answer));
    }
  }

  /** In every run and for every thread: each push, pop and drain it begins gets exactly one
      answer, in order, that fits the call; only the last may still be pending, and it is
      pending exactly while the thread is inside it. */
  lemma CallsAreAnswered<T>(s: State<T>, steps: seq<Step<T>>, end: State<T>, t: nat)
    returns (pending: Option<Call<T>>)
    requires Init(s) && Run(s, steps, end) && t < |s.pcs|
    ensures t < |end.pcs| && Kept(Fits, LogOf(s, steps, end, t, Log([], [])), pending)
    ensures Tracks(end.pcs[t], pending) && (pending == None <==> Outside(end.pcs[t]))
  {
    pending := LogIsKept(s, steps, end, t, Log([], []), None);
  }

  // ------------------------------------------------------------ histories

  ghost function AcceptedIn<T>(s: State<T>, steps: seq<Step<T>>, end: State<T>): seq<T>
    requires Run(s, steps, end)
    decreases steps
  {
    if steps == [] then []
    else AcceptedItems(Answers(s, steps[0], steps[0].t)) + AcceptedIn(Apply(s, steps[0]), steps[1..], end)
  }

  ghost function DeliveredIn<T>(s: State<T>, steps: seq<Step<T>>, end: State<T>): seq<T>
    requires Run(s, steps, end)
    decreases steps
  {
    if steps == [] then []
    else DeliveredItems(Answers(s, steps[0], steps[0].t)) + DeliveredIn(Apply(s, steps[0]), steps[1..], end)
  }

  lemma AnswerMovesHistory<T>(s: State<T>, a: Step<T>)
    requires Enabled(s, a)
    ensures Apply(s, a).accepted == s.accepted + AcceptedItems(Answers(s, a, a.t))
    ensures Apply(s, a).delivered == s.delivered + DeliveredItems(Answers(s, a, a.t))
  {
    HistoriesMove(s, a);
  }

  lemma Joined<T>(a: seq<T>, b: seq<T>, c: seq<T>)
    ensures (a + b) + c == a + (b + c)
  {}

  /** The histories are the answers of all threads, in the order they are given. */
  lemma {:induction false} HistoriesAreAnswers<T>(s: State<T>, steps: seq<Step<T>>, end: State<T>)
    requires Run(s, steps, end)
    ensures end.accepted == s.accepted + AcceptedIn(s, steps, end)
    ensures end.delivered == s.delivered + DeliveredIn(s, steps, end)
    decreases steps
  {
    if steps != [] {
      var s', answer := Apply(s, steps[0]), Answers(s, steps[0], steps[0].t);
      AnswerMovesHistory(s, steps[0]);
      HistoriesAreAnswers(s', steps[1..], end);
      Joined(s.accepted, AcceptedItems(answer), AcceptedIn(s', steps[1..], end));
      Joined(s.delivered, DeliveredItems(answer), DeliveredIn(s', steps[1..], end));
    }
  }

  // ------------------------------------------------------------ no schedule is left out

  /** An idle thread may begin any call; a sleeper may wake at any time; a wait may expire
      at any look exactly if it is timed. */
  lemma NothingIsRuledOut<T>(s: State<T>, t: nat, op: Op<T>)
    requires t < |s.pcs|
    ensures s.pcs[t] == Idle ==> Enabled(s, Begin(t, op)) && Enabled(s, BeginDrain(t)) && Enabled(s, BeginDispose(t))
    ensures s.pcs[t] == Asleep(op) ==> Enabled(s, Awaken(t))
    ensures s.pcs[t] == PredCount(op) ==>
              Enabled(s, DoPredCount(t, false)) && (Enabled(s, DoPredCount(t, true)) <==> op.mode == Timed)
  {}

  /** Whom a push or pop notifies by the count it found: the other side when the queue stops
      being empty or full, its own side while there is more to do. */
  lemma SignalsAreDue<T>(s: State<T>, a: Step<T>)
    requires Enabled(s, a) && a.DoCascade?
    ensures var p, p' := s.pcs[a.t], Apply(s, a).pcs[a.t];
      && (p.side == PushSide ==> (p' == Unlock(PushSide, SigLock(PopSide, One)) <==> p.prev == 0))
      && (p.side == PopSide ==> (p' == Unlock(PopSide, SigLock(PushSide, One)) <==> p.prev == s.chain.capacity))
      && (a.target.Some? ==>
            WaitersOf(s, p.side) > 0 && if p.side == PushSide then p.prev + 1 < s.chain.capacity else p.prev > 1)
  {}
}
