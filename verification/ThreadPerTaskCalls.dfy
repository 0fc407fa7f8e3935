/** What every submit to a ThreadPerTaskPool comes to, under every schedule, and that
    every worker it spawns runs its job. */
module ThreadPerTaskCalls {
  import opened Base
  import opened Counting
  import opened CallLog
  import opened ThreadPerTask

  // ------------------------------------------------------------ the log

  /** `open`: the pool was not disposed when the submit began. */
  datatype Call = Submits(open: bool)

  datatype Answer = Spawned(w: nat) | SpawnFailed | Refused

  /** A submit that begins on a disposed pool is refused. */
  predicate Fits(call: Call, answer: Answer) {
    !call.open ==> answer.Refused?
  }

  function Begins(s: State, a: Step, t: nat): Option<Call> {
    if a.t == t && a.Submit? then Some(Submits(!s.disposed)) else None
  }

  /** The answer thread `t` gets with a step: a worker, a failed spawn, or a refusal because
      the pool is disposed when it asks. */
  function Answers(s: State, a: Step, t: nat): Option<Answer> {
    if a.t != t then None
    else match a
      case Submit(_) => if s.disposed then Some(Refused) else None
      case DoDecide(_) => if s.disposed then Some(Refused) else None
      case Spawn(_, ok) => Some(if ok then Spawned(|s.pcs|) else SpawnFailed)
      case _ => None
  }

  ghost function LogOf(s: State, steps: seq<Step>, end: State, t: nat, log: Log<Call, Answer>): Log<Call, Answer>
    requires Run(s, steps, end)
    decreases steps
  {
    if steps == [] then log
    else LogOf(Apply(s, steps[0]), steps[1..], end, t,
               Extend(log, Begins(s, steps[0], t), Answers(s, steps[0], t)))
  }

  // ------------------------------------------------------------ one thread

  /** Inside a submit whose outcome is open. */
  predicate InSubmit(p: Pc) {
    p == ReapLock || p.ReapAt? || p == AcqLock || p == Pred || p == GoSleep || p == Asleep || p == Relock
    || p == Decide || p == Unlock(Spawning) || p == Spawning
  }

  /** Outside every submit, or past its outcome. */
  predicate Outside(p: Pc) {
    p == Idle || p.HandleLock? || p.HandlePush? || p.RelLock? || p.RelHeld? || p.RelNotify?
    || p == Running || p == Finished || p == DispLock || p == DispNotifyAll || p == DispHandles || p == DispTaking
    || p.Joining? || p == Unlock(Idle) || p == Unlock(Finished) || p == Unlock(DispNotifyAll)
  }

  predicate Tracks(p: Pc, pending: Option<Call>) {
    match pending
    case None => Outside(p)
    case Some(call) => call.open && InSubmit(p)
  }

  /** Every action takes its thread from one place of its call to the next, and answers the
      call exactly where it ends. */
  lemma ActorTracks(s: State, a: Step, pending: Option<Call>)
    requires Enabled(s, a) && Tracks(s.pcs[a.t], pending)
    ensures |s.pcs| <= |Apply(s, a).pcs| && Proper(Fits, pending, Begins(s, a, a.t), Answers(s, a, a.t))
    ensures Tracks(Apply(s, a).pcs[a.t], Left(pending, Begins(s, a, a.t), Answers(s, a, a.t)))
  {
    if a.Submit? || a.TakeCountLock? || a.DoPred? || a.DoSleep? || a.Awaken? || a.DoDecide? || a.DropCountLock? {
      AcquireTracks(s, a, pending);
    } else if a.TakeHandleLock? || a.Reap? || a.Spawn? || a.PushHandle? {
      HandleTracks(s, a, pending);
    } else {
      RestTracks(s, a, pending);
    }
  }

  ghost predicate StepTracks(s: State, a: Step, pending: Option<Call>)
    requires Enabled(s, a)
  {
    && |s.pcs| <= |Apply(s, a).pcs| && Proper(Fits, pending, Begins(s, a, a.t), Answers(s, a, a.t))
    && Tracks(Apply(s, a).pcs[a.t], Left(pending, Begins(s, a, a.t), Answers(s, a, a.t)))
  }

  lemma AcquireTracks(s: State, a: Step, pending: Option<Call>)
    requires Enabled(s, a) && Tracks(s.pcs[a.t], pending)
    requires a.Submit? || a.TakeCountLock? || a.DoPred? || a.DoSleep? || a.Awaken? || a.DoDecide? || a.DropCountLock?
    ensures StepTracks(s, a, pending)
  {}

  lemma HandleTracks(s: State, a: Step, pending: Option<Call>)
    requires Enabled(s, a) && Tracks(s.pcs[a.t], pending)
    requires a.TakeHandleLock? || a.Reap? || a.Spawn? || a.PushHandle?
    ensures StepTracks(s, a, pending)
  {}

  lemma RestTracks(s: State, a: Step, pending: Option<Call>)
    requires Enabled(s, a) && Tracks(s.pcs[a.t], pending)
    requires a.JobEnds? || a.Decrement? || a.Notify? || a.BeginDispose? || a.NotifyAll? || a.TakeHandles? || a.Join?
    ensures StepTracks(s, a, pending)
  {}

  lemma OthersTrack(s: State, a: Step, t: nat, pending: Option<Call>)
    requires Enabled(s, a) && t < |s.pcs| && t != a.t && Tracks(s.pcs[t], pending)
    ensures |s.pcs| <= |Apply(s, a).pcs| && Tracks(Apply(s, a).pcs[t], pending)
  {}

  // ------------------------------------------------------------ every run

  lemma {:induction false} LogIsKept(s: State, steps: seq<Step>, end: State, t: nat, log: Log<Call, Answer>,
                                     pending: Option<Call>)
    returns (left: Option<Call>)
    requires Run(s, steps, end) && t < |s.pcs| && Tracks(s.pcs[t], pending) && Kept(Fits, log, pending)
    ensures t < |end.pcs| && Tracks(end.pcs[t], left) && Kept(Fits, LogOf(s, steps, end, t, log), left)
    decreases steps
  {
    if steps == [] {
      left := pending;
    } else {
      var a := steps[0];
      var call, answer := Begins(s, a, t), Answers(s, a, t);
      if a.t == t {
        ActorTracks(s, a, pending);
      } else {
        OthersTrack(s, a, t, pending);
      }
      KeptExtends(Fits, log, pending, call, answer);
      left := LogIsKept(Apply(s, a), steps[1..], end, t, Extend(log, call, answer), Left(pending, call, answer));
    }
  }

  /** In every run and for every client: each submit comes to exactly one of a spawned
      worker, a failed spawn, and a refusal by a disposed pool, in order; only the last
      may still be on its way. */
  lemma CallsAreAnswered(s: State, steps: seq<Step>, end: State, t: nat) returns (pending: Option<Call>)
    requires Init(s) && Run(s, steps, end) && t < |s.pcs|
    ensures t < |end.pcs| && Kept(Fits, LogOf(s, steps, end, t, Log([], [])), pending)
    ensures Tracks(end.pcs[t], pending) && (pending == None <==> Outside(end.pcs[t]))
  {
    pending := LogIsKept(s, steps, end, t, Log([], []), None);
  }

  // ------------------------------------------------------------ all threads

  function UnderWay(p: Pc): nat {
    if InSubmit(p) then 1 else 0
  }

  /** Submits begun on an open pool. */
  ghost function Begun(s: State, steps: seq<Step>, end: State): nat
    requires Run(s, steps, end)
    decreases steps
  {
    if steps == [] then 0
    else (if steps[0].Submit? && !s.disposed then 1 else 0) + Begun(Apply(s, steps[0]), steps[1..], end)
  }

  /** Submits that came to `kind` after they had begun on an open pool. */
  ghost function Came(s: State, steps: seq<Step>, end: State, kind: Answer -> bool): nat
    requires Run(s, steps, end)
    decreases steps
  {
    if steps == [] then 0
    else
      var answer := Answers(s, steps[0], steps[0].t);
      (if !steps[0].Submit? && answer.Some? && kind(answer.value) then 1 else 0)
      + Came(Apply(s, steps[0]), steps[1..], end, kind)
  }

  predicate IsSpawned(answer: Answer) { answer.Spawned? }

  predicate IsFailed(answer: Answer) { answer.SpawnFailed? }

  predicate IsRefused(answer: Answer) { answer.Refused? }

  /** Every row is somewhere a submit, a worker or a disposer can be. */
  ghost predicate AllPlaced(s: State) {
    forall t :: 0 <= t < |s.pcs| ==> InSubmit(s.pcs[t]) || Outside(s.pcs[t])
  }

  lemma ActorPlaced(s: State, a: Step)
    requires Enabled(s, a) && (InSubmit(s.pcs[a.t]) || Outside(s.pcs[a.t]))
    ensures |s.pcs| <= |Apply(s, a).pcs|
    ensures InSubmit(Apply(s, a).pcs[a.t]) || Outside(Apply(s, a).pcs[a.t])
    ensures UnderWay(Apply(s, a).pcs[a.t]) + (if !a.Submit? && Answers(s, a, a.t).Some? then 1 else 0)
            == UnderWay(s.pcs[a.t]) + (if a.Submit? && !s.disposed then 1 else 0)
  {
    ActorTracks(s, a, if InSubmit(s.pcs[a.t]) then Some(Submits(true)) else None);
  }

  /** The rows besides the acting one: sleepers may wake, and a spawn adds a worker. */
  lemma OthersStay(s: State, a: Step, t: nat)
    requires Enabled(s, a) && t < |s.pcs| && t != a.t
    ensures |s.pcs| <= |Apply(s, a).pcs|
    ensures Apply(s, a).pcs[t] == s.pcs[t] || (s.pcs[t] == Asleep && Apply(s, a).pcs[t] == Relock)
  {}

  lemma SpawnAppends(s: State, a: Step)
    requires Enabled(s, a)
    ensures Apply(s, a).spawned == s.spawned + (if a.Spawn? && a.ok then [|s.pcs|] else [])
    ensures |Apply(s, a).pcs| == |s.pcs| + (if a.Spawn? && a.ok then 1 else 0)
    ensures a.Spawn? && a.ok ==> Apply(s, a).pcs[|s.pcs|] == Running
  {}

  /** One action moves at most its own submit. */
  lemma StepCounts(s: State, a: Step)
    requires AllPlaced(s) && Enabled(s, a)
    ensures AllPlaced(Apply(s, a))
    ensures Sum(Apply(s, a).pcs, UnderWay) + (if !a.Submit? && Answers(s, a, a.t).Some? then 1 else 0)
            == Sum(s.pcs, UnderWay) + (if a.Submit? && !s.disposed then 1 else 0)
  {
    var s' := Apply(s, a);
    ActorPlaced(s, a);
    SpawnAppends(s, a);
    forall t | 0 <= t < |s.pcs| && t != a.t
      ensures (InSubmit(s'.pcs[t]) || Outside(s'.pcs[t])) && UnderWay(s'.pcs[t]) == UnderWay(s.pcs[t])
    {
      OthersStay(s, a, t);
    }
    RowsCount(s.pcs, s'.pcs, a.t);
  }

  lemma SameRowsCount(pcs: seq<Pc>, pcs': seq<Pc>, t: nat)
    requires t < |pcs| == |pcs'|
    requires forall i :: 0 <= i < |pcs| && i != t ==> UnderWay(pcs'[i]) == UnderWay(pcs[i])
    ensures Sum(pcs', UnderWay) + UnderWay(pcs[t]) == Sum(pcs, UnderWay) + UnderWay(pcs'[t])
  {
    var mid := pcs[t := pcs'[t]];
    SumUpdate(pcs, t, pcs'[t], UnderWay);
    forall i | 0 <= i < |mid| ensures UnderWay(mid[i]) == UnderWay(pcs'[i]) {
      assert i != t ==> mid[i] == pcs[i];
    }
    SumSame(mid, pcs', UnderWay);
  }

  lemma RowsCount(pcs: seq<Pc>, pcs': seq<Pc>, t: nat)
    requires t < |pcs| && (|pcs'| == |pcs| || (|pcs'| == |pcs| + 1 && UnderWay(pcs'[|pcs|]) == 0))
    requires forall i :: 0 <= i < |pcs| && i != t ==> UnderWay(pcs'[i]) == UnderWay(pcs[i])
    ensures Sum(pcs', UnderWay) + UnderWay(pcs[t]) == Sum(pcs, UnderWay) + UnderWay(pcs'[t])
  {
    if |pcs'| == |pcs| {
      SameRowsCount(pcs, pcs', t);
    } else {
      var front, last := pcs'[..|pcs|], pcs'[|pcs|];
      assert pcs' == front + [last];
      forall i | 0 <= i < |pcs| && i != t ensures UnderWay(front[i]) == UnderWay(pcs[i]) {
        assert front[i] == pcs'[i];
      }
      SameRowsCount(pcs, front, t);
      SumAppend(front, last, UnderWay);
    }
  }

  lemma {:induction false} RunCounts(s: State, steps: seq<Step>, end: State)
    requires AllPlaced(s) && Run(s, steps, end)
    ensures Sum(end.pcs, UnderWay) + Came(s, steps, end, IsSpawned) + Came(s, steps, end, IsFailed)
            + Came(s, steps, end, IsRefused) == Sum(s.pcs, UnderWay) + Begun(s, steps, end)
    ensures |end.spawned| == |s.spawned| + Came(s, steps, end, IsSpawned)
    decreases steps
  {
    if steps != [] {
      StepCounts(s, steps[0]);
      SpawnAppends(s, steps[0]);
      RunCounts(Apply(s, steps[0]), steps[1..], end);
    }
  }

  /** In every run: the submits begun on the open pool are those that spawned a worker, those
      whose spawn failed, those refused because the pool had been disposed, and those
      under way. */
  lemma SubmitsAreCounted(s: State, steps: seq<Step>, end: State)
    requires Init(s) && Run(s, steps, end)
    ensures Begun(s, steps, end) == |end.spawned| + Came(s, steps, end, IsFailed) + Came(s, steps, end, IsRefused)
                                    + Sum(end.pcs, UnderWay)
  {
    SumZero(s.pcs, UnderWay);
    RunCounts(s, steps, end);
  }

  /** So without a dispose and without a failing spawn every submit gets its worker. */
  lemma EverySubmitSpawns(s: State, steps: seq<Step>, end: State)
    requires Init(s) && Run(s, steps, end)
    requires forall k :: 0 <= k < |steps| ==> !steps[k].BeginDispose? && (steps[k].Spawn? ==> steps[k].ok)
    ensures Begun(s, steps, end) == |end.spawned| + Sum(end.pcs, UnderWay)
  {
    SubmitsAreCounted(s, steps, end);
    NothingGoesWrong(s, steps, end);
  }

  lemma StaysOpen(s: State, a: Step)
    requires Enabled(s, a) && !a.BeginDispose?
    ensures Apply(s, a).disposed == s.disposed
  {}

  lemma {:induction false} NothingGoesWrong(s: State, steps: seq<Step>, end: State)
    requires Run(s, steps, end) && !s.disposed
    requires forall k :: 0 <= k < |steps| ==> !steps[k].BeginDispose? && (steps[k].Spawn? ==> steps[k].ok)
    ensures Came(s, steps, end, IsFailed) == 0 && Came(s, steps, end, IsRefused) == 0
    decreases steps
  {
    if steps != [] {
      assert !steps[0].BeginDispose? && (steps[0].Spawn? ==> steps[0].ok);
      StaysOpen(s, steps[0]);
      forall k | 0 <= k < |steps[1..]|
        ensures !steps[1..][k].BeginDispose? && (steps[1..][k].Spawn? ==> steps[1..][k].ok)
      {
        assert steps[1..][k] == steps[k + 1];
      }
      NothingGoesWrong(Apply(s, steps[0]), steps[1..], end);
    }
  }

  // ------------------------------------------------------------ workers

  /** How often worker `w` has come to the end of its job. */
  function JobsEnded(steps: seq<Step>, w: nat): nat {
    if steps == [] then 0 else (if steps[0] == JobEnds(w) then 1 else 0) + JobsEnded(steps[1..], w)
  }

  function Past(p: Pc): nat {
    if Worker(p) && p != Running then 1 else 0
  }

  /** A worker's row goes on only by the end of its job, and nobody else becomes one. */
  lemma WorkerGoesOn(s: State, a: Step, w: nat)
    requires Enabled(s, a) && w < |s.pcs| && Worker(s.pcs[w])
    ensures |s.pcs| <= |Apply(s, a).pcs| && Worker(Apply(s, a).pcs[w])
    ensures Past(Apply(s, a).pcs[w]) == Past(s.pcs[w]) + (if a == JobEnds(w) then 1 else 0)
  {
    if w != a.t {
      OthersStay(s, a, w);
    } else {
      OwnerGoesOn(s, a);
    }
  }

  lemma OwnerGoesOn(s: State, a: Step)
    requires Enabled(s, a) && Worker(s.pcs[a.t])
    ensures |s.pcs| <= |Apply(s, a).pcs| && Worker(Apply(s, a).pcs[a.t])
    ensures Past(Apply(s, a).pcs[a.t]) == Past(s.pcs[a.t]) + (if a.JobEnds? then 1 else 0)
  {}

  lemma {:induction false} WorkersGoOn(s: State, steps: seq<Step>, end: State, w: nat)
    requires Run(s, steps, end) && w < |s.pcs| && Worker(s.pcs[w])
    ensures w < |end.pcs| && Worker(end.pcs[w])
    ensures Past(end.pcs[w]) == Past(s.pcs[w]) + JobsEnded(steps, w)
    decreases steps
  {
    if steps != [] {
      WorkerGoesOn(s, steps[0], w);
      WorkersGoOn(Apply(s, steps[0]), steps[1..], end, w);
    }
  }

  /** A spawned worker runs its job before anything else: from its spawn on, it is past
      Running exactly once its job has ended, and that happens once. */
  lemma SpawnedWorkersRun(s: State, t: nat, steps: seq<Step>, end: State)
    requires Enabled(s, Spawn(t, true)) && Run(Apply(s, Spawn(t, true)), steps, end)
    ensures var w := |s.pcs|;
      && w < |end.pcs| && Worker(end.pcs[w]) && w in Apply(s, Spawn(t, true)).spawned
      && JobsEnded(steps, w) == (if end.pcs[w] == Running then 0 else 1)
  {
    SpawnAppends(s, Spawn(t, true));
    WorkersGoOn(Apply(s, Spawn(t, true)), steps, end, |s.pcs|);
  }

  // ------------------------------------------------------------ no schedule is left out

  /** An idle thread may submit unless the pool is borrowed; a spawn may fail, a sleeper wake
      and a job end at any time, and a finished worker may be seen unfinished. */
  lemma NothingIsRuledOut(s: State, t: nat, ok: bool)
    requires t < |s.pcs|
    ensures s.pcs[t] == Idle ==> (Enabled(s, Submit(t)) <==> !s.borrowed)
    ensures s.pcs[t] == Spawning ==> Enabled(s, Spawn(t, ok))
    ensures s.pcs[t] == Asleep ==> Enabled(s, Awaken(t))
    ensures s.pcs[t] == Running ==> Enabled(s, JobEnds(t))
    ensures s.pcs[t].ReapAt? ==> Enabled(s, Reap(t, false))
  {}
}
