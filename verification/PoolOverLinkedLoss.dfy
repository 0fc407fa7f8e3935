/** A ThreadPool over a LinkedBQ losing a job, action by action of the queue: a push
    from outside is past its test of `disposed` when the pool is disposed, the only
    worker is refused and leaves, and the job is accepted behind it. */
module PoolOverLinkedLoss {
  import opened Base
  import opened LinkedChain
  import opened QueueOps
  import opened LinkedMachine
  import opened LinkedInvariant
  import opened LinkedTheorems
  import LL = LinkedLimits
  import QueueSpec
  import TP = ThreadPool
  import opened PoolOverLinked
  import opened Traces

  // ------------------------------------------------------------ lifting

  /** An action the pool sees nothing of but the contents. */
  predicate Silent<T>(a: Step<T>) {
    !a.DoSub? && !a.DoDecide? && !a.DoDrainSub? && !a.BeginDispose? && !a.BeginDrain?
  }

  /** A silent action that is no call of its own. */
  predicate Plain<T>(a: Step<T>) {
    Silent(a) && !a.Begin?
  }

  ghost predicate Liftable<Job>(c: Joint<Job>, steps: seq<Step<Job>>) {
    forall k :: 0 <= k < |steps| ==> Silent(steps[k]) && Calls(c.pool, c.inside, c.owner, steps[k])
  }

  /** The joint state with another queue state, and the pool looking at it. */
  ghost function At<Job>(c: Joint<Job>, lq: State<Job>): Joint<Job>
    requires Structure(lq)
  {
    c.(lq := lq, pool := c.pool.(q := Abstract(lq)))
  }

  lemma SilentMove<Job>(c: Joint<Job>, a: Step<Job>)
    requires Structure(c.lq) && CanDo(c, Queue(a)) && Silent(a)
    ensures Structure(Apply(c.lq, a)) && Do(c, Queue(a)) == At(c, Apply(c.lq, a))
  {
    StepKeepsStructure(c.lq, a);
  }

  lemma OnlyWorkerLeaves<Job>(ws: seq<TP.Worker<Job>>)
    requires |ws| == 1
    ensures WorkersOn(ws, 0, QueueSpec.Refuse) == [TP.Exited]
  {
    assert ws[0 := TP.Exited] == [TP.Exited];
  }

  lemma PoolRefuses<Job>(c: Joint<Job>, e: QueueSpec.Event<Job>)
    requires |c.pool.workers| == 1 && e == QueueSpec.Refuse
    ensures PoolOn(c, DoDecide(0), e) == c.pool.(workers := [TP.Exited])
  {
    OnlyWorkerLeaves(c.pool.workers);
  }

  /** The action by which the only worker is refused. */
  lemma RefusalMove<Job>(c: Joint<Job>)
    requires Structure(c.lq) && CanDo(c, Queue(DoDecide(0))) && |c.pool.workers| == 1
    requires EventOf(c.lq, DoDecide(0)) == QueueSpec.Refuse
    ensures Structure(Apply(c.lq, DoDecide(0)))
    ensures var lq := Apply(c.lq, DoDecide(0));
      Do(c, Queue(DoDecide(0))) == c.(lq := lq, pool := c.pool.(q := Abstract(lq), workers := [TP.Exited]))
  {
    StepKeepsStructure(c.lq, DoDecide(0));
    PoolRefuses(c, EventOf(c.lq, DoDecide(0)));
  }

  /** A run in which no job has panicked. */
  datatype Path<Job> = Path(states: seq<Joint<Job>>, moves: seq<Move<Job>>)

  ghost predicate Reached<Job>(p: Path<Job>, c0: Joint<Job>, c: Joint<Job>) {
    && JointRun(p.states, p.moves) && PanickingJobs(p.moves) == 0
    && p.states[0] == c0 && p.states[|p.moves|] == c
  }

  /** ... that has come to a state the pool sees as it is. */
  ghost predicate Seen<Job>(c: Joint<Job>) {
    Structure(c.lq) && c.pool.q == Abstract(c.lq)
  }

  lemma ReachBy<Job>(p: Path<Job>, c0: Joint<Job>, c: Joint<Job>, m: Move<Job>, c': Joint<Job>) returns (p': Path<Job>)
    requires Reached(p, c0, c) && Follows(c, m, c') && Panicking(m) == 0
    ensures Reached(p', c0, c')
  {
    TraceExtends(Follows, p.states, p.moves, m, c');
    p' := Path(p.states + [c'], p.moves + [m]);
    assert p'.moves[..|p'.moves| - 1] == p.moves;
  }

  lemma {:induction false} ReachSilently<Job>(p: Path<Job>, c0: Joint<Job>, c: Joint<Job>,
                                              steps: seq<Step<Job>>, lq: State<Job>)
    returns (p': Path<Job>)
    requires Reached(p, c0, c) && Seen(c) && Run(c.lq, steps, lq) && Liftable(c, steps)
    ensures Structure(lq) && Reached(p', c0, At(c, lq))
    decreases steps
  {
    if steps == [] {
      p' := p;
      assert At(c, lq) == c;
    } else {
      var a := steps[0];
      assert Silent(a) && Calls(c.pool, c.inside, c.owner, a);
      SilentMove(c, a);
      var c' := At(c, Apply(c.lq, a));
      p' := ReachBy(p, c0, c, Queue(a), c');
      StillLiftable(c, c', steps);
      p' := ReachSilently(p', c0, c', steps[1..], lq);
      assert At(c', lq) == At(c, lq);
    }
  }

  lemma StillLiftable<Job>(c: Joint<Job>, c': Joint<Job>, steps: seq<Step<Job>>)
    requires steps != [] && Liftable(c, steps) && c'.pool == c.pool.(q := c'.pool.q)
    requires c'.inside == c.inside && c'.owner == c.owner
    ensures Liftable(c', steps[1..])
  {
    forall k | 0 <= k < |steps[1..]|
      ensures Silent(steps[1..][k]) && Calls(c'.pool, c'.inside, c'.owner, steps[1..][k])
    {
      assert steps[1..][k] == steps[k + 1];
      CallsIgnoreContents(c, c', steps[k + 1]);
    }
  }

  lemma CallsIgnoreContents<Job>(c: Joint<Job>, c': Joint<Job>, a: Step<Job>)
    requires c'.pool == c.pool.(q := c'.pool.q) && c'.inside == c.inside && c'.owner == c.owner
    ensures Calls(c'.pool, c'.inside, c'.owner, a) == Calls(c.pool, c.inside, c.owner, a)
  {}

  // ------------------------------------------------------------ the queue

  ghost predicate Awake<T>(s: State<T>) {
    forall t :: 0 <= t < |s.pcs| ==> !s.pcs[t].Asleep?
  }

  ghost predicate AllPlain<T>(steps: seq<Step<T>>) {
    forall k :: 0 <= k < |steps| ==> Plain(steps[k])
  }

  /** A push that has found the queue empty leaves its mutex, and will signal. */
  lemma PusherLeaves<T>(s: State<T>, i: nat) returns (steps: seq<Step<T>>, end: State<T>)
    requires i < |s.pcs| && s.pcs[i] == Cascade(PushSide, 0) && s.pushWaiters == 0
    ensures Run(s, steps, end) && AllPlain(steps)
    ensures end == s.(pushLock := None, pcs := s.pcs[i := SigLock(PopSide, One)])
  {
    var s1 := Apply(s, DoCascade(i, None));
    end := Apply(s1, DoUnlock(i));
    LL.OneStep(s, DoCascade(i, None));
    LL.RunExtends(s, [DoCascade(i, None)], s1, DoUnlock(i));
    steps := [DoCascade(i, None)] + [DoUnlock(i)];
    assert end.pcs == s.pcs[i := SigLock(PopSide, One)];
  }

  lemma DisposerLocks<T>(s: State<T>, d: nat, side: Side)
    requires d < |s.pcs| && s.pcs[d] == SigLock(side, Signal.Dispose) && LockOf(s, side) == None
    ensures Enabled(s, TakeLock(d))
    ensures Apply(s, TakeLock(d)) == SetLock(s.(pcs := s.pcs[d := SigHeld(side, Signal.Dispose)]), side, Some(d))
  {}

  lemma DisposerSignals<T>(s: State<T>, d: nat, side: Side)
    requires d < |s.pcs| && s.pcs[d] == SigHeld(side, Signal.Dispose) && Awake(s)
    ensures Enabled(s, DoSignal(d, None))
    ensures Apply(s, DoSignal(d, None)) == s.(pcs := s.pcs[d := Unlock(side, AfterSignal(side, Signal.Dispose))])
  {
    var pcs := s.pcs[d := Unlock(side, AfterSignal(side, Signal.Dispose))];
    assert WakeAll(pcs, side) == pcs;
  }

  lemma DisposerUnlocks<T>(s: State<T>, d: nat, side: Side, next: Pc<T>)
    requires d < |s.pcs| && s.pcs[d] == Unlock(side, next)
    ensures Enabled(s, DoUnlock(d)) && Apply(s, DoUnlock(d)) == SetLock(s.(pcs := s.pcs[d := next]), side, None)
  {}

  /** The winner of a dispose notifies the sleepers of one side; there are none. */
  lemma DisposerNotifies<T>(s: State<T>, d: nat, side: Side) returns (steps: seq<Step<T>>, end: State<T>)
    requires d < |s.pcs| && s.pcs[d] == SigLock(side, Signal.Dispose) && LockOf(s, side) == None && Awake(s)
    ensures Run(s, steps, end) && AllPlain(steps)
    ensures end == s.(pcs := s.pcs[d := AfterSignal(side, Signal.Dispose)])
  {
    DisposerLocks(s, d, side);
    var s1 := Apply(s, TakeLock(d));
    DisposerSignals(s1, d, side);
    var s2 := Apply(s1, DoSignal(d, None));
    DisposerUnlocks(s2, d, side, AfterSignal(side, Signal.Dispose));
    end := Apply(s2, DoUnlock(d));
    steps := ThreeSteps(s, TakeLock(d), s1, DoSignal(d, None), s2, DoUnlock(d));
    assert end.pcs == s.pcs[d := AfterSignal(side, Signal.Dispose)];
  }

  lemma ThreeSteps<T>(s: State<T>, a: Step<T>, s1: State<T>, b: Step<T>, s2: State<T>, c: Step<T>)
    returns (steps: seq<Step<T>>)
    requires Enabled(s, a) && s1 == Apply(s, a) && Enabled(s1, b) && s2 == Apply(s1, b) && Enabled(s2, c)
    ensures Run(s, steps, Apply(s2, c)) && (Plain(a) && Plain(b) && Plain(c) ==> AllPlain(steps))
  {
    LL.OneStep(s, a);
    LL.RunExtends(s, [a], s1, b);
    LL.RunExtends(s, [a] + [b], s2, c);
    steps := [a] + [b] + [c];
  }

  // ------------------------------------------------------------ the loss

  /** One worker, thread 0; thread `i` pushes from outside. */
  ghost predicate Cast<Job>(c: Joint<Job>, i: nat) {
    && JointInit(c) && |c.pool.workers| == 1 && c.pool.pushers
    && 0 < i < |c.lq.pcs| && i != c.owner && i !in c.inside
  }

  /** Where everybody stands: the worker and its thread, the pusher, the pool's owner. */
  ghost predicate Scene<Job>(c: Joint<Job>, lq: State<Job>, i: nat,
                             w: TP.Worker<Job>, worker: Pc<Job>, pusher: Pc<Job>, owner: Pc<Job>) {
    && 0 < i < |lq.pcs| && i != c.owner && 0 < c.owner < |lq.pcs|
    && c.pool.workers == [w] && c.pool.executed == []
    && lq.pcs[0] == worker && lq.pcs[i] == pusher && lq.pcs[c.owner] == owner && Awake(lq)
    && lq.pushWaiters == 0
  }

  /** Who holds the mutexes, and what the queue has accepted. */
  ghost predicate Props<Job>(pool: TP.State<Job>, lq: State<Job>, phase: TP.Phase,
                             pushLock: Option<nat>, popLock: Option<nat>, accepted: seq<Job>) {
    && pool.phase == phase && lq.chain.disposed == (phase == TP.QueueDisposed)
    && lq.pushLock == pushLock && lq.popLock == popLock
    && lq.accepted == accepted && lq.chain.count == |accepted| && 0 < lq.chain.capacity
  }

  ghost predicate InsideIdle<Job>(inside: set<nat>, lq: State<Job>) {
    forall t :: t in inside && t < |lq.pcs| ==> lq.pcs[t] == Idle
  }

  lemma PlainIsLiftable<Job>(c: Joint<Job>, steps: seq<Step<Job>>)
    requires AllPlain(steps)
    ensures Liftable(c, steps)
  {}

  lemma PoolBegins<Job>(c: Joint<Job>, i: nat, job: Job) returns (c': Joint<Job>)
    requires Seen(c) && Scene(c, c.lq, i, TP.Popping, Idle, TestCount(PushOp(Try, job)), Idle)
    requires Props(c.pool, c.lq, TP.Open, Some(i), None, []) && InsideIdle(c.inside, c.lq)
    ensures Follows(c, PoolDisposes, c') && c'.lq == c.lq && c'.pool == c.pool.(phase := TP.Begun)
    ensures c'.inside == c.inside && c'.owner == c.owner
  {
    c' := Do(c, PoolDisposes);
  }

  /** The queue is disposed while the push is past its test. */
  lemma QueueIsDisposed<Job>(c: Joint<Job>, i: nat, job: Job) returns (c': Joint<Job>)
    requires Seen(c) && Scene(c, c.lq, i, TP.Popping, Idle, TestCount(PushOp(Try, job)), Idle)
    requires Props(c.pool, c.lq, TP.Begun, Some(i), None, [])
    ensures Follows(c, Queue(BeginDispose(c.owner)), c') && Seen(c')
    ensures Props(c'.pool, c'.lq, TP.QueueDisposed, Some(i), None, [])
    ensures Scene(c', c'.lq, i, TP.Popping, Idle, TestCount(PushOp(Try, job)), SigLock(PopSide, Signal.Dispose))
  {
    StepKeepsStructure(c.lq, BeginDispose(c.owner));
    c' := Do(c, Queue(BeginDispose(c.owner)));
    assert c'.lq.pcs == c.lq.pcs[c.owner := SigLock(PopSide, Signal.Dispose)];
  }

  /** A pop that finds the queue empty is refused. */
  lemma PopIsRefused<T>(s: State<T>)
    requires 0 < |s.pcs| && s.pcs[0] == Decide(PopOp(Block)) && s.chain.count == 0
    ensures Enabled(s, DoDecide(0)) && EventOf(s, DoDecide(0)) == QueueSpec.Refuse
    ensures Apply(s, DoDecide(0)) == s.(pcs := s.pcs[0 := Fail(PopOp(Block), ResourceUnavailable)])
  {}

  /** The worker is refused, ... */
  lemma WorkerIsRefused<Job>(c: Joint<Job>, i: nat, job: Job) returns (c': Joint<Job>)
    requires Seen(c) && Props(c.pool, c.lq, TP.QueueDisposed, Some(i), Some(0), [])
    requires Scene(c, c.lq, i, TP.Popping, Decide(PopOp(Block)), TestCount(PushOp(Try, job)),
                   SigLock(PopSide, Signal.Dispose))
    ensures Follows(c, Queue(DoDecide(0)), c') && Seen(c')
    ensures c'.lq == c.lq.(pcs := c.lq.pcs[0 := Fail(PopOp(Block), ResourceUnavailable)])
    ensures c'.pool == c.pool.(q := c'.pool.q, workers := [TP.Exited]) && c'.inside == c.inside && c'.owner == c.owner
  {
    PopIsRefused(c.lq);
    RefusalMove(c);
    c' := Do(c, Queue(DoDecide(0)));
  }

  /** The scene when only the worker and its thread have moved. */
  lemma WorkerSteps<Job>(c: Joint<Job>, c': Joint<Job>, i: nat, w: TP.Worker<Job>, p: Pc<Job>, w': TP.Worker<Job>,
                         p': Pc<Job>, pusher: Pc<Job>, owner: Pc<Job>)
    requires Scene(c, c.lq, i, w, p, pusher, owner) && !p'.Asleep?
    requires c'.lq == c.lq.(pcs := c.lq.pcs[0 := p'], popLock := c'.lq.popLock)
    requires c'.pool == c.pool.(q := c'.pool.q, workers := [w']) && c'.inside == c.inside && c'.owner == c.owner
    ensures Scene(c', c'.lq, i, w', p', pusher, owner)
  {}

  lemma FailedPopEnds<T>(s: State<T>)
    requires 0 < |s.pcs| && s.pcs[0] == Fail(PopOp(Block), ResourceUnavailable)
    ensures Enabled(s, DoFail(0)) && Apply(s, DoFail(0)) == s.(pcs := s.pcs[0 := Idle], popLock := None)
  {}

  /** ... and leaves. */
  lemma WorkerLeaves<Job>(c: Joint<Job>, i: nat, job: Job) returns (c': Joint<Job>)
    requires Seen(c) && 0 < |c.lq.pcs| && c.lq.pcs[0] == Fail(PopOp(Block), ResourceUnavailable)
    ensures Follows(c, Queue(DoFail(0)), c') && Seen(c')
    ensures c'.lq == c.lq.(pcs := c.lq.pcs[0 := Idle], popLock := None)
    ensures c'.pool == c.pool.(q := c'.pool.q) && c'.inside == c.inside && c'.owner == c.owner
  {
    FailedPopEnds(c.lq);
    SilentMove(c, DoFail(0));
    c' := At(c, Apply(c.lq, DoFail(0)));
  }

  lemma PushStarts<Job>(c: Joint<Job>, i: nat, job: Job) returns (steps: seq<Step<Job>>, lq: State<Job>)
    requires Cast(c, i)
    ensures Run(c.lq, steps, lq) && Liftable(c, steps)
    ensures Scene(c, lq, i, TP.Popping, Idle, TestCount(PushOp(Try, job)), Idle)
    ensures Props(c.pool, lq, TP.Open, Some(i), None, []) && InsideIdle(c.inside, lq)
  {
    steps, lq := LL.PusherArrives(c.lq, i, job);
  }

  /** The worker pops. */
  lemma WorkerPops<Job>(c: Joint<Job>, i: nat, job: Job) returns (steps: seq<Step<Job>>, lq: State<Job>)
    requires Props(c.pool, c.lq, TP.QueueDisposed, Some(i), None, [])
    requires Scene(c, c.lq, i, TP.Popping, Idle, TestCount(PushOp(Try, job)), SigLock(PopSide, Signal.Dispose))
    ensures Run(c.lq, steps, lq) && Liftable(c, steps)
    ensures Props(c.pool, lq, TP.QueueDisposed, Some(i), Some(0), [])
    ensures Scene(c, lq, i, TP.Popping, Decide(PopOp(Block)), TestCount(PushOp(Try, job)), SigLock(PopSide,
                  Signal.Dispose))
  {
    steps, lq := LL.PopperArrives(c.lq, 0);
  }

  /** The job is accepted all the same, ... */
  lemma JobIsAccepted<Job>(c: Joint<Job>, i: nat, job: Job) returns (steps: seq<Step<Job>>, lq: State<Job>)
    requires Structure(c.lq) && Props(c.pool, c.lq, TP.QueueDisposed, Some(i), None, [])
    requires Scene(c, c.lq, i, TP.Exited, Idle, TestCount(PushOp(Try, job)), SigLock(PopSide, Signal.Dispose))
    ensures Run(c.lq, steps, lq) && Liftable(c, steps)
    ensures Props(c.pool, lq, TP.QueueDisposed, Some(i), None, [job])
    ensures Scene(c, lq, i, TP.Exited, Idle, Cascade(PushSide, 0), SigLock(PopSide, Signal.Dispose))
  {
    steps, lq := LL.PushGoesThrough(c.lq, i);
  }

  /** ... and its pusher is out of its mutex. */
  lemma PusherIsOut<Job>(c: Joint<Job>, i: nat, job: Job) returns (steps: seq<Step<Job>>, lq: State<Job>)
    requires Props(c.pool, c.lq, TP.QueueDisposed, Some(i), None, [job])
    requires Scene(c, c.lq, i, TP.Exited, Idle, Cascade(PushSide, 0), SigLock(PopSide, Signal.Dispose))
    ensures Run(c.lq, steps, lq) && Liftable(c, steps)
    ensures Props(c.pool, lq, TP.QueueDisposed, None, None, [job])
    ensures Scene(c, lq, i, TP.Exited, Idle, SigLock(PopSide, One), SigLock(PopSide, Signal.Dispose))
  {
    steps, lq := PusherLeaves(c.lq, i);
    PlainIsLiftable(c, steps);
  }

  /** The pool's owner notifies one side; nobody sleeps there. */
  lemma OwnerNotifies<Job>(c: Joint<Job>, i: nat, job: Job, side: Side) returns (steps: seq<Step<Job>>, lq: State<Job>)
    requires Props(c.pool, c.lq, TP.QueueDisposed, None, None, [job])
    requires Scene(c, c.lq, i, TP.Exited, Idle, SigLock(PopSide, One), SigLock(side, Signal.Dispose))
    ensures Run(c.lq, steps, lq) && Liftable(c, steps)
    ensures Props(c.pool, lq, TP.QueueDisposed, None, None, [job])
    ensures Scene(c, lq, i, TP.Exited, Idle, SigLock(PopSide, One), AfterSignal(side, Signal.Dispose))
  {
    steps, lq := DisposerNotifies(c.lq, c.owner, side);
    PlainIsLiftable(c, steps);
    OwnerSteps(c, c.lq, lq, i, job, side);
  }

  lemma OwnerSteps<Job>(c: Joint<Job>, s: State<Job>, lq: State<Job>, i: nat, job: Job, side: Side)
    requires Scene(c, s, i, TP.Exited, Idle, SigLock(PopSide, One), SigLock(side, Signal.Dispose))
    requires lq == s.(pcs := s.pcs[c.owner := AfterSignal(side, Signal.Dispose)])
    ensures Scene(c, lq, i, TP.Exited, Idle, SigLock(PopSide, One), AfterSignal(side, Signal.Dispose))
  {}

  /** The pool's dispose returns and joins the worker; the job is still there. */
  lemma DisposeEnds<Job>(c: Joint<Job>, i: nat, job: Job) returns (c': Joint<Job>, c'': Joint<Job>)
    requires Seen(c) && Props(c.pool, c.lq, TP.QueueDisposed, None, None, [job])
    requires Scene(c, c.lq, i, TP.Exited, Idle, SigLock(PopSide, One), Idle)
    ensures Follows(c, PoolReturns, c') && Follows(c', PoolJoins, c'')
    ensures TP.DisposeReturned(c''.pool) && c''.lq == c.lq && c''.pool.executed == []
  {
    c' := Do(c, PoolReturns);
    c'' := Do(c', PoolJoins);
  }

  // ------------------------------------------------------------ the acts

  lemma FirstAct<Job>(c0: Joint<Job>, i: nat, job: Job) returns (p: Path<Job>, c: Joint<Job>)
    requires Cast(c0, i)
    ensures Reached(p, c0, c) && Seen(c) && Props(c.pool, c.lq, TP.QueueDisposed, Some(i), None, [])
    ensures Scene(c, c.lq, i, TP.Popping, Idle, TestCount(PushOp(Try, job)), SigLock(PopSide, Signal.Dispose))
  {
    InitTogether(c0);
    var steps, lq := PushStarts(c0, i, job);
    p := ReachSilently(Path([c0], []), c0, c0, steps, lq);
    var c1 := At(c0, lq);
    var c2 := PoolBegins(c1, i, job);
    p := ReachBy(p, c0, c1, PoolDisposes, c2);
    c := QueueIsDisposed(c2, i, job);
    p := ReachBy(p, c0, c2, Queue(BeginDispose(c2.owner)), c);
  }

  lemma SecondAct<Job>(c0: Joint<Job>, p1: Path<Job>, c1: Joint<Job>, i: nat, job: Job)
    returns (p: Path<Job>, c: Joint<Job>)
    requires Reached(p1, c0, c1) && Seen(c1) && Props(c1.pool, c1.lq, TP.QueueDisposed, Some(i), None, [])
    requires Scene(c1, c1.lq, i, TP.Popping, Idle, TestCount(PushOp(Try, job)), SigLock(PopSide, Signal.Dispose))
    ensures Reached(p, c0, c) && Seen(c) && Props(c.pool, c.lq, TP.QueueDisposed, Some(i), None, [])
    ensures Scene(c, c.lq, i, TP.Exited, Idle, TestCount(PushOp(Try, job)), SigLock(PopSide, Signal.Dispose))
  {
    var steps, lq := WorkerPops(c1, i, job);
    p := ReachSilently(p1, c0, c1, steps, lq);
    var c2 := At(c1, lq);
    var pusher, owner, failed := c1.lq.pcs[i], c1.lq.pcs[c1.owner], Fail(PopOp(Block), ResourceUnavailable);
    var c3 := WorkerIsRefused(c2, i, job);
    WorkerSteps(c2, c3, i, TP.Popping, Decide(PopOp(Block)), TP.Exited, failed, pusher, owner);
    p := ReachBy(p, c0, c2, Queue(DoDecide(0)), c3);
    c := WorkerLeaves(c3, i, job);
    WorkerSteps(c3, c, i, TP.Exited, failed, TP.Exited, Idle, pusher, owner);
    p := ReachBy(p, c0, c3, Queue(DoFail(0)), c);
  }

  lemma ThirdAct<Job>(c0: Joint<Job>, p1: Path<Job>, c1: Joint<Job>, i: nat, job: Job)
    returns (p: Path<Job>, c: Joint<Job>)
    requires Reached(p1, c0, c1) && Seen(c1) && Props(c1.pool, c1.lq, TP.QueueDisposed, Some(i), None, [])
    requires Scene(c1, c1.lq, i, TP.Exited, Idle, TestCount(PushOp(Try, job)), SigLock(PopSide, Signal.Dispose))
    ensures Reached(p, c0, c) && Seen(c) && Props(c.pool, c.lq, TP.QueueDisposed, None, None, [job])
    ensures Scene(c, c.lq, i, TP.Exited, Idle, SigLock(PopSide, One), SigLock(PopSide, Signal.Dispose))
  {
    var steps, lq := JobIsAccepted(c1, i, job);
    p := ReachSilently(p1, c0, c1, steps, lq);
    var c2 := At(c1, lq);
    var leaving, left := PusherIsOut(c2, i, job);
    p := ReachSilently(p, c0, c2, leaving, left);
    c := At(c2, left);
  }

  lemma LastAct<Job>(c0: Joint<Job>, p1: Path<Job>, c1: Joint<Job>, i: nat, job: Job)
    returns (p: Path<Job>, c: Joint<Job>)
    requires Reached(p1, c0, c1) && Seen(c1) && Props(c1.pool, c1.lq, TP.QueueDisposed, None, None, [job])
    requires Scene(c1, c1.lq, i, TP.Exited, Idle, SigLock(PopSide, One), SigLock(PopSide, Signal.Dispose))
    ensures Reached(p, c0, c) && TP.DisposeReturned(c.pool) && c.lq.accepted == [job] && c.pool.executed == []
  {
    var steps, lq := OwnerNotifies(c1, i, job, PopSide);
    p := ReachSilently(p1, c0, c1, steps, lq);
    var c2 := At(c1, lq);
    steps, lq := OwnerNotifies(c2, i, job, PushSide);
    p := ReachSilently(p, c0, c2, steps, lq);
    var c3 := At(c2, lq);
    var c4;
    c4, c := DisposeEnds(c3, i, job);
    p := ReachBy(p, c0, c3, PoolReturns, c4);
    p := ReachBy(p, c0, c4, PoolJoins, c);
  }

  /** In every pool with one worker over a LinkedBQ that somebody else pushes into: a run of
      the pool and the queue together in which dispose returns, no job panics, and an
      accepted job has not been executed. */
  lemma LateOutsidePushIsLost<Job>(c0: Joint<Job>, i: nat, job: Job)
    returns (states: seq<Joint<Job>>, moves: seq<Move<Job>>)
    requires Cast(c0, i)
    ensures JointRun(states, moves) && states[0] == c0 && PanickingJobs(moves) == 0
    ensures var end := states[|moves|];
      TP.DisposeReturned(end.pool) && end.lq.accepted == [job] && end.pool.executed == []
  {
    var p, c := FirstAct(c0, i, job);
    p, c := SecondAct(c0, p, c, i, job);
    p, c := ThirdAct(c0, p, c, i, job);
    p, c := LastAct(c0, p, c, i, job);
    states, moves := p.states, p.moves;
  }
}
