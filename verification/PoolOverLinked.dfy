/** ThreadPool and the linked queue stepped together.  The first threads of the queue
    machine are the workers of the pool, one of the others disposes the pool, and the
    rest push, through the pool or past it.  Every move of the two together is mirrored
    by the pool machine, so what is proved there holds over LinkedBQ. */
module PoolOverLinked {
  import opened Base
  import opened Traces
  import opened QueueOps
  import opened LinkedMachine
  import opened LinkedInvariant
  import opened LinkedDispose
  import opened LinkedTheorems
  import QueueSpec
  import TP = ThreadPool

  /** `inside`: the threads that submit through the pool.  `owner` disposes the pool. */
  datatype Joint<Job> = Joint(lq: State<Job>, pool: TP.State<Job>, inside: set<nat>, owner: nat)

  datatype Move<+Job> =
    | Queue(a: Step<Job>)
    | JobEnds(w: nat, panics: bool)
    | PoolDisposes
    | PoolReturns
    | PoolJoins

  /** What the code of each thread calls: a worker pops when it has no job, the others
      push, through the pool only until it is disposed. */
  predicate Calls<Job>(pool: TP.State<Job>, inside: set<nat>, owner: nat, a: Step<Job>) {
    match a
    case Begin(t, op) =>
      if t < |pool.workers| then op == PopOp(Block) && pool.workers[t].Popping?
      else op.PushOp? && (if t in inside then pool.phase == TP.Open else pool.pushers)
    case BeginDrain(_) => false
    case BeginDispose(t) =>
      |pool.workers| <= t && (if t == owner then pool.phase == TP.Begun else pool.disposers && t !in inside)
    case _ => true
  }

  ghost predicate CanDo<Job>(c: Joint<Job>, m: Move<Job>) {
    match m
    case Queue(a) => Enabled(c.lq, a) && Calls(c.pool, c.inside, c.owner, a)
    case JobEnds(w, _) =>
      w < |c.pool.workers| && c.pool.workers[w].Busy? && w < |c.lq.pcs| && c.lq.pcs[w] == Idle
    // an exclusive reference: nobody is inside a submit
    case PoolDisposes =>
      && c.pool.phase == TP.Open && c.owner < |c.lq.pcs| && c.lq.pcs[c.owner] == Idle
      && forall t :: t in c.inside && t < |c.lq.pcs| ==> c.lq.pcs[t] == Idle
    case PoolReturns => c.pool.phase == TP.QueueDisposed && c.owner < |c.lq.pcs| && c.lq.pcs[c.owner] == Idle
    case PoolJoins =>
      && c.pool.phase.Joining? && c.pool.phase.k < |c.pool.workers| && TP.Gone(c.pool.workers[c.pool.phase.k])
      && c.pool.phase.k < |c.lq.pcs| && c.lq.pcs[c.pool.phase.k] == Idle
  }

  /** The pool behind an action of the queue, its view of the queue apart. */
  function PoolAfter<Job>(c: Joint<Job>, a: Step<Job>): TP.State<Job>
    requires a.t < |c.lq.pcs|
  {
    PoolOn(c, a, EventOf(c.lq, a))
  }

  function PoolOn<Job>(c: Joint<Job>, a: Step<Job>, e: QueueSpec.Event<Job>): TP.State<Job> {
    if a.BeginDispose? then
      if a.t == c.owner then c.pool.(phase := if c.lq.chain.disposed then TP.Joining(0) else TP.QueueDisposed)
      else c.pool
    else c.pool.(workers := WorkersOn(c.pool.workers, a.t, e))
  }

  /** A worker that has got an item is busy with it; one that is refused leaves. */
  function WorkersOn<Job>(ws: seq<TP.Worker<Job>>, t: nat, e: QueueSpec.Event<Job>): (r: seq<TP.Worker<Job>>)
    ensures |r| == |ws| && forall w :: 0 <= w < |ws| && w != t ==> r[w] == ws[w]
  {
    if |ws| <= t then ws
    else match e
      case Deliver(out) => if out == [] then ws else ws[t := TP.Busy(out[0])]
      case Refuse => ws[t := TP.Exited]
      case _ => ws
  }

  ghost function Do<Job>(c: Joint<Job>, m: Move<Job>): Joint<Job>
    requires Structure(c.lq) && CanDo(c, m)
  {
    match m
    case Queue(a) =>
      StepKeepsStructure(c.lq, a);
      c.(lq := Apply(c.lq, a), pool := PoolAfter(c, a).(q := Abstract(Apply(c.lq, a))))
    case JobEnds(w, panics) =>
      var job := c.pool.workers[w].job;
      c.(pool := c.pool.(workers := c.pool.workers[w := if panics then TP.Crashed else TP.Popping],
                         executed := c.pool.executed + [job]))
    case PoolDisposes => c.(pool := c.pool.(phase := TP.Begun))
    case PoolReturns => c.(pool := c.pool.(phase := TP.Joining(0)))
    case PoolJoins => c.(pool := c.pool.(phase := TP.Joining(c.pool.phase.k + 1)))
  }

  // ------------------------------------------------------------ rows

  /** The operation a thread is inside of, up to its commitment. */
  function OpOf<T>(p: Pc<T>): Option<Op<T>> {
    match p
    case Lock(op) => Some(op)
    case Test(op) => Some(op)
    case TestCount(op) => Some(op)
    case Pred(op) => Some(op)
    case PredCount(op) => Some(op)
    case GoSleep(op) => Some(op)
    case Asleep(op) => Some(op)
    case Relock(op) => Some(op)
    case Decide(op) => Some(op)
    case _ => None
  }

  /** In a blocking pop that has not taken effect. */
  predicate BeforePop<T>(p: Pc<T>) {
    OpOf(p) == Some(PopOp(Block)) || p.Take? || p.Free? || p.Sub?
  }

  /** In a push that has not taken effect. */
  predicate UnderWay<T>(p: Pc<T>) {
    (OpOf(p).Some? && OpOf(p).value.PushOp?) || p.Link? || p.Advance? || p.Add?
  }

  /** Outside every operation, or past the point where it takes effect. */
  predicate Passive<T>(p: Pc<T>) {
    p.Idle? || p.Cascade? || p.SigLock? || p.SigHeld? || p.Fail?
    || (p.Unlock? && (p.next.Idle? || p.next.SigLock?))
  }

  predicate PopRow<T>(p: Pc<T>) {
    BeforePop(p) || Passive(p)
  }

  predicate PushRow<T>(p: Pc<T>) {
    UnderWay(p) || Passive(p)
  }

  ghost predicate RowOk<Job>(c: Joint<Job>, t: nat)
    requires t < |c.lq.pcs|
  {
    var p := c.lq.pcs[t];
    if t < |c.pool.workers| then PopRow(p) && (BeforePop(p) ==> c.pool.workers[t].Popping?)
    else PushRow(p) && (UnderWay(p) ==> if t in c.inside then c.pool.phase == TP.Open else c.pool.pushers)
  }

  /** A worker's own step. */
  ghost predicate PopMove<T>(s: State<T>, a: Step<T>)
    requires Enabled(s, a)
  {
    && |Apply(s, a).pcs| == |s.pcs|
    && var p, p', e := s.pcs[a.t], Apply(s, a).pcs[a.t], EventOf(s, a);
       && PopRow(p') && (BeforePop(p') ==> BeforePop(p) || a.Begin?)
       && !e.Accept? && !e.Dispose?
       && (e.Deliver? ==> |e.out| == 1)
       && (e.Deliver? || e.Refuse? ==> BeforePop(p) && !BeforePop(p'))
  }

  lemma PopRowTakes<T>(s: State<T>, a: Step<T>)
    requires Enabled(s, a) && PopRow(s.pcs[a.t]) && ChainAction(a)
    ensures a.DoTake? || a.DoFree? || a.DoSub?
  {}

  lemma PopMoveChain<T>(s: State<T>, a: Step<T>)
    requires Enabled(s, a) && (a.DoTake? || a.DoFree? || a.DoSub?)
    ensures PopMove(s, a)
  {}

  lemma PopMoveDecide<T>(s: State<T>, a: Step<T>)
    requires Enabled(s, a) && PopRow(s.pcs[a.t]) && (Decides(a) || a.DoPred?)
    ensures PopMove(s, a)
  {}

  lemma PopMoveOther<T>(s: State<T>, a: Step<T>)
    requires Enabled(s, a) && PopRow(s.pcs[a.t]) && !ChainAction(a) && !Decides(a) && !a.DoPred?
    requires !a.BeginDrain? && !a.BeginDispose? && (a.Begin? ==> a.op == PopOp(Block))
    ensures PopMove(s, a)
  {}

  /** A client's own step. */
  ghost predicate PushMove<T>(s: State<T>, a: Step<T>)
    requires Enabled(s, a)
  {
    && |Apply(s, a).pcs| == |s.pcs|
    && var p, p', e := s.pcs[a.t], Apply(s, a).pcs[a.t], EventOf(s, a);
       && PushRow(p') && (UnderWay(p') ==> UnderWay(p) || a.Begin?)
       && !e.Deliver? && !e.Refuse? && (e.Accept? ==> UnderWay(p)) && (e.Dispose? ==> a.BeginDispose?)
  }

  lemma PushRowLinks<T>(s: State<T>, a: Step<T>)
    requires Enabled(s, a) && PushRow(s.pcs[a.t]) && ChainAction(a)
    ensures a.DoLink? || a.DoAdvance? || a.DoAdd?
  {}

  lemma PushMoveChain<T>(s: State<T>, a: Step<T>)
    requires Enabled(s, a) && (a.DoLink? || a.DoAdvance? || a.DoAdd?)
    ensures PushMove(s, a)
  {}

  lemma PushMoveDecide<T>(s: State<T>, a: Step<T>)
    requires Enabled(s, a) && PushRow(s.pcs[a.t]) && (Decides(a) || a.DoPred?)
    ensures PushMove(s, a)
  {}

  lemma PushMoveOther<T>(s: State<T>, a: Step<T>)
    requires Enabled(s, a) && PushRow(s.pcs[a.t]) && !ChainAction(a) && !Decides(a) && !a.DoPred?
    requires !a.BeginDrain? && (a.Begin? ==> a.op.PushOp?)
    ensures PushMove(s, a)
  {}

  // ------------------------------------------------------------ invariant

  /** Whoever still has to notify for a dispose is the one that won it; if that is the
      pool, it is the pool's owner. */
  ghost predicate WinnerKnown<Job>(c: Joint<Job>) {
    && (!c.lq.chain.disposed ==> forall t :: 0 <= t < |c.lq.pcs| ==> !Pending(c.lq.pcs[t], PushSide))
    && (c.pool.phase == TP.QueueDisposed ==>
          c.lq.chain.disposed && forall t :: 0 <= t < |c.lq.pcs| && Pending(c.lq.pcs[t], PushSide) ==> t == c.owner)
  }

  ghost predicate RolesFit<Job>(c: Joint<Job>) {
    && |c.pool.workers| <= c.owner < |c.lq.pcs|
    && forall t :: t in c.inside ==> |c.pool.workers| <= t
  }

  ghost predicate Together<Job>(c: Joint<Job>) {
    && Inv(c.lq) && c.pool.q == Abstract(c.lq) && !c.pool.strict && !c.pool.takers
    && RolesFit(c) && WinnerKnown(c)
    && forall t :: 0 <= t < |c.lq.pcs| ==> RowOk(c, t)
  }

  lemma OwnRow<Job>(c: Joint<Job>, a: Step<Job>)
    requires Together(c) && CanDo(c, Queue(a))
    ensures if a.t < |c.pool.workers| then PopMove(c.lq, a) else PushMove(c.lq, a)
  {
    assert RowOk(c, a.t);
    if a.t < |c.pool.workers| {
      if ChainAction(a) {
        PopRowTakes(c.lq, a);
        PopMoveChain(c.lq, a);
      } else if Decides(a) || a.DoPred? {
        PopMoveDecide(c.lq, a);
      } else {
        PopMoveOther(c.lq, a);
      }
    } else {
      if ChainAction(a) {
        PushRowLinks(c.lq, a);
        PushMoveChain(c.lq, a);
      } else if Decides(a) || a.DoPred? {
        PushMoveDecide(c.lq, a);
      } else {
        PushMoveOther(c.lq, a);
      }
    }
  }

  lemma WakingKeepsRow<T>(p: Pc<T>, p': Pc<T>)
    requires p' == p || (p.Asleep? && p' == Relock(p.op))
    ensures PopRow(p') == PopRow(p) && BeforePop(p') == BeforePop(p)
    ensures PushRow(p') == PushRow(p) && UnderWay(p') == UnderWay(p)
  {}

  /** What the pool keeps when the queue acts. */
  lemma PoolBarelyMoves<Job>(c: Joint<Job>, a: Step<Job>, e: QueueSpec.Event<Job>, w: nat)
    requires Calls(c.pool, c.inside, c.owner, a)
    ensures PoolOn(c, a, e).pushers == c.pool.pushers && |PoolOn(c, a, e).workers| == |c.pool.workers|
    ensures w < |c.pool.workers| && w != a.t ==> PoolOn(c, a, e).workers[w] == c.pool.workers[w]
    ensures c.pool.phase == TP.Open ==> PoolOn(c, a, e).phase == TP.Open
  {}

  /** A row stays in order if the thread and its part of the pool do. */
  lemma RowStaysOk<Job>(c: Joint<Job>, c': Joint<Job>, t: nat)
    requires t < |c.lq.pcs| && t < |c'.lq.pcs| && RowOk(c, t) && |c'.pool.workers| == |c.pool.workers|
    requires var p, p' := c.lq.pcs[t], c'.lq.pcs[t]; p' == p || (p.Asleep? && p' == Relock(p.op))
    requires t < |c.pool.workers| ==> c'.pool.workers[t] == c.pool.workers[t]
    requires c.pool.phase == TP.Open ==> c'.pool.phase == TP.Open
    requires c'.inside == c.inside && c'.pool.pushers == c.pool.pushers
    ensures RowOk(c', t)
  {
    WakingKeepsRow(c.lq.pcs[t], c'.lq.pcs[t]);
  }

  lemma RowsStayOk<Job>(c: Joint<Job>, a: Step<Job>, t: nat)
    requires Together(c) && CanDo(c, Queue(a)) && t < |c.lq.pcs|
    ensures t < |Apply(c.lq, a).pcs| && RowOk(Do(c, Queue(a)), t)
  {
    assert RowOk(c, t);
    if t == a.t {
      OwnRow(c, a);
      OwnRowStaysOk(c, a);
    } else {
      OthersStay(c.lq, a, t);
      PoolBarelyMoves(c, a, EventOf(c.lq, a), t);
      RowStaysOk(c, Do(c, Queue(a)), t);
    }
  }

  lemma OwnRowStaysOk<Job>(c: Joint<Job>, a: Step<Job>)
    requires Together(c) && CanDo(c, Queue(a))
    requires if a.t < |c.pool.workers| then PopMove(c.lq, a) else PushMove(c.lq, a)
    ensures RowOk(Do(c, Queue(a)), a.t)
  {
    assert RowOk(c, a.t);
  }

  // ------------------------------------------------------- who has to notify

  lemma ChainActionsDoNotPend<T>(s: State<T>, a: Step<T>)
    requires Enabled(s, a) && (ChainAction(a) || Decides(a) || a.DoPred?)
    ensures |Apply(s, a).pcs| == |s.pcs| && !Pending(Apply(s, a).pcs[a.t], PushSide)
  {}

  lemma OtherActionsDoNotPend<T>(s: State<T>, a: Step<T>)
    requires Enabled(s, a) && LocalOk(s.chain, s.pcs[a.t]) && !ChainAction(a) && !Decides(a) && !a.DoPred?
    requires !a.BeginDispose? || s.chain.disposed
    ensures |Apply(s, a).pcs| == |s.pcs| && (Pending(Apply(s, a).pcs[a.t], PushSide) ==> Pending(s.pcs[a.t], PushSide))
  {}

  /** Nobody but the winner of a dispose comes to owe its notifies. */
  lemma NobodyElsePends<T>(s: State<T>, a: Step<T>, i: nat)
    requires Structure(s) && Enabled(s, a) && (!a.BeginDispose? || s.chain.disposed || i != a.t) && i < |s.pcs|
    ensures |Apply(s, a).pcs| == |s.pcs| && (Pending(Apply(s, a).pcs[i], PushSide) ==> Pending(s.pcs[i], PushSide))
  {
    if i != a.t {
      OthersStay(s, a, i);
    } else if ChainAction(a) || Decides(a) || a.DoPred? {
      ChainActionsDoNotPend(s, a);
    } else {
      HolderIsOwner(s, a.t);
      assert LocalOk(s.chain, s.pcs[a.t]);
      OtherActionsDoNotPend(s, a);
    }
  }

  lemma WinnerStaysKnown<Job>(c: Joint<Job>, a: Step<Job>)
    requires Together(c) && CanDo(c, Queue(a))
    ensures WinnerKnown(Do(c, Queue(a)))
  {
    HistoriesMove(c.lq, a);
    LocksMove(c.lq, a);
    var wins := a.BeginDispose? && !c.lq.chain.disposed;
    forall i | 0 <= i < |c.lq.pcs| && !(wins && i == a.t)
      ensures i < |Apply(c.lq, a).pcs|
      ensures Pending(Apply(c.lq, a).pcs[i], PushSide) ==> Pending(c.lq.pcs[i], PushSide)
    {
      NobodyElsePends(c.lq, a, i);
    }
    WinnerFollows(c, Do(c, Queue(a)), a.t, wins);
  }

  lemma WinnerFollows<Job>(c: Joint<Job>, c': Joint<Job>, t: nat, wins: bool)
    requires WinnerKnown(c) && |c'.lq.pcs| == |c.lq.pcs| && c'.owner == c.owner
    requires c'.lq.chain.disposed == (c.lq.chain.disposed || wins) && (wins ==> !c.lq.chain.disposed)
    requires forall i :: 0 <= i < |c.lq.pcs| && !(wins && i == t) ==>
               (Pending(c'.lq.pcs[i], PushSide) ==> Pending(c.lq.pcs[i], PushSide))
    requires c'.pool.phase == TP.QueueDisposed && c.pool.phase != TP.QueueDisposed ==> wins && t == c.owner
    ensures WinnerKnown(c')
  {}

  lemma QueueKeepsTogether<Job>(c: Joint<Job>, a: Step<Job>)
    requires Together(c) && CanDo(c, Queue(a))
    ensures Together(Do(c, Queue(a)))
  {
    var c' := Do(c, Queue(a));
    StepKeepsInv(c.lq, a);
    LocksMove(c.lq, a);
    WinnerStaysKnown(c, a);
    forall t | 0 <= t < |c'.lq.pcs| ensures RowOk(c', t) {
      RowsStayOk(c, a, t);
    }
  }

  lemma PoolKeepsTogether<Job>(c: Joint<Job>, m: Move<Job>)
    requires Together(c) && CanDo(c, m) && !m.Queue?
    ensures Together(Do(c, m))
  {
    var c' := Do(c, m);
    forall t | 0 <= t < |c'.lq.pcs| ensures RowOk(c', t) {
      assert RowOk(c, t);
    }
  }

  // ---------------------------------------------------------- the mirror

  /** What the pool machine does for an event of the queue. */
  function EventSteps<Job>(c: Joint<Job>, a: Step<Job>): seq<TP.Step<Job>>
    requires a.t < |c.lq.pcs|
  {
    var e := EventOf(c.lq, a);
    if a.BeginDispose? then
      if a.t == c.owner then [TP.DisposeQueue] else if c.lq.chain.disposed then [] else [TP.OutsideDispose]
    else match e
      case Accept(x) => if a.t in c.inside then [TP.Submit(x)] else [TP.OutsidePush(x)]
      case Deliver(_) => [TP.Pop(a.t)]
      case Refuse => [TP.Refused(a.t)]
      case _ => []
  }

  /** The queue's contents behind an event, before it may close. */
  ghost function QueueBetween<Job>(c: Joint<Job>, a: Step<Job>): QueueSpec.Queue<Job>
    requires Structure(c.lq) && Enabled(c.lq, a)
  {
    StepKeepsStructure(c.lq, a);
    Abstract(Apply(c.lq, a)).(closed := Abstract(c.lq).closed)
  }

  function CloseSteps<Job>(q: QueueSpec.Queue<Job>, q': QueueSpec.Queue<Job>): seq<TP.Step<Job>> {
    if q'.closed && !q.closed then [TP.QueueCloses] else []
  }

  ghost function Mirror<Job>(c: Joint<Job>, m: Move<Job>): seq<TP.Step<Job>>
    requires Structure(c.lq) && CanDo(c, m)
  {
    match m
    case Queue(a) => EventSteps(c, a) + CloseSteps(Abstract(c.lq), Do(c, m).pool.q)
    case JobEnds(w, panics) => [if panics then TP.JobPanics(w) else TP.JobDone(w)]
    case PoolDisposes => [TP.BeginDispose]
    case PoolReturns => [TP.QueueDisposeReturns]
    case PoolJoins => [TP.JoinWorker]
  }

  lemma OneStep<Job>(s: TP.State<Job>, a: TP.Step<Job>)
    requires TP.Enabled(s, a)
    ensures TP.Run(s, [a], TP.Apply(s, a))
  {
    assert [a][1..] == [];
    assert TP.Run(TP.Apply(s, a), [], TP.Apply(s, a));
  }

  lemma NoStep<Job>(s: TP.State<Job>)
    ensures TP.Run(s, [], s)
  {}

  lemma {:induction false} RunConcat<Job>(s: TP.State<Job>, before: seq<TP.Step<Job>>, mid: TP.State<Job>,
                                          after: seq<TP.Step<Job>>, end: TP.State<Job>)
    requires TP.Run(s, before, mid) && TP.Run(mid, after, end)
    ensures TP.Run(s, before + after, end)
    ensures TP.Panics(before + after) == TP.Panics(before) + TP.Panics(after)
    decreases before
  {
    if before == [] {
      assert before + after == after;
    } else {
      RunConcat(TP.Apply(s, before[0]), before[1..], mid, after, end);
      assert (before + after)[1..] == before[1..] + after;
    }
  }

  lemma ClosingMirrors<Job>(pool: TP.State<Job>, q': QueueSpec.Queue<Job>)
    requires q' == pool.q.(closed := q'.closed) && (pool.q.closed ==> q'.closed) && (q'.closed ==> q'.disposed)
    ensures TP.Run(pool, CloseSteps(pool.q, q'), pool.(q := q'))
  {
    if q'.closed && !pool.q.closed {
      OneStep(pool, TP.QueueCloses);
    } else {
      NoStep(pool);
      assert pool.(q := q') == pool;
    }
  }

  /** An item is accepted. */
  lemma AcceptMirrors<Job>(c: Joint<Job>, a: Step<Job>)
    requires Together(c) && CanDo(c, Queue(a)) && EventOf(c.lq, a).Accept?
    ensures TP.Run(c.pool, EventSteps(c, a), PoolAfter(c, a).(q := QueueBetween(c, a)))
  {
    OwnRow(c, a);
    assert RowOk(c, a.t);
    StepRefines(c.lq, a);
    OneStep(c.pool, EventSteps(c, a)[0]);
  }

  /** A worker gets a job. */
  lemma DeliverMirrors<Job>(c: Joint<Job>, a: Step<Job>)
    requires Together(c) && CanDo(c, Queue(a)) && EventOf(c.lq, a).Deliver?
    ensures TP.Run(c.pool, EventSteps(c, a), PoolAfter(c, a).(q := QueueBetween(c, a)))
  {
    OwnRow(c, a);
    assert RowOk(c, a.t);
    StepRefines(c.lq, a);
    var out := EventOf(c.lq, a).out;
    assert out <= c.pool.q.items && out == [out[0]] && c.pool.q.items[..1] == out;
    OneStep(c.pool, TP.Pop(a.t));
  }

  /** A worker is refused and leaves. */
  lemma RefuseMirrors<Job>(c: Joint<Job>, a: Step<Job>)
    requires Together(c) && CanDo(c, Queue(a)) && EventOf(c.lq, a).Refuse?
    ensures TP.Run(c.pool, EventSteps(c, a), PoolAfter(c, a).(q := QueueBetween(c, a)))
  {
    OwnRow(c, a);
    assert RowOk(c, a.t);
    StepRefines(c.lq, a);
    OneStep(c.pool, TP.Refused(a.t));
  }

  /** The queue is disposed, by the pool or from outside, or was before. */
  lemma DisposeMirrors<Job>(c: Joint<Job>, a: Step<Job>)
    requires Together(c) && CanDo(c, Queue(a)) && a.BeginDispose?
    ensures TP.Run(c.pool, EventSteps(c, a), PoolAfter(c, a).(q := QueueBetween(c, a)))
  {
    StepRefines(c.lq, a);
    if a.t == c.owner {
      OneStep(c.pool, TP.DisposeQueue);
    } else if c.lq.chain.disposed {
      NoStep(c.pool);
    } else {
      OneStep(c.pool, TP.OutsideDispose);
    }
  }

  /** Nothing the pool can see. */
  lemma QuietMirrors<Job>(c: Joint<Job>, a: Step<Job>)
    requires Together(c) && CanDo(c, Queue(a)) && !a.BeginDispose?
    requires var e := EventOf(c.lq, a); !e.Accept? && !e.Deliver? && !e.Refuse?
    ensures TP.Run(c.pool, EventSteps(c, a), PoolAfter(c, a).(q := QueueBetween(c, a)))
  {
    OwnRow(c, a);
    StepRefines(c.lq, a);
    NoStep(c.pool);
    assert PoolAfter(c, a).(q := QueueBetween(c, a)) == c.pool;
  }

  lemma EventMirrors<Job>(c: Joint<Job>, a: Step<Job>)
    requires Together(c) && CanDo(c, Queue(a))
    ensures TP.Run(c.pool, EventSteps(c, a), PoolAfter(c, a).(q := QueueBetween(c, a)))
  {
    if a.BeginDispose? {
      DisposeMirrors(c, a);
    } else {
      match EventOf(c.lq, a)
      case Accept(_) => AcceptMirrors(c, a);
      case Deliver(_) => DeliverMirrors(c, a);
      case Refuse => RefuseMirrors(c, a);
      case _ => QuietMirrors(c, a);
    }
  }

  lemma ClosedOnlyWhenDisposed<Job>(c: Joint<Job>, a: Step<Job>)
    requires Together(c) && Enabled(c.lq, a)
    ensures Structure(Apply(c.lq, a))
    ensures var q' := Abstract(Apply(c.lq, a)); (c.pool.q.closed ==> q'.closed) && (q'.closed ==> q'.disposed)
  {
    StepRefines(c.lq, a);
  }

  lemma MirrorUnfolds<Job>(c: Joint<Job>, a: Step<Job>)
    requires Structure(c.lq) && CanDo(c, Queue(a))
    ensures Mirror(c, Queue(a)) == EventSteps(c, a) + CloseSteps(QueueBetween(c, a), Do(c, Queue(a)).pool.q)
    ensures Do(c, Queue(a)).pool == PoolAfter(c, a).(q := Do(c, Queue(a)).pool.q)
    ensures Do(c, Queue(a)).pool.q == QueueBetween(c, a).(closed := Do(c, Queue(a)).pool.q.closed)
    ensures Structure(Apply(c.lq, a)) && Do(c, Queue(a)).pool.q == Abstract(Apply(c.lq, a))
    ensures QueueBetween(c, a).closed == Abstract(c.lq).closed
  {
    StepKeepsStructure(c.lq, a);
  }

  lemma EventStepsArePlain<Job>(c: Joint<Job>, a: Step<Job>)
    requires a.t < |c.lq.pcs|
    ensures TP.Panics(EventSteps(c, a)) == 0
  {
    NoPanicInMirror(EventSteps(c, a));
  }

  /** Every action of the queue is a move of the pool machine. */
  lemma QueueMirrors<Job>(c: Joint<Job>, a: Step<Job>)
    requires Together(c) && CanDo(c, Queue(a))
    ensures TP.Run(c.pool, Mirror(c, Queue(a)), Do(c, Queue(a)).pool)
    ensures TP.Panics(Mirror(c, Queue(a))) == 0
  {
    EventMirrors(c, a);
    ClosedOnlyWhenDisposed(c, a);
    MirrorUnfolds(c, a);
    EventStepsArePlain(c, a);
    var q' := Do(c, Queue(a)).pool.q;
    EventThenClosing(c.pool, EventSteps(c, a), PoolAfter(c, a).(q := QueueBetween(c, a)), q');
  }

  lemma EventThenClosing<Job>(pool: TP.State<Job>, steps: seq<TP.Step<Job>>, between: TP.State<Job>,
                              q': QueueSpec.Queue<Job>)
    requires TP.Run(pool, steps, between)
    requires q' == between.q.(closed := q'.closed) && (between.q.closed ==> q'.closed) && (q'.closed ==> q'.disposed)
    ensures TP.Run(pool, steps + CloseSteps(between.q, q'), between.(q := q'))
    ensures TP.Panics(steps + CloseSteps(between.q, q')) == TP.Panics(steps)
  {
    ClosingMirrors(between, q');
    RunConcat(pool, steps, between, CloseSteps(between.q, q'), between.(q := q'));
    NoPanicInMirror(CloseSteps(between.q, q'));
  }

  lemma NoPanicInMirror<Job>(steps: seq<TP.Step<Job>>)
    requires |steps| <= 1 && forall k :: 0 <= k < |steps| ==> !steps[k].JobPanics?
    ensures TP.Panics(steps) == 0
  {}

  /** Every move of the pool's own is too; its dispose returns only from a closed queue. */
  lemma PoolMirrors<Job>(c: Joint<Job>, m: Move<Job>)
    requires Together(c) && CanDo(c, m) && !m.Queue?
    ensures TP.Run(c.pool, Mirror(c, m), Do(c, m).pool)
    ensures TP.Panics(Mirror(c, m)) == (if m.JobEnds? && m.panics then 1 else 0)
  {
    if m.PoolReturns? {
      ReturnedMeansClosed(c);
    }
    OneStep(c.pool, Mirror(c, m)[0]);
  }

  lemma ReturnedMeansClosed<Job>(c: Joint<Job>)
    requires Together(c) && CanDo(c, PoolReturns)
    ensures Abstract(c.lq).closed
  {
    forall t | 0 <= t < |c.lq.pcs| ensures !Pending(c.lq.pcs[t], PushSide) {
      assert c.lq.pcs[c.owner] == Idle;
    }
    DisposeStrandsNobody(c.lq, PushSide);
  }

  // ------------------------------------------------------------ runs

  ghost predicate Follows<Job>(c: Joint<Job>, m: Move<Job>, c': Joint<Job>) {
    Structure(c.lq) && CanDo(c, m) && c' == Do(c, m)
  }

  /** The joint states of a run, and the moves between them. */
  ghost predicate JointRun<Job>(states: seq<Joint<Job>>, moves: seq<Move<Job>>) {
    Trace(Follows, states, moves)
  }

  function PanickingJobs<Job>(moves: seq<Move<Job>>): nat {
    if moves == [] then 0 else PanickingJobs(moves[..|moves| - 1]) + Panicking(moves[|moves| - 1])
  }

  function Panicking<Job>(m: Move<Job>): nat {
    if m.JobEnds? && m.panics then 1 else 0
  }

  ghost predicate JointInit<Job>(c: Joint<Job>) {
    && Init(c.lq) && TP.Init(c.pool) && c.pool.q.capacity == c.lq.chain.capacity
    && !c.pool.strict && !c.pool.takers && RolesFit(c)
  }

  lemma InitTogether<Job>(c: Joint<Job>)
    requires JointInit(c)
    ensures Together(c)
  {
    InitInv(c.lq);
    assert Items(c.lq) == [];
  }

  lemma MoveMirrors<Job>(c: Joint<Job>, m: Move<Job>, c': Joint<Job>)
    requires Together(c) && Follows(c, m, c')
    ensures Together(c') && TP.Run(c.pool, Mirror(c, m), c'.pool) && TP.Panics(Mirror(c, m)) == Panicking(m)
  {
    if m.Queue? {
      QueueMirrors(c, m.a);
      QueueKeepsTogether(c, m.a);
    } else {
      PoolMirrors(c, m);
      PoolKeepsTogether(c, m);
    }
  }

  /** Every run of the two together is a run of the pool machine. */
  lemma {:induction false} RunMirrors<Job>(states: seq<Joint<Job>>, moves: seq<Move<Job>>, k: nat)
    returns (steps: seq<TP.Step<Job>>)
    requires JointRun(states, moves) && Together(states[0]) && k <= |moves|
    ensures Together(states[k]) && TP.Run(states[0].pool, steps, states[k].pool)
    ensures TP.Panics(steps) == PanickingJobs(moves[..k])
  {
    if k == 0 {
      NoStep(states[0].pool);
      steps := [];
    } else {
      var before := RunMirrors(states, moves, k - 1);
      var c, m := states[k - 1], moves[k - 1];
      assert Follows(states[k - 1], moves[k - 1], states[k - 1 + 1]);
      MoveMirrors(c, m, states[k]);
      RunConcat(states[0].pool, before, c.pool, Mirror(c, m), states[k].pool);
      assert moves[..k][..k - 1] == moves[..k - 1];
      steps := before + Mirror(c, m);
    }
  }

  /** A ThreadPool over a LinkedBQ executes every job the queue accepts exactly once, under
      every schedule of the queue's own actions, if fewer jobs panic than there are
      workers and nobody else pushes into the queue or disposes it. */
  lemma EveryJobRunsOnce<Job>(states: seq<Joint<Job>>, moves: seq<Move<Job>>)
    requires JointRun(states, moves) && JointInit(states[0]) && TP.DisposeReturned(states[|moves|].pool)
    requires PanickingJobs(moves) < |states[0].pool.workers|
    requires !states[0].pool.pushers && !states[0].pool.disposers
    ensures var end := states[|moves|];
      multiset(end.pool.executed) == multiset(end.lq.accepted) && end.lq.delivered == end.lq.accepted
  {
    InitTogether(states[0]);
    var steps := RunMirrors(states, moves, |moves|);
    assert moves[..|moves|] == moves;
    TP.EveryJobRunsOnceDespitePanics(states[0].pool, steps, states[|moves|].pool);
    assert multiset(states[|moves|].pool.taken) == multiset{};
  }
}
