/** What every reachable state of the array queue satisfies: who holds the mutex,
    how buffer, counters and histories fit together, that no wakeup is lost
    although notifies come after unlocking, and that dispose strands nobody. */
module ArrayInvariant {
  import opened Base
  import opened Counting
  import opened QueueOps
  import opened ArrayMachine

  // ------------------------------------------------------------ structure

  /** The program counter of the thread that owns the mutex. */
  function Owner<T>(s: State<T>): Pc<T> {
    if s.lock.Some? && s.lock.value < |s.pcs| then s.pcs[s.lock.value] else Idle
  }

  ghost predicate LockExact<T>(s: State<T>) {
    forall t :: 0 <= t < |s.pcs| ==> (Holds(s.pcs[t]) <==> s.lock == Some(t))
  }

  ghost predicate WaitersExact<T>(s: State<T>) {
    && s.buf.pushWaiters == Sum(s.pcs, WaitingPush)
    && s.buf.popWaiters == Sum(s.pcs, WaitingPop)
  }

  /** What the owner of the mutex may rely on. */
  predicate LocalOk<T>(b: Buffer<T>, p: Pc<T>) {
    match p
    case GoSleep(op) => Blocked(b, OpSide(op))
    case Decide(op) => b.disposed || !Blocked(b, OpSide(op))
    case Commit(op) => !Blocked(b, OpSide(op))
    case Fail(op, err) => err == ResourceUnavailable ==> b.disposed && (op.PopOp? ==> b.items == [])
    case Unlock(next) => next.Idle? || next.Notify? || (next.NotifyAll? && !next.disposing)
    case _ => true
  }

  ghost predicate Core<T>(b: Buffer<T>, p: Pc<T>, accepted: seq<T>, delivered: seq<T>) {
    && 0 < b.capacity && |b.items| <= b.capacity
    && LocalOk(b, p)
    && accepted == delivered + b.items
  }

  ghost predicate Structure<T>(s: State<T>) {
    && LockExact(s) && WaitersExact(s)
    && Core(s.buf, Owner(s), s.accepted, s.delivered)
  }

  /** Thread `t` moves, and the waiter counters move with it. */
  ghost predicate Moves<T>(s: State<T>, s': State<T>, t: nat) {
    && t < |s.pcs| && |s'.pcs| == |s.pcs| && s'.pcs == s.pcs[t := s'.pcs[t]]
    && s'.buf.pushWaiters + WaitingPush(s.pcs[t]) == s.buf.pushWaiters + WaitingPush(s'.pcs[t])
    && s'.buf.popWaiters + WaitingPop(s.pcs[t]) == s.buf.popWaiters + WaitingPop(s'.pcs[t])
  }

  lemma MoveKeepsStructure<T>(s: State<T>, s': State<T>, t: nat)
    requires Structure(s) && Moves(s, s', t)
    requires s'.lock == (if Holds(s'.pcs[t]) then Some(t) else if Holds(s.pcs[t]) then None else s.lock)
    requires Holds(s'.pcs[t]) ==> Holds(s.pcs[t]) || s.lock == None
    requires Core(s'.buf, if Holds(s'.pcs[t]) then s'.pcs[t] else if Holds(s.pcs[t]) then Idle else Owner(s),
                  s'.accepted, s'.delivered)
    ensures Structure(s')
  {
    SumUpdate(s.pcs, t, s'.pcs[t], WaitingPush);
    SumUpdate(s.pcs, t, s'.pcs[t], WaitingPop);
    assert LockExact(s');
  }

  ghost predicate Wakes<T>(pcs: seq<Pc<T>>, pcs': seq<Pc<T>>) {
    && |pcs'| == |pcs|
    && forall i :: 0 <= i < |pcs| ==>
         pcs'[i] == pcs[i] || (pcs[i].Asleep? && pcs'[i] == Relock(pcs[i].op))
  }

  lemma WakeKeepsStructure<T>(s: State<T>, pcs': seq<Pc<T>>)
    requires Structure(s) && Wakes(s.pcs, pcs')
    ensures Structure(s.(pcs := pcs'))
  {
    SumSame(s.pcs, pcs', WaitingPush);
    SumSame(s.pcs, pcs', WaitingPop);
    assert Owner(s.(pcs := pcs')) == Owner(s);
  }

  lemma HolderIsOwner<T>(s: State<T>, t: nat)
    requires Structure(s) && t < |s.pcs| && Holds(s.pcs[t])
    ensures s.lock == Some(t) && Owner(s) == s.pcs[t] && LocalOk(s.buf, s.pcs[t])
  {}

  lemma BeginKeeps<T>(s: State<T>, a: Step<T>)
    requires Structure(s) && Enabled(s, a) && (a.Begin? || a.BeginDrain? || a.Awaken? || a.TakeLock?)
    ensures Structure(Apply(s, a))
  {
    MoveKeepsStructure(s, Apply(s, a), a.t);
  }

  lemma DisposeKeeps<T>(s: State<T>, a: Step<T>)
    requires Structure(s) && Enabled(s, a) && a.BeginDispose?
    ensures Structure(Apply(s, a))
  {
    if !s.buf.disposed {
      assert LocalOk(s.buf.(disposed := true), Owner(s));
      MoveKeepsStructure(s, Apply(s, a), a.t);
    }
  }

  lemma TestKeeps<T>(s: State<T>, a: Step<T>)
    requires Structure(s) && Enabled(s, a) && (a.DoTest? || a.DoDecide? || a.DoSleep? || a.DropLock? || a.DoFail?)
    ensures Structure(Apply(s, a))
  {
    HolderIsOwner(s, a.t);
    MoveKeepsStructure(s, Apply(s, a), a.t);
  }

  lemma PredKeeps<T>(s: State<T>, a: Step<T>)
    requires Structure(s) && Enabled(s, a) && a.DoPred?
    ensures Structure(Apply(s, a))
  {
    HolderIsOwner(s, a.t);
    SumAtLeast(s.pcs, a.t, WaitingPush);
    SumAtLeast(s.pcs, a.t, WaitingPop);
    MoveKeepsStructure(s, Apply(s, a), a.t);
  }

  lemma CommitKeeps<T>(s: State<T>, a: Step<T>)
    requires Structure(s) && Enabled(s, a) && (a.DoCommit? || a.DoDrain?)
    ensures Structure(Apply(s, a))
  {
    HolderIsOwner(s, a.t);
    MoveKeepsStructure(s, Apply(s, a), a.t);
  }

  lemma NotifyKeeps<T>(s: State<T>, a: Step<T>)
    requires Structure(s) && Enabled(s, a) && (a.DoNotify? || a.DoNotifyAll?)
    ensures Structure(Apply(s, a))
  {
    var p := s.pcs[a.t];
    var next := if a.DoNotify? then AfterNotify(p.signals)
                else if p.disposing && p.side == PopSide then NotifyAll(PushSide, true) else Idle;
    MoveKeepsStructure(s, Goto(s, a.t, next), a.t);
    WakeKeepsStructure(Goto(s, a.t, next), Apply(s, a).pcs);
  }

  lemma StepKeepsStructure<T>(s: State<T>, a: Step<T>)
    requires Structure(s) && Enabled(s, a)
    ensures Structure(Apply(s, a))
  {
    match a
    case BeginDispose(_) => DisposeKeeps(s, a);
    case DoPred(_, _) => PredKeeps(s, a);
    case DoCommit(_) => CommitKeeps(s, a);
    case DoDrain(_) => CommitKeeps(s, a);
    case DoNotify(_, _) => NotifyKeeps(s, a);
    case DoNotifyAll(_) => NotifyKeeps(s, a);
    case Begin(_, _) => BeginKeeps(s, a);
    case BeginDrain(_) => BeginKeeps(s, a);
    case Awaken(_) => BeginKeeps(s, a);
    case TakeLock(_) => BeginKeeps(s, a);
    case _ => TestKeeps(s, a);
  }
}
