/** ArrayBQ interleaved step by step, for any number of threads.

    One mutex protects the buffer and both waiter counters; only `disposed` can
    change under a foreign hand.  A committing thread decides under the mutex
    whom to signal, but notifies after it has unlocked. */
module ArrayMachine {
  import opened Base
  import opened QueueOps

  /** What the mutex protects, and the disposed flag. */
  datatype Buffer<T> = Buffer(
    capacity: nat, items: seq<T>, disposed: bool, pushWaiters: nat, popWaiters: nat)

  /** The signals a commit has decided to send. */
  datatype Signals = Signals(notEmpty: bool, notFull: bool)

  datatype Pc<+T> =
    | Idle
    | Lock(op: Op<T>)
    | Test(op: Op<T>)
    | Pred(op: Op<T>)
    | GoSleep(op: Op<T>)
    | Asleep(op: Op<T>)
    | Relock(op: Op<T>)
    | Decide(op: Op<T>)
    | Commit(op: Op<T>)
    | Fail(op: Op<T>, err: HioError)
    | DrainLock
    | DrainHeld
    | DisposeLock
    | DisposeHeld
    | Unlock(next: Pc<T>)
    | Notify(signals: Signals)
    | NotifyAll(side: Side, disposing: bool)

  /** History: `offered` items of all pushes begun, `returned` items handed back in an
      error, `accepted` and `delivered` in the order of the mutex. */
  datatype State<T> = State(
    buf: Buffer<T>, lock: Option<nat>, pcs: seq<Pc<T>>,
    offered: multiset<T>, returned: multiset<T>, accepted: seq<T>, delivered: seq<T>)

  datatype Step<+T> =
    | Begin(t: nat, op: Op<T>)
    | BeginDrain(t: nat)
    | BeginDispose(t: nat)
    | TakeLock(t: nat)
    | DoTest(t: nat)
    | DoPred(t: nat, expired: bool)
    | DoSleep(t: nat)
    | Awaken(t: nat)
    | DoDecide(t: nat)
    | DoCommit(t: nat)
    | DoFail(t: nat)
    | DoDrain(t: nat)
    | DropLock(t: nat)
    | DoNotify(t: nat, target: Option<nat>)
    | DoNotifyAll(t: nat)

  // ------------------------------------------------------------ the buffer

  predicate Blocked<T>(b: Buffer<T>, side: Side) {
    if side == PushSide then |b.items| >= b.capacity else b.items == []
  }

  function Waiters<T>(b: Buffer<T>, side: Side): nat {
    if side == PushSide then b.pushWaiters else b.popWaiters
  }

  function Enter<T>(b: Buffer<T>, side: Side): Buffer<T> {
    if side == PushSide then b.(pushWaiters := b.pushWaiters + 1) else b.(popWaiters := b.popWaiters + 1)
  }

  function Leave<T>(b: Buffer<T>, side: Side): Buffer<T> {
    if side == PushSide then b.(pushWaiters := if b.pushWaiters > 0 then b.pushWaiters - 1 else USIZE_MAX)
    else b.(popWaiters := if b.popWaiters > 0 then b.popWaiters - 1 else USIZE_MAX)
  }

  /** en_q_commit under the mutex: `push_back`, and whom to signal. */
  function EnQ<T>(b: Buffer<T>, x: T): Buffer<T> {
    b.(items := b.items + [x])
  }

  function EnQSignals<T>(b: Buffer<T>): Signals {
    Signals(|b.items| == 0 && b.popWaiters > 0, |b.items| + 1 < b.capacity && b.pushWaiters > 0)
  }

  /** de_q_commit under the mutex: `pop_front`, and whom to signal. */
  function DeQ<T>(b: Buffer<T>): Buffer<T>
    requires b.items != []
  {
    b.(items := b.items[1..])
  }

  function DeQSignals<T>(b: Buffer<T>): Signals {
    Signals(|b.items| > 1 && b.popWaiters > 0, |b.items| == b.capacity && b.pushWaiters > 0)
  }

  // ------------------------------------------------ reading program counters

  predicate Waiting<T>(p: Pc<T>, side: Side) {
    (p.Pred? || p.GoSleep? || p.Asleep? || p.Relock?) && OpSide(p.op) == side
  }

  function WaitingPush<T>(p: Pc<T>): nat { if Waiting(p, PushSide) then 1 else 0 }

  function WaitingPop<T>(p: Pc<T>): nat { if Waiting(p, PopSide) then 1 else 0 }

  predicate SleepsOn<T>(p: Pc<T>, side: Side) {
    p.Asleep? && OpSide(p.op) == side
  }

  predicate Holds<T>(p: Pc<T>) {
    p.Test? || p.Pred? || p.GoSleep? || p.Decide? || p.Commit? || p.Fail? || p.DrainHeld? || p.DisposeHeld? || p.Unlock?
  }

  predicate Wants<T>(p: Pc<T>) {
    p.Lock? || p.Relock? || p.DrainLock? || p.DisposeLock?
  }

  /** The item of a push still under way. */
  function Carried<T>(p: Pc<T>): Option<T> {
    if p.Lock? || p.Test? || p.Pred? || p.GoSleep? || p.Asleep? || p.Relock? || p.Decide? || p.Commit? || p.Fail?
    then Offer(p.op) else None
  }

  function Flying<T>(p: Pc<T>): multiset<T> {
    Bag(Carried(p))
  }

  // ---------------------------------------------------------------- waking

  ghost predicate Sleeper<T>(pcs: seq<Pc<T>>, side: Side) {
    exists i :: 0 <= i < |pcs| && SleepsOn(pcs[i], side)
  }

  ghost predicate TargetOk<T>(pcs: seq<Pc<T>>, side: Side, target: Option<nat>) {
    match target
    case Some(x) => x < |pcs| && SleepsOn(pcs[x], side)
    case None => !Sleeper(pcs, side)
  }

  function WakeOne<T>(pcs: seq<Pc<T>>, target: Option<nat>): seq<Pc<T>> {
    if target.Some? && target.value < |pcs| && pcs[target.value].Asleep?
    then pcs[target.value := Relock(pcs[target.value].op)]
    else pcs
  }

  function WakeAll<T>(pcs: seq<Pc<T>>, side: Side): (r: seq<Pc<T>>)
    ensures |r| == |pcs|
    ensures forall i :: 0 <= i < |pcs| ==> r[i] == if SleepsOn(pcs[i], side) then Relock(pcs[i].op) else pcs[i]
  {
    seq(|pcs|, i requires 0 <= i < |pcs| => if SleepsOn(pcs[i], side) then Relock(pcs[i].op) else pcs[i])
  }

  /** The condition variable the next notify of `signal` goes to, and what is left then. */
  function NextSide(g: Signals): Side {
    if g.notEmpty then PopSide else PushSide
  }

  function Pending<T>(g: Signals): Pc<T> {
    if g.notEmpty || g.notFull then Notify(g) else Idle
  }

  function AfterNotify<T>(g: Signals): Pc<T> {
    if g.notEmpty then Pending(g.(notEmpty := false)) else Idle
  }

  // ---------------------------------------------------------------- actions

  ghost predicate Enabled<T>(s: State<T>, a: Step<T>) {
    a.t < |s.pcs| &&
    var p := s.pcs[a.t];
    match a
    case Begin(_, _) => p == Idle
    case BeginDrain(_) => p == Idle
    case BeginDispose(_) => p == Idle
    case TakeLock(_) => Wants(p) && s.lock == None
    case DoTest(_) => p.Test?
    case DoPred(_, expired) => p.Pred? && (expired ==> p.op.mode == Timed)
    case DoSleep(_) => p.GoSleep?
    case Awaken(_) => p.Asleep?
    case DoDecide(_) => p.Decide?
    case DoCommit(_) => p.Commit? && (p.op.PopOp? ==> s.buf.items != [])
    case DoFail(_) => p.Fail?
    case DoDrain(_) => p.DrainHeld?
    case DropLock(_) => p.Unlock? || p.DisposeHeld?
    case DoNotify(_, target) =>
      p.Notify? && (p.signals.notEmpty || p.signals.notFull) &&
      TargetOk(s.pcs, NextSide(p.signals), target)
    case DoNotifyAll(_) => p.NotifyAll?
  }

  function Locked<T>(p: Pc<T>): Pc<T> {
    match p
    case Lock(op) => Test(op)
    case Relock(op) => Pred(op)
    case DrainLock => DrainHeld
    case _ => DisposeHeld
  }

  /** The first test of an operation: where it leads. */
  function Tested<T>(b: Buffer<T>, op: Op<T>): Pc<T> {
    if op.mode == Try then
      if op.PushOp? then
        if b.disposed then Fail(op, ResourceUnavailable)
        else if Blocked(b, PushSide) then Fail(op, WouldBlock)
        else Commit(op)
      else if Blocked(b, PopSide) then Fail(op, if b.disposed then ResourceUnavailable else WouldBlock)
      else Commit(op)
    else if !b.disposed && Blocked(b, OpSide(op)) then Pred(op)
    else Decide(op)
  }

  /** The test behind the wait; pop and pop_timeout differ. */
  predicate Refuses<T>(b: Buffer<T>, op: Op<T>) {
    if op.PushOp? then b.disposed
    else if op.mode == Timed then b.disposed && b.items == []
    else b.items == []
  }

  function Goto<T>(s: State<T>, t: nat, p: Pc<T>): State<T>
    requires t < |s.pcs|
  {
    s.(pcs := s.pcs[t := p])
  }

  ghost function Apply<T>(s: State<T>, a: Step<T>): State<T>
    requires Enabled(s, a)
  {
    var t, p, b := a.t, s.pcs[a.t], s.buf;
    match a
    case Begin(_, op) => Goto(s, t, Lock(op)).(offered := s.offered + Flying(Lock(op)))
    case BeginDrain(_) => Goto(s, t, DrainLock)
    case BeginDispose(_) =>
      if b.disposed then s else Goto(s, t, DisposeLock).(buf := b.(disposed := true))
    case TakeLock(_) => Goto(s, t, Locked(p)).(lock := Some(t))
    case DoTest(_) =>
      var next := Tested(b, p.op);
      Goto(s, t, next).(buf := if next.Pred? then Enter(b, OpSide(p.op)) else b)
    case DoPred(_, expired) =>
      if b.disposed || !Blocked(b, OpSide(p.op)) then Goto(s, t, Decide(p.op)).(buf := Leave(b, OpSide(p.op)))
      else if expired then Goto(s, t, Fail(p.op, Timeout)).(buf := Leave(b, OpSide(p.op)))
      else Goto(s, t, GoSleep(p.op))
    case DoSleep(_) => Goto(s, t, Asleep(p.op)).(lock := None)
    case Awaken(_) => Goto(s, t, Relock(p.op))
    case DoDecide(_) => Goto(s, t, if Refuses(b, p.op) then Fail(p.op, ResourceUnavailable) else Commit(p.op))
    case DoCommit(_) =>
      if p.op.PushOp? then
        Goto(s, t, Unlock(Pending(EnQSignals(b))))
          .(buf := EnQ(b, p.op.item), accepted := s.accepted + [p.op.item])
      else
        Goto(s, t, Unlock(Pending(DeQSignals(b))))
          .(buf := DeQ(b), delivered := s.delivered + [b.items[0]])
    case DoFail(_) => Goto(s, t, Idle).(lock := None, returned := s.returned + Flying(p))
    case DoDrain(_) =>
      Goto(s, t, Unlock(if |b.items| > 0 && b.pushWaiters > 0 then NotifyAll(PushSide, false) else Idle))
        .(buf := b.(items := []), delivered := s.delivered + b.items)
    case DropLock(_) => Goto(s, t, if p.Unlock? then p.next else NotifyAll(PopSide, true)).(lock := None)
    case DoNotify(_, target) => s.(pcs := WakeOne(s.pcs[t := AfterNotify(p.signals)], target))
    case DoNotifyAll(_) =>
      var next := if p.disposing && p.side == PopSide then NotifyAll(PushSide, true) else Idle;
      s.(pcs := WakeAll(s.pcs[t := next], p.side))
  }

  ghost predicate Init<T>(s: State<T>) {
    && s.buf.capacity > 0
    && s.buf == Buffer(s.buf.capacity, [], false, 0, 0) && s.lock == None
    && s.offered == multiset{} && s.returned == multiset{} && s.accepted == [] && s.delivered == []
    && forall t :: 0 <= t < |s.pcs| ==> s.pcs[t] == Idle
  }

  ghost predicate Run<T>(s: State<T>, steps: seq<Step<T>>, end: State<T>)
    decreases steps
  {
    if steps == [] then end == s
    else Enabled(s, steps[0]) && Run(Apply(s, steps[0]), steps[1..], end)
  }
}
