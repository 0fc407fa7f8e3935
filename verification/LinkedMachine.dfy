/** LinkedBQ interleaved step by step, for any number of threads.

    Producers hold the push mutex, consumers the pop mutex; `count` is the only
    word both sides read.  A program counter names the next atomic action of its
    thread; every load of `count` and `disposed` is an action of its own, so a
    decision may rest on a value that has changed since.  Memory is sequentially
    consistent.  `wait` releases the mutex and sleeps in one action; a sleeper
    may wake at any time (spuriously or because its timeout expired); a timed
    wait reports a timeout only right after its condition was seen to be true. */
module LinkedMachine {
  import opened Base
  import opened LinkedChain
  import opened QueueOps

  /** Why a thread takes a mutex to notify: one waiter after a transition, all
      waiters after a drain, or all waiters because the queue was disposed. */
  datatype Signal = One | All | Dispose

  datatype Pc<+T> =
    | Idle
    | Lock(op: Op<T>)
    | Test(op: Op<T>)            // loads `disposed` for the first `if`
    | TestCount(op: Op<T>)       // loads `count` for the first `if`
    | Pred(op: Op<T>)            // registered; loads `disposed` for the wait condition
    | PredCount(op: Op<T>)       // registered; loads `count` for the wait condition
    | GoSleep(op: Op<T>)
    | Asleep(op: Op<T>)
    | Relock(op: Op<T>)
    | Decide(op: Op<T>)          // the test behind the wait
    | ReadKind(op: Op<T>)        // try_pop found the queue empty and loads `disposed`
    | Fail(op: Op<T>, err: HioError)
    | Link(item: T)
    | Advance(item: T)
    | Add(item: T)
    | Take
    | Free(item: T)
    | Sub(item: T)
    | Cascade(side: Side, prev: nat)   // the counter is updated, `prev` was its old value
    | DrainLock
    | DrainLoad
    | Draining(n: nat, out: seq<T>)
    | DrainFree(n: nat, out: seq<T>, item: T)
    | SigLock(side: Side, kind: Signal)
    | SigHeld(side: Side, kind: Signal)
    | Unlock(side: Side, next: Pc<T>)

  /** `accepted` and `delivered` are history. */
  datatype State<T> = State(
    chain: Chain<T>, pushLock: Option<nat>, popLock: Option<nat>,
    pushWaiters: nat, popWaiters: nat, pcs: seq<Pc<T>>,
    accepted: seq<T>, delivered: seq<T>)

  datatype Step<+T> =
    | Begin(t: nat, op: Op<T>)
    | BeginDrain(t: nat)
    | BeginDispose(t: nat)
    | TakeLock(t: nat)
    | DoTest(t: nat)
    | DoTestCount(t: nat)
    | DoPred(t: nat)
    | DoPredCount(t: nat, expired: bool)
    | DoSleep(t: nat)
    | Awaken(t: nat)
    | DoDecide(t: nat)
    | DoReadKind(t: nat)
    | DoFail(t: nat)
    | DoLink(t: nat)
    | DoAdvance(t: nat)
    | DoAdd(t: nat)
    | DoTake(t: nat)
    | DoFree(t: nat)
    | DoSub(t: nat)
    | DoCascade(t: nat, target: Option<nat>)
    | DoDrainLoad(t: nat)
    | DoDrainTake(t: nat)
    | DoDrainFree(t: nat)
    | DoDrainSub(t: nat)
    | DoSignal(t: nat, target: Option<nat>)
    | DoUnlock(t: nat)

  /** Actions of the producer and the consumer on the chain. */
  predicate ChainAction<T>(a: Step<T>) {
    a.DoLink? || a.DoAdvance? || a.DoAdd? || a.DoTake? || a.DoFree? || a.DoSub?
    || a.DoDrainLoad? || a.DoDrainTake? || a.DoDrainFree? || a.DoDrainSub?
  }

  /** Actions after which an operation may be about to fail. */
  predicate Decides<T>(a: Step<T>) {
    a.DoTest? || a.DoTestCount? || a.DoPredCount? || a.DoDecide? || a.DoReadKind?
  }

  // ----------------------------------------------- reading program counters

  /** The side whose waiter counter includes this thread. */
  predicate Waiting<T>(p: Pc<T>, side: Side) {
    (p.Pred? || p.PredCount? || p.GoSleep? || p.Asleep? || p.Relock?) && OpSide(p.op) == side
  }

  function WaitingPush<T>(p: Pc<T>): nat { if Waiting(p, PushSide) then 1 else 0 }

  function WaitingPop<T>(p: Pc<T>): nat { if Waiting(p, PopSide) then 1 else 0 }

  predicate SleepsOn<T>(p: Pc<T>, side: Side) {
    p.Asleep? && OpSide(p.op) == side
  }

  predicate Holds<T>(p: Pc<T>, side: Side) {
    match p
    case Test(op) => OpSide(op) == side
    case TestCount(op) => OpSide(op) == side
    case Pred(op) => OpSide(op) == side
    case PredCount(op) => OpSide(op) == side
    case GoSleep(op) => OpSide(op) == side
    case Decide(op) => OpSide(op) == side
    case Fail(op, _) => OpSide(op) == side
    case ReadKind(_) => side == PopSide
    case Link(_) => side == PushSide
    case Advance(_) => side == PushSide
    case Add(_) => side == PushSide
    case Take => side == PopSide
    case Free(_) => side == PopSide
    case Sub(_) => side == PopSide
    case Cascade(sd, _) => sd == side
    case DrainLoad => side == PopSide
    case Draining(_, _) => side == PopSide
    case DrainFree(_, _, _) => side == PopSide
    case SigHeld(sd, _) => sd == side
    case Unlock(sd, _) => sd == side
    case _ => false
  }

  /** The mutex a thread is blocked on. */
  function Wants<T>(p: Pc<T>): Option<Side> {
    match p
    case Lock(op) => Some(OpSide(op))
    case Relock(op) => Some(OpSide(op))
    case SigLock(sd, _) => Some(sd)
    case DrainLock => Some(PopSide)
    case _ => None
  }

  /** A push past its last test of `disposed`. */
  predicate Committed<T>(p: Pc<T>) {
    || p.Link? || p.Advance? || p.Add?
    || (p.TestCount? && p.op.PushOp? && p.op.mode == Try)
  }

  // ------------------------------------------------------------ state access

  function LockOf<T>(s: State<T>, side: Side): Option<nat> {
    if side == PushSide then s.pushLock else s.popLock
  }

  function SetLock<T>(s: State<T>, side: Side, o: Option<nat>): State<T> {
    if side == PushSide then s.(pushLock := o) else s.(popLock := o)
  }

  function WaitersOf<T>(s: State<T>, side: Side): nat {
    if side == PushSide then s.pushWaiters else s.popWaiters
  }

  function Register<T>(s: State<T>, side: Side): State<T> {
    if side == PushSide then s.(pushWaiters := s.pushWaiters + 1) else s.(popWaiters := s.popWaiters + 1)
  }

  function Decrement(n: nat): nat {
    if n > 0 then n - 1 else USIZE_MAX
  }

  function Deregister<T>(s: State<T>, side: Side): State<T> {
    if side == PushSide then s.(pushWaiters := Decrement(s.pushWaiters)) else s.(popWaiters := Decrement(s.popWaiters))
  }

  /** The condition a thread of this side waits on: full for producers, empty for consumers. */
  predicate Blocked<T>(c: Chain<T>, side: Side) {
    if side == PushSide then IsFull(c) else IsEmpty(c)
  }

  function Goto<T>(s: State<T>, t: nat, p: Pc<T>): State<T>
    requires t < |s.pcs|
  {
    s.(pcs := s.pcs[t := p])
  }

  // ---------------------------------------------------------------- waking

  ghost predicate Sleeper<T>(pcs: seq<Pc<T>>, side: Side) {
    exists i :: 0 <= i < |pcs| && SleepsOn(pcs[i], side)
  }

  /** `notify_one` wakes some sleeper of the side if there is one. */
  ghost predicate TargetOk<T>(pcs: seq<Pc<T>>, side: Side, target: Option<nat>) {
    match target
    case Some(x) => x < |pcs| && SleepsOn(pcs[x], side)
    case None => !Sleeper(pcs, side)
  }

  function WakeOne<T>(pcs: seq<Pc<T>>, target: Option<nat>): seq<Pc<T>> {
    if target.Some? && target.value < |pcs| && pcs[target.value].Asleep?
    then pcs[target.value := Relock(pcs[target.value].op)]
    else pcs
  }

  function WakeAll<T>(pcs: seq<Pc<T>>, side: Side): (r: seq<Pc<T>>)
    ensures |r| == |pcs|
    ensures forall i :: 0 <= i < |pcs| ==> r[i] == if SleepsOn(pcs[i], side) then Relock(pcs[i].op) else pcs[i]
  {
    seq(|pcs|, i requires 0 <= i < |pcs| => if SleepsOn(pcs[i], side) then Relock(pcs[i].op) else pcs[i])
  }

  /** Whether the holder passes the turn on to its own side: a push that left room,
      a pop that left items. */
  predicate PassesOn(capacity: nat, side: Side, prev: nat) {
    if side == PushSide then prev + 1 < capacity else prev > 1
  }

  /** What remains after unlocking: signal the other side if the queue was empty
      before the push, or full before the pop. */
  function AfterCascade<T>(capacity: nat, side: Side, prev: nat): Pc<T> {
    if side == PushSide then (if prev == 0 then SigLock(PopSide, One) else Idle)
    else if prev == capacity then SigLock(PushSide, One) else Idle
  }

  function AfterSignal<T>(side: Side, kind: Signal): Pc<T> {
    if kind == Dispose && side == PopSide then SigLock(PushSide, Dispose) else Idle
  }

  // ---------------------------------------------------------------- actions

  ghost predicate Enabled<T>(s: State<T>, a: Step<T>) {
    a.t < |s.pcs| &&
    var p := s.pcs[a.t];
    match a
    case Begin(_, _) => p == Idle
    case BeginDrain(_) => p == Idle
    case BeginDispose(_) => p == Idle
    case TakeLock(_) => Wants(p).Some? && LockOf(s, Wants(p).value) == None
    case DoTest(_) => p.Test?
    case DoTestCount(_) => p.TestCount?
    case DoPred(_) => p.Pred?
    case DoPredCount(_, expired) => p.PredCount? && (expired ==> p.op.mode == Timed)
    case DoSleep(_) => p.GoSleep?
    case Awaken(_) => p.Asleep?
    case DoDecide(_) => p.Decide?
    case DoReadKind(_) => p.ReadKind?
    case DoFail(_) => p.Fail?
    case DoLink(_) => p.Link?
    case DoAdvance(_) => p.Advance?
    case DoAdd(_) => p.Add?
    case DoTake(_) => p.Take? && s.chain.items != []
    case DoFree(_) => p.Free? && s.chain.items != []
    case DoSub(_) => p.Sub? && s.chain.count > 0
    case DoCascade(_, target) =>
      p.Cascade? &&
      if PassesOn(s.chain.capacity, p.side, p.prev) && WaitersOf(s, p.side) > 0
      then TargetOk(s.pcs, p.side, target) else target == None
    case DoDrainLoad(_) => p.DrainLoad?
    case DoDrainTake(_) => p.Draining? && |p.out| < p.n && s.chain.items != []
    case DoDrainFree(_) => p.DrainFree? && s.chain.items != []
    case DoDrainSub(_) => p.Draining? && |p.out| >= p.n && p.n <= s.chain.count
    case DoSignal(_, target) =>
      p.SigHeld? &&
      if p.kind == One && WaitersOf(s, p.side) > 0
      then TargetOk(s.pcs, p.side, target) else target == None
    case DoUnlock(_) => p.Unlock?
  }

  /** The program counter behind a successfully taken mutex. */
  function Locked<T>(p: Pc<T>): Pc<T> {
    match p
    case Lock(op) => if op == PopOp(Try) then TestCount(op) else Test(op)
    case Relock(op) => Pred(op)
    case SigLock(sd, kind) => SigHeld(sd, kind)
    case _ => DrainLoad
  }

  /** The first action of the enqueue or dequeue itself. */
  function Commit<T>(op: Op<T>): Pc<T> {
    if op.PushOp? then Link(op.item) else Take
  }

  ghost function Apply<T>(s: State<T>, a: Step<T>): State<T>
    requires Enabled(s, a)
  {
    var t, p, c := a.t, s.pcs[a.t], s.chain;
    match a
    case Begin(_, op) => Goto(s, t, Lock(op))
    case BeginDrain(_) => Goto(s, t, DrainLock)
    case BeginDispose(_) =>
      if c.disposed then s
      else Goto(s, t, SigLock(PopSide, Dispose)).(chain := c.(disposed := true))
    case TakeLock(_) => SetLock(Goto(s, t, Locked(p)), Wants(p).value, Some(t))
    case DoTest(_) =>
      Goto(s, t, if !c.disposed then TestCount(p.op)
                 else if p.op.mode == Try then Fail(p.op, ResourceUnavailable)
                 else Decide(p.op))
    case DoTestCount(_) =>
      if !Blocked(c, OpSide(p.op)) then Goto(s, t, if p.op.mode == Try then Commit(p.op) else Decide(p.op))
      else if p.op.mode == Try then Goto(s, t, if p.op.PushOp? then Fail(p.op, WouldBlock) else ReadKind(p.op))
      else Register(Goto(s, t, Pred(p.op)), OpSide(p.op))
    case DoPred(_) =>
      if c.disposed then Deregister(Goto(s, t, Decide(p.op)), OpSide(p.op))
      else Goto(s, t, PredCount(p.op))
    case DoPredCount(_, expired) =>
      if !Blocked(c, OpSide(p.op)) then Deregister(Goto(s, t, Decide(p.op)), OpSide(p.op))
      else if expired then Deregister(Goto(s, t, Fail(p.op, Timeout)), OpSide(p.op))
      else Goto(s, t, GoSleep(p.op))
    case DoSleep(_) => SetLock(Goto(s, t, Asleep(p.op)), OpSide(p.op), None)
    case Awaken(_) => Goto(s, t, Relock(p.op))
    case DoDecide(_) =>
      Goto(s, t, if (if p.op.PushOp? then c.disposed else IsEmpty(c)) then Fail(p.op, ResourceUnavailable)
                 else Commit(p.op))
    case DoReadKind(_) => Goto(s, t, Fail(p.op, if c.disposed then ResourceUnavailable else WouldBlock))
    case DoFail(_) => SetLock(Goto(s, t, Idle), OpSide(p.op), None)
    case DoLink(_) => Goto(s, t, Advance(p.item)).(chain := LinkNode(c, p.item))
    case DoAdvance(_) => Goto(s, t, Add(p.item)).(chain := AdvanceTail(c))
    case DoAdd(_) =>
      Goto(s, t, Cascade(PushSide, c.count)).(chain := AddCount(c), accepted := s.accepted + [p.item])
    case DoTake(_) => Goto(s, t, Free(c.items[0])).(chain := TakeItem(c))
    case DoFree(_) => Goto(s, t, Sub(p.item)).(chain := FreeHead(c))
    case DoSub(_) =>
      Goto(s, t, Cascade(PopSide, c.count)).(chain := SubCount(c, 1), delivered := s.delivered + [p.item])
    case DoCascade(_, target) =>
      s.(pcs := WakeOne(s.pcs[t := Unlock(p.side, AfterCascade(c.capacity, p.side, p.prev))], target))
    case DoDrainLoad(_) => Goto(s, t, Draining(c.count, []))
    case DoDrainTake(_) => Goto(s, t, DrainFree(p.n, p.out, c.items[0])).(chain := TakeItem(c))
    case DoDrainFree(_) => Goto(s, t, Draining(p.n, p.out + [p.item])).(chain := FreeHead(c))
    case DoDrainSub(_) =>
      Goto(s, t, Unlock(PopSide, if p.n > 0 then SigLock(PushSide, All) else Idle))
        .(chain := SubCount(c, p.n), delivered := s.delivered + p.out)
    case DoSignal(_, target) =>
      var pcs := s.pcs[t := Unlock(p.side, AfterSignal(p.side, p.kind))];
      if p.kind == One then s.(pcs := WakeOne(pcs, target))
      else if p.kind == All && WaitersOf(s, p.side) == 0 then s.(pcs := pcs)
      else s.(pcs := WakeAll(pcs, p.side))
    case DoUnlock(_) => SetLock(Goto(s, t, p.next), p.side, None)
  }

  ghost predicate Init<T>(s: State<T>) {
    && s.chain.capacity > 0
    && s.chain == Chain(s.chain.capacity, [], false, false, 0, false)
    && s.pushLock == None && s.popLock == None && s.pushWaiters == 0 && s.popWaiters == 0
    && s.accepted == [] && s.delivered == []
    && forall t :: 0 <= t < |s.pcs| ==> s.pcs[t] == Idle
  }

  ghost predicate Run<T>(s: State<T>, steps: seq<Step<T>>, end: State<T>)
    decreases steps
  {
    if steps == [] then end == s
    else Enabled(s, steps[0]) && Run(Apply(s, steps[0]), steps[1..], end)
  }
}
