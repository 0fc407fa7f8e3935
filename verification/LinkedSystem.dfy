/** The step machine of the linked queue running on real nodes.  Whatever the
    schedule, every memory action finds its precondition: no null successor, no
    missing item, no use of a freed node, no double free. */
module LinkedSystem {
  import opened Base
  import opened LinkedChain
  import opened QueueOps
  import opened LinkedMachine
  import opened LinkedInvariant
  import opened LinkedTheorems
  import LinkedQueue

  /** What the memory action behind a step needs of the chain. */
  predicate Ready<T(==)>(c: Chain<T>, a: Step<T>) {
    match a
    case DoLink(_) => !c.lag
    case DoAdvance(_) => c.lag
    case DoTake(_) => !c.taken && c.items != []
    case DoDrainTake(_) => !c.taken && c.items != []
    case DoFree(_) => c.taken && |c.items| > (if c.lag then 1 else 0)
    case DoDrainFree(_) => c.taken && |c.items| > (if c.lag then 1 else 0)
    case _ => true
  }

  /** In every reachable state every enabled action finds the chain as it needs it: a
      successor with an item behind the dummy, and a dummy that is not the tail. */
  lemma MemoryReady<T>(s: State<T>, a: Step<T>)
    requires Inv(s) && Enabled(s, a)
    ensures Ready(s.chain, a)
  {
    HolderIsOwner(s, a.t);
  }

  ghost predicate ReadyRun<T>(s: State<T>, steps: seq<Step<T>>)
    decreases steps
  {
    steps == [] || (Enabled(s, steps[0]) && Ready(s.chain, steps[0]) && ReadyRun(Apply(s, steps[0]), steps[1..]))
  }

  /** Every action of every run finds the chain as it needs it. */
  lemma {:induction false} RunIsMemorySafe<T>(s: State<T>, steps: seq<Step<T>>, end: State<T>)
    requires Inv(s) && Run(s, steps, end)
    ensures ReadyRun(s, steps)
    decreases steps
  {
    if steps != [] {
      MemoryReady(s, steps[0]);
      StepKeepsInv(s, steps[0]);
      RunIsMemorySafe(Apply(s, steps[0]), steps[1..], end);
    }
  }

  class System<T(==)> {
    const q: LinkedQueue.LinkedBQ<T>
    var pushLock: Option<nat>
    var popLock: Option<nat>
    var pushWaiters: nat
    var popWaiters: nat
    var pcs: seq<Pc<T>>
    ghost var accepted: seq<T>
    ghost var delivered: seq<T>

    ghost function View(): State<T>
      reads this, q
    {
      State(q.View(), pushLock, popLock, pushWaiters, popWaiters, pcs, accepted, delivered)
    }

    ghost predicate Valid()
      reads this, q, q.nodes
    {
      q.Valid() && Inv(View())
    }

    /** The system's objects change, and nodes are only added fresh. */
    twostate predicate Grows()
      reads q
    {
      forall i :: 0 <= i < |q.nodes| ==> q.nodes[i] in old(q.nodes) || fresh(q.nodes[i])
    }

    constructor (capacity: nat, threads: nat)
      ensures Valid() && Init(View()) && fresh(q) && fresh(q.nodes) && |pcs| == threads
    {
      q := new LinkedQueue.LinkedBQ(capacity);
      pushLock, popLock, pushWaiters, popWaiters := None, None, 0, 0;
      pcs := seq(threads, _ => Idle);
      accepted, delivered := [], [];
      new;
      InitInv(View());
    }

    method SetLock(side: Side, o: Option<nat>)
      modifies this`pushLock, this`popLock
      ensures View() == LinkedMachine.SetLock(old(View()), side, o)
    {
      if side == PushSide {
        pushLock := o;
      } else {
        popLock := o;
      }
    }

    method EnterWait(side: Side)
      modifies this`pushWaiters, this`popWaiters
      ensures View() == Register(old(View()), side)
    {
      if side == PushSide {
        pushWaiters := pushWaiters + 1;
      } else {
        popWaiters := popWaiters + 1;
      }
    }

    method LeaveWait(side: Side)
      modifies this`pushWaiters, this`popWaiters
      ensures View() == Deregister(old(View()), side)
    {
      if side == PushSide {
        pushWaiters := Decrement(pushWaiters);
      } else {
        popWaiters := Decrement(popWaiters);
      }
    }

    // ------------------------------------------------------------ the chain

    /** en_q, one memory action at a time. */
    method PushStep(a: Step<T>)
      requires q.Valid() && Enabled(View(), a) && (a.DoLink? || a.DoAdvance? || a.DoAdd?)
      requires Ready(q.View(), a)
      modifies this, q, q.nodes
      ensures q.Valid() && Grows() && View() == Apply(old(View()), a)
    {
      match a
      case DoLink(_) => LinkStep(a);
      case DoAdvance(_) => AdvanceStep(a);
      case DoAdd(_) => AddStep(a);
    }

    method LinkStep(a: Step<T>)
      requires q.Valid() && Enabled(View(), a) && a.DoLink? && Ready(q.View(), a)
      modifies this, q, q.nodes
      ensures q.Valid() && Grows() && View() == Apply(old(View()), a)
    {
      var x := pcs[a.t].item;
      q.Link(x);
      pcs := pcs[a.t := Pc.Advance(x)];
    }

    method AdvanceStep(a: Step<T>)
      requires q.Valid() && Enabled(View(), a) && a.DoAdvance? && Ready(q.View(), a)
      modifies this, q, q.nodes
      ensures q.Valid() && Grows() && View() == Apply(old(View()), a)
    {
      q.Advance();
      pcs := pcs[a.t := Add(pcs[a.t].item)];
    }

    method AddStep(a: Step<T>)
      requires q.Valid() && Enabled(View(), a) && a.DoAdd? && Ready(q.View(), a)
      modifies this, q, q.nodes
      ensures q.Valid() && Grows() && View() == Apply(old(View()), a)
    {
      var prev := q.FetchAdd();
      accepted := accepted + [pcs[a.t].item];
      pcs := pcs[a.t := Cascade(PushSide, prev)];
    }

    /** de_q, one memory action at a time. */
    method PopStep(a: Step<T>)
      requires q.Valid() && Enabled(View(), a) && (a.DoTake? || a.DoFree? || a.DoSub?)
      requires Ready(q.View(), a)
      modifies this, q, q.nodes
      ensures q.Valid() && Grows() && View() == Apply(old(View()), a)
    {
      match a
      case DoTake(_) => TakeStep(a);
      case DoFree(_) => FreeStep(a);
      case DoSub(_) => SubStep(a);
    }

    method TakeStep(a: Step<T>)
      requires q.Valid() && Enabled(View(), a) && a.DoTake? && Ready(q.View(), a)
      modifies this, q, q.nodes
      ensures q.Valid() && Grows() && View() == Apply(old(View()), a)
    {
      var x := q.Take();
      pcs := pcs[a.t := Pc.Free(x)];
    }

    method FreeStep(a: Step<T>)
      requires q.Valid() && Enabled(View(), a) && a.DoFree? && Ready(q.View(), a)
      modifies this, q, q.nodes
      ensures q.Valid() && Grows() && View() == Apply(old(View()), a)
    {
      q.Free();
      pcs := pcs[a.t := Sub(pcs[a.t].item)];
    }

    method SubStep(a: Step<T>)
      requires q.Valid() && Enabled(View(), a) && a.DoSub? && Ready(q.View(), a)
      modifies this, q, q.nodes
      ensures q.Valid() && Grows() && View() == Apply(old(View()), a)
    {
      var prev := q.FetchSub(1);
      delivered := delivered + [pcs[a.t].item];
      pcs := pcs[a.t := Cascade(PopSide, prev)];
    }

    /** The loop of drain, one memory action at a time. */
    method DrainStep(a: Step<T>)
      requires q.Valid() && Enabled(View(), a) && (a.DoDrainTake? || a.DoDrainFree?)
      requires Ready(q.View(), a)
      modifies this, q, q.nodes
      ensures q.Valid() && Grows() && View() == Apply(old(View()), a)
    {
      var t, p := a.t, pcs[a.t];
      if a.DoDrainTake? {
        var x := q.Take();
        pcs := pcs[t := DrainFree(p.n, p.out, x)];
      } else {
        q.Free();
        pcs := pcs[t := Draining(p.n, p.out + [p.item])];
      }
    }

    /** The load of `count` before that loop and the subtraction behind it. */
    method DrainCount(a: Step<T>)
      requires q.Valid() && Enabled(View(), a) && (a.DoDrainLoad? || a.DoDrainSub?)
      modifies this, q`count
      ensures q.Valid() && q.nodes == old(q.nodes) && View() == Apply(old(View()), a)
    {
      var t, p := a.t, pcs[a.t];
      if a.DoDrainLoad? {
        pcs := pcs[t := Draining(q.count, [])];
      } else {
        var _ := q.FetchSub(p.n);
        delivered := delivered + p.out;
        pcs := pcs[t := Unlock(PopSide, if p.n > 0 then SigLock(PushSide, All) else Idle)];
      }
    }

    // ------------------------------------------------------------ the rest

    method BeginStep(a: Step<T>)
      requires q.Valid() && Enabled(View(), a) && (a.Begin? || a.BeginDrain? || a.BeginDispose? || a.Awaken?)
      modifies this, q`disposed
      ensures q.Valid() && View() == Apply(old(View()), a)
    {
      var t := a.t;
      match a
      case Begin(_, op) => pcs := pcs[t := Lock(op)];
      case BeginDrain(_) => pcs := pcs[t := DrainLock];
      case Awaken(_) => pcs := pcs[t := Relock(pcs[t].op)];
      case BeginDispose(_) =>
        if !q.disposed {
          q.disposed := true;
          pcs := pcs[t := SigLock(PopSide, Dispose)];
        }
    }

    method LockStep(a: Step<T>)
      requires Enabled(View(), a) && (a.TakeLock? || a.DoUnlock? || a.DoSleep? || a.DoFail?)
      modifies this
      ensures View() == Apply(old(View()), a)
    {
      var t, p := a.t, pcs[a.t];
      match a
      case TakeLock(_) =>
        pcs := pcs[t := Locked(p)];
        SetLock(Wants(p).value, Some(t));
      case DoUnlock(_) =>
        pcs := pcs[t := p.next];
        SetLock(p.side, None);
      case DoSleep(_) =>
        pcs := pcs[t := Asleep(p.op)];
        SetLock(OpSide(p.op), None);
      case DoFail(_) =>
        pcs := pcs[t := Idle];
        SetLock(OpSide(p.op), None);
    }

    /** The two loads of the first test. */
    method TestStep(a: Step<T>)
      requires Enabled(View(), a) && (a.DoTest? || a.DoTestCount?)
      modifies this
      ensures View() == Apply(old(View()), a)
    {
      var t, op := a.t, pcs[a.t].op;
      if a.DoTest? {
        pcs := pcs[t := if !q.disposed then TestCount(op)
                        else if op.mode == Try then Fail(op, ResourceUnavailable)
                        else Decide(op)];
      } else {
        var blocked := if op.PushOp? then q.count >= q.capacity else q.count == 0;
        if !blocked {
          pcs := pcs[t := if op.mode == Try then Commit(op) else Decide(op)];
        } else if op.mode == Try {
          pcs := pcs[t := if op.PushOp? then Fail(op, WouldBlock) else ReadKind(op)];
        } else {
          pcs := pcs[t := Pred(op)];
          EnterWait(OpSide(op));
        }
      }
    }

    /** The two loads of the wait condition. */
    method PredStep(a: Step<T>)
      requires Enabled(View(), a) && (a.DoPred? || a.DoPredCount?)
      modifies this
      ensures View() == Apply(old(View()), a)
    {
      var t, op := a.t, pcs[a.t].op;
      if a.DoPred? {
        if q.disposed {
          pcs := pcs[t := Decide(op)];
          LeaveWait(OpSide(op));
        } else {
          pcs := pcs[t := PredCount(op)];
        }
      } else {
        var blocked := if op.PushOp? then q.count >= q.capacity else q.count == 0;
        if !blocked {
          pcs := pcs[t := Decide(op)];
          LeaveWait(OpSide(op));
        } else if a.expired {
          pcs := pcs[t := Fail(op, Timeout)];
          LeaveWait(OpSide(op));
        } else {
          pcs := pcs[t := GoSleep(op)];
        }
      }
    }

    method DecideStep(a: Step<T>)
      requires Enabled(View(), a) && (a.DoDecide? || a.DoReadKind?)
      modifies this
      ensures View() == Apply(old(View()), a)
    {
      var t, op := a.t, pcs[a.t].op;
      if a.DoDecide? {
        var refuse := if op.PushOp? then q.disposed else q.count == 0;
        pcs := pcs[t := if refuse then Fail(op, ResourceUnavailable) else Commit(op)];
      } else {
        pcs := pcs[t := Fail(op, if q.disposed then ResourceUnavailable else WouldBlock)];
      }
    }

    /** Cascades and signals, sent under a mutex. */
    method NotifyStep(a: Step<T>)
      requires Enabled(View(), a) && (a.DoCascade? || a.DoSignal?)
      modifies this
      ensures View() == Apply(old(View()), a)
    {
      var t, p := a.t, pcs[a.t];
      if a.DoCascade? {
        pcs := WakeOne(pcs[t := Unlock(p.side, AfterCascade(q.capacity, p.side, p.prev))], a.target);
      } else {
        pcs := pcs[t := Unlock(p.side, AfterSignal(p.side, p.kind))];
        var waiters := if p.side == PushSide then pushWaiters else popWaiters;
        if p.kind == One {
          pcs := WakeOne(pcs, a.target);
        } else if p.kind == Dispose || waiters > 0 {
          pcs := WakeAll(pcs, p.side);
        }
      }
    }

    method Step(a: Step<T>)
      requires Valid() && Enabled(View(), a)
      modifies this, q, q.nodes
      ensures Valid() && Grows() && View() == Apply(old(View()), a)
    {
      MemoryReady(View(), a);
      StepKeepsInv(View(), a);
      Perform(a);
    }

    method Perform(a: Step<T>)
      requires q.Valid() && Enabled(View(), a) && Ready(q.View(), a)
      modifies this, q, q.nodes
      ensures q.Valid() && Grows() && View() == Apply(old(View()), a)
    {
      if a.DoLink? || a.DoAdvance? || a.DoAdd? {
        PushStep(a);
      } else if a.DoTake? || a.DoFree? || a.DoSub? {
        PopStep(a);
      } else if a.DoDrainTake? || a.DoDrainFree? {
        DrainStep(a);
      } else if a.DoDrainLoad? || a.DoDrainSub? {
        DrainCount(a);
      } else {
        Control(a);
      }
    }

    method Control(a: Step<T>)
      requires q.Valid() && Enabled(View(), a)
      requires !a.DoLink? && !a.DoAdvance? && !a.DoAdd? && !a.DoTake? && !a.DoFree? && !a.DoSub?
      requires !a.DoDrainLoad? && !a.DoDrainTake? && !a.DoDrainFree? && !a.DoDrainSub?
      modifies this, q`disposed
      ensures q.Valid() && View() == Apply(old(View()), a)
    {
      if a.TakeLock? || a.DoUnlock? || a.DoSleep? || a.DoFail? {
        LockStep(a);
      } else if a.DoTest? || a.DoTestCount? {
        TestStep(a);
      } else if a.DoPred? || a.DoPredCount? {
        PredStep(a);
      } else if a.DoDecide? || a.DoReadKind? {
        DecideStep(a);
      } else if a.DoCascade? || a.DoSignal? {
        NotifyStep(a);
      } else {
        BeginStep(a);
      }
    }

    method ExecuteReady(steps: seq<Step<T>>, ghost end: State<T>)
      requires q.Valid() && Run(View(), steps, end) && ReadyRun(View(), steps)
      modifies this, q, q.nodes
      ensures q.Valid() && Grows() && View() == end
    {
      var k := 0;
      while k < |steps|
        invariant k <= |steps| && q.Valid() && Grows()
        invariant Run(View(), steps[k..], end) && ReadyRun(View(), steps[k..])
      {
        assert steps[k..][0] == steps[k] && steps[k..][1..] == steps[k + 1..];
        Perform(steps[k]);
        k := k + 1;
      }
    }

    /** Any schedule of enabled actions runs on the nodes, and ends where the machine says. */
    method Execute(steps: seq<Step<T>>, ghost end: State<T>)
      requires Valid() && Run(View(), steps, end)
      modifies this, q, q.nodes
      ensures Valid() && Grows() && View() == end
    {
      RunIsMemorySafe(View(), steps, end);
      RunKeepsInv(View(), steps, end);
      ExecuteReady(steps, end);
    }

    /** At the end of the queue's life the drop loop frees what the consumers have not:
        every node ever allocated is freed exactly once. */
    method Finish(steps: seq<Step<T>>, ghost end: State<T>)
      requires Valid() && Run(View(), steps, end)
      modifies this, q, q.nodes
      ensures LinkedQueue.Distinct(q.freed) && LinkedQueue.Elements(q.freed) == q.made
    {
      Execute(steps, end);
      q.Drop();
    }
  }
}
