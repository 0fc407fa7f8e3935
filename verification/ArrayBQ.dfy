/** The array queue as an object: the state behind the mutex with the critical
    sections of array_bq.rs performed in place, the operations of a single thread
    put together from them, and the whole step machine running on the object. */
module ArrayQueue {
  import opened Base
  import opened QueueOps
  import opened ArrayMachine
  import opened ArrayTheorems
  import SequentialSpec

  class ArrayBQ<T> {
    const capacity: nat
    var buf: seq<T>
    var disposed: bool
    var pushWaiters: nat
    var popWaiters: nat

    ghost function View(): Buffer<T>
      reads this
    {
      Buffer(capacity, buf, disposed, pushWaiters, popWaiters)
    }

    constructor (capacity: nat)
      ensures View() == Buffer(EnsureCapacity(capacity), [], false, 0, 0)
    {
      this.capacity := EnsureCapacity(capacity);
      buf, disposed, pushWaiters, popWaiters := [], false, 0, 0;
    }

    // ------------------------------------------------- critical sections

    method EnterWait(side: Side)
      modifies this
      ensures View() == Enter(old(View()), side)
    {
      if side == PushSide {
        pushWaiters := pushWaiters + 1;
      } else {
        popWaiters := popWaiters + 1;
      }
    }

    method LeaveWait(side: Side)
      modifies this
      ensures View() == Leave(old(View()), side)
    {
      if side == PushSide {
        pushWaiters := if pushWaiters > 0 then pushWaiters - 1 else USIZE_MAX;
      } else {
        popWaiters := if popWaiters > 0 then popWaiters - 1 else USIZE_MAX;
      }
    }

    /** Appends the item; the signals are decided before the mutex is released. */
    method EnQCommit(x: T) returns (g: Signals)
      modifies this`buf
      ensures View() == EnQ(old(View()), x) && g == EnQSignals(old(View()))
    {
      var prev := |buf|;
      buf := buf + [x];
      g := Signals(prev == 0 && popWaiters > 0, prev + 1 < capacity && pushWaiters > 0);
    }

    method DeQCommit() returns (x: T, g: Signals)
      requires buf != []
      modifies this`buf
      ensures x == old(buf)[0] && View() == DeQ(old(View())) && g == DeQSignals(old(View()))
    {
      var prev := |buf|;
      x := buf[0];
      buf := buf[1..];
      g := Signals(prev > 1 && popWaiters > 0, prev == capacity && pushWaiters > 0);
    }

    method DrainAll() returns (items: seq<T>, wakeProducers: bool)
      modifies this`buf
      ensures items == old(buf) && View() == old(View()).(items := [])
      ensures wakeProducers == (old(buf) != [] && pushWaiters > 0)
    {
      var had := |buf|;
      items, buf := buf, [];
      wakeProducers := had > 0 && pushWaiters > 0;
    }

    method SetDisposed() returns (won: bool)
      modifies this`disposed
      ensures won == !old(disposed) && View() == old(View()).(disposed := true)
    {
      won := !disposed;
      disposed := true;
    }

    // ------------------------------------------------ operations, one thread

    ghost function Contents(): SequentialSpec.Queue<T>
      reads this
    {
      SequentialSpec.Queue(capacity, buf, disposed)
    }

    ghost predicate Settled()
      reads this
    {
      |buf| <= capacity && capacity > 0 && pushWaiters == 0 && popWaiters == 0
    }

    method Push(x: T) returns (o: SequentialSpec.Outcome<T>)
      requires Settled()
      modifies this
      ensures Settled() && (Contents(), o) == SequentialSpec.Perform(old(Contents()), SequentialSpec.Push(x))
    {
      if !disposed && |buf| >= capacity {
        return SequentialSpec.Blocks;
      }
      if disposed {
        return SequentialSpec.Refused(ResourceUnavailable, x);
      }
      var _ := EnQCommit(x);
      o := SequentialSpec.Done;
    }

    method TryPush(x: T) returns (o: SequentialSpec.Outcome<T>)
      requires Settled()
      modifies this
      ensures Settled() && (Contents(), o) == SequentialSpec.Perform(old(Contents()), SequentialSpec.TryPush(x))
    {
      if disposed {
        return SequentialSpec.Refused(ResourceUnavailable, x);
      }
      if |buf| >= capacity {
        return SequentialSpec.Refused(WouldBlock, x);
      }
      var _ := EnQCommit(x);
      o := SequentialSpec.Done;
    }

    method PushTimeout(x: T) returns (o: SequentialSpec.Outcome<T>)
      requires Settled()
      modifies this
      ensures Settled() && (Contents(), o) == SequentialSpec.Perform(old(Contents()), SequentialSpec.PushFor(x))
    {
      var timedOut := !disposed && |buf| >= capacity;
      if timedOut {
        return SequentialSpec.Refused(Timeout, x);
      }
      if disposed {
        return SequentialSpec.Refused(ResourceUnavailable, x);
      }
      var _ := EnQCommit(x);
      o := SequentialSpec.Done;
    }

    method Pop() returns (o: SequentialSpec.Outcome<T>)
      requires Settled()
      modifies this
      ensures Settled() && (Contents(), o) == SequentialSpec.Perform(old(Contents()), SequentialSpec.Pop)
    {
      if !disposed && buf == [] {
        return SequentialSpec.Blocks;
      }
      if buf == [] {
        return SequentialSpec.Error(ResourceUnavailable);
      }
      var x, _ := DeQCommit();
      o := SequentialSpec.Item(x);
    }

    method TryPop() returns (o: SequentialSpec.Outcome<T>)
      requires Settled()
      modifies this
      ensures Settled() && (Contents(), o) == SequentialSpec.Perform(old(Contents()), SequentialSpec.TryPop)
    {
      if buf == [] {
        return SequentialSpec.Error(if disposed then ResourceUnavailable else WouldBlock);
      }
      var x, _ := DeQCommit();
      o := SequentialSpec.Item(x);
    }

    method PopTimeout() returns (o: SequentialSpec.Outcome<T>)
      requires Settled()
      modifies this
      ensures Settled() && (Contents(), o) == SequentialSpec.Perform(old(Contents()), SequentialSpec.PopFor)
    {
      if !disposed && buf == [] {
        return SequentialSpec.Error(Timeout);
      }
      if disposed && buf == [] {
        return SequentialSpec.Error(ResourceUnavailable);
      }
      var x, _ := DeQCommit();
      o := SequentialSpec.Item(x);
    }

    method Call(call: SequentialSpec.Call<T>) returns (o: SequentialSpec.Outcome<T>)
      requires Settled()
      modifies this
      ensures Settled() && (Contents(), o) == SequentialSpec.Perform(old(Contents()), call)
    {
      match call
      case Push(x) => o := Push(x);
      case TryPush(x) => o := TryPush(x);
      case PushFor(x) => o := PushTimeout(x);
      case Pop => o := Pop();
      case TryPop => o := TryPop();
      case PopFor => o := PopTimeout();
      case Drain =>
        var items, _ := DrainAll();
        o := SequentialSpec.Items(items);
      case Dispose =>
        var _ := SetDisposed();
        o := SequentialSpec.Done;
      case Size => o := SequentialSpec.Number(|buf|);
      case IsDisposed => o := SequentialSpec.Truth(disposed);
    }
  }

  // ------------------------------------------------ operations, interleaved

  /** A queue shared by threads.  `Step` performs any enabled action in place. */
  class System<T(==)> {
    const q: ArrayBQ<T>
    var lock: Option<nat>
    var pcs: seq<Pc<T>>
    ghost var offered: multiset<T>
    ghost var returned: multiset<T>
    ghost var accepted: seq<T>
    ghost var delivered: seq<T>

    ghost function View(): State<T>
      reads this, q
    {
      State(q.View(), lock, pcs, offered, returned, accepted, delivered)
    }

    ghost predicate Valid()
      reads this, q
    {
      Inv(View())
    }

    constructor (capacity: nat, threads: nat)
      ensures Valid() && Init(View()) && fresh(q) && |pcs| == threads
    {
      q := new ArrayBQ(capacity);
      lock, pcs := None, seq(threads, _ => Idle);
      offered, returned, accepted, delivered := multiset{}, multiset{}, [], [];
      new;
      InitInv(View());
    }

    /** The mutex: taking it, giving it up, going to sleep with it. */
    method LockStep(a: Step<T>)
      requires Valid() && Enabled(View(), a) && (a.TakeLock? || a.DropLock? || a.DoSleep? || a.DoFail?)
      modifies this
      ensures Valid() && View() == Apply(old(View()), a)
    {
      StepKeepsInv(View(), a);
      var t, p := a.t, pcs[a.t];
      match a
      case TakeLock(_) => lock, pcs := Some(t), pcs[t := Locked(p)];
      case DropLock(_) => lock, pcs := None, pcs[t := if p.Unlock? then p.next else NotifyAll(PopSide, true)];
      case DoSleep(_) => lock, pcs := None, pcs[t := Asleep(p.op)];
      case DoFail(_) =>
        returned := returned + Flying(p);
        lock, pcs := None, pcs[t := Idle];
    }

    /** Tests made under the mutex, with the waiter guard around the wait. */
    method TestStep(a: Step<T>)
      requires Valid() && Enabled(View(), a) && (a.DoTest? || a.DoPred? || a.DoDecide?)
      modifies this, q
      ensures Valid() && View() == Apply(old(View()), a)
    {
      StepKeepsInv(View(), a);
      var t, op := a.t, pcs[a.t].op;
      var b := Buffer(q.capacity, q.buf, q.disposed, q.pushWaiters, q.popWaiters);
      match a
      case DoTest(_) =>
        var next := Tested(b, op);
        pcs := pcs[t := next];
        if next.Pred? {
          q.EnterWait(OpSide(op));
        }
      case DoPred(_, expired) =>
        if b.disposed || !Blocked(b, OpSide(op)) {
          pcs := pcs[t := Decide(op)];
          q.LeaveWait(OpSide(op));
        } else if expired {
          pcs := pcs[t := Fail(op, Timeout)];
          q.LeaveWait(OpSide(op));
        } else {
          pcs := pcs[t := GoSleep(op)];
        }
      case DoDecide(_) =>
        pcs := pcs[t := if Refuses(b, op) then Fail(op, ResourceUnavailable) else Commit(op)];
    }

    /** The commits: buffer, signals and history. */
    method CommitStep(a: Step<T>)
      requires Valid() && Enabled(View(), a) && (a.DoCommit? || a.DoDrain?)
      modifies this, q
      ensures Valid() && View() == Apply(old(View()), a)
    {
      StepKeepsInv(View(), a);
      var t, p := a.t, pcs[a.t];
      if a.DoDrain? {
        var items, wake := q.DrainAll();
        delivered := delivered + items;
        pcs := pcs[t := Unlock(if wake then NotifyAll(PushSide, false) else Idle)];
      } else if p.op.PushOp? {
        var g := q.EnQCommit(p.op.item);
        accepted := accepted + [p.op.item];
        pcs := pcs[t := Unlock(Pending(g))];
      } else {
        var x, g := q.DeQCommit();
        delivered := delivered + [x];
        pcs := pcs[t := Unlock(Pending(g))];
      }
    }

    /** Notifies, sent without the mutex. */
    method NotifyStep(a: Step<T>)
      requires Valid() && Enabled(View(), a) && (a.DoNotify? || a.DoNotifyAll?)
      modifies this
      ensures Valid() && View() == Apply(old(View()), a)
    {
      StepKeepsInv(View(), a);
      var t, p := a.t, pcs[a.t];
      if a.DoNotify? {
        pcs := WakeOne(pcs[t := AfterNotify(p.signals)], a.target);
      } else {
        pcs := WakeAll(pcs[t := if p.disposing && p.side == PopSide then NotifyAll(PushSide, true) else Idle], p.side);
      }
    }

    method Step(a: Step<T>)
      requires Valid() && Enabled(View(), a)
      modifies this, q
      ensures Valid() && View() == Apply(old(View()), a)
    {
      match a
      case TakeLock(_) => LockStep(a);
      case DropLock(_) => LockStep(a);
      case DoSleep(_) => LockStep(a);
      case DoFail(_) => LockStep(a);
      case DoTest(_) => TestStep(a);
      case DoPred(_, _) => TestStep(a);
      case DoDecide(_) => TestStep(a);
      case DoCommit(_) => CommitStep(a);
      case DoDrain(_) => CommitStep(a);
      case DoNotify(_, _) => NotifyStep(a);
      case DoNotifyAll(_) => NotifyStep(a);
      case _ => BeginStep(a);
    }

    method BeginStep(a: Step<T>)
      requires Valid() && Enabled(View(), a) && (a.Begin? || a.BeginDrain? || a.BeginDispose? || a.Awaken?)
      modifies this, q
      ensures Valid() && View() == Apply(old(View()), a)
    {
      StepKeepsInv(View(), a);
      var t := a.t;
      match a
      case Begin(_, op) =>
        offered := offered + Flying(Lock(op));
        pcs := pcs[t := Lock(op)];
      case BeginDrain(_) => pcs := pcs[t := DrainLock];
      case Awaken(_) => pcs := pcs[t := Relock(pcs[t].op)];
      case BeginDispose(_) =>
        var won := q.SetDisposed();
        if won {
          pcs := pcs[t := DisposeLock];
        }
    }

    /** Any schedule of enabled actions runs on the object, and ends where the machine says. */
    method Execute(steps: seq<Step<T>>, ghost end: State<T>)
      requires Valid() && Run(View(), steps, end)
      modifies this, q
      ensures Valid() && View() == end
    {
      var k := 0;
      while k < |steps|
        invariant k <= |steps| && Valid() && Run(View(), steps[k..], end)
      {
        assert steps[k..][0] == steps[k] && steps[k..][1..] == steps[k + 1..];
        Step(steps[k]);
        k := k + 1;
      }
    }
  }
}
