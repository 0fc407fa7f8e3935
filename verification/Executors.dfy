/** The two executors as objects: the step machine of ThreadPerTaskPool performed
    in place, and ThreadPool with its workers run one after the other. */
module Executors {
  import opened Base
  import TP = ThreadPerTask
  import opened ThreadPerTaskSlots
  import opened ThreadPerTaskHandles
  import LinkedQueue
  import SequentialSpec

  /** ThreadPerTaskPool with the table of its threads. */
  class PerTaskPool {
    const max: nat
    var count: nat
    var disposed: bool
    var borrowed: bool
    var countLock: Option<nat>
    var handleLock: Option<nat>
    var pcs: seq<TP.Pc>
    var handles: seq<nat>
    ghost var joined: seq<nat>
    ghost var spawned: seq<nat>

    ghost function View(): TP.State
      reads this
    {
      TP.State(max, count, disposed, borrowed, countLock, handleLock, pcs, handles, joined, spawned)
    }

    ghost predicate Valid()
      reads this
    {
      Slots(View()) && Ledger(View())
    }

    constructor (max: nat, clients: nat)
      ensures Valid() && TP.Init(View()) && |pcs| == clients && this.max == max
    {
      this.max := max;
      count, disposed, borrowed, countLock, handleLock := 0, false, false, None, None;
      pcs, handles, joined, spawned := seq(clients, _ => TP.Idle), [], [], [];
      new;
      InitLedger(View());
    }

    /** `Inner::acquire`: the wait loop, the decision, the mutex around them. */
    method Acquire(a: TP.Step)
      requires TP.Enabled(View(), a)
      requires a.TakeCountLock? || a.DoPred? || a.DoSleep? || a.Awaken? || a.DoDecide? || a.DropCountLock?
      modifies this`count, this`countLock, this`pcs
      ensures View() == TP.Apply(old(View()), a)
    {
      var t, p := a.t, pcs[a.t];
      if a.TakeCountLock? {
        countLock := Some(t);
        pcs := pcs[t := if p == TP.AcqLock then (if max > 0 then TP.Pred else TP.Decide)
                        else if p == TP.Relock then TP.Pred
                        else if p.RelLock? then TP.RelHeld(p.worker)
                        else TP.Unlock(TP.DispNotifyAll)];
      } else if a.DoPred? {
        pcs := pcs[t := if !disposed && count >= max then TP.GoSleep else TP.Decide];
      } else if a.DoSleep? {
        countLock, pcs := None, pcs[t := TP.Asleep];
      } else if a.Awaken? {
        pcs := pcs[t := TP.Relock];
      } else if a.DropCountLock? {
        countLock, pcs := None, pcs[t := p.next];
      } else if disposed {
        pcs := pcs[t := TP.Unlock(TP.Idle)];
      } else {
        count := count + 1;
        pcs := pcs[t := TP.Unlock(TP.Spawning)];
      }
    }

    /** `Inner::release`: the decrement and the notify, under the mutex. */
    method Release(a: TP.Step)
      requires TP.Enabled(View(), a) && (a.Decrement? || a.Notify?)
      modifies this`count, this`pcs
      ensures View() == TP.Apply(old(View()), a)
    {
      var t, p := a.t, pcs[a.t];
      if a.Decrement? {
        count := if count > 0 then count - 1 else USIZE_MAX;
        pcs := pcs[t := TP.RelNotify(p.worker)];
      } else {
        pcs := pcs[t := TP.Unlock(TP.Released(p.worker))];
        if a.target.Some? {
          pcs := pcs[a.target.value := TP.Relock];
        }
      }
    }

    /** `submit` around `acquire`: the first test, the reap loop, the spawn. */
    method Submitting(a: TP.Step)
      requires TP.Enabled(View(), a)
      requires a.Submit? || a.TakeHandleLock? || a.Reap? || a.Spawn? || a.PushHandle? || a.JobEnds?
      modifies this
      ensures View() == TP.Apply(old(View()), a)
    {
      var t, p := a.t, pcs[a.t];
      match a
      case Submit(_) =>
        if !disposed {
          pcs := pcs[t := TP.ReapLock];
        }
      case TakeHandleLock(_) => handleLock, pcs := Some(t), pcs[t := TP.HandlesLocked(p)];
      case Reap(_, seen) =>
        if p.i >= |handles| {
          handleLock, pcs := None, pcs[t := TP.AcqLock];
        } else if seen {
          joined := joined + [handles[p.i]];
          handles := TP.SwapRemove(handles, p.i);
        } else {
          pcs := pcs[t := TP.ReapAt(p.i + 1)];
        }
      case Spawn(_, ok) =>
        if ok {
          spawned := spawned + [|pcs|];
          pcs := pcs[t := TP.HandleLock(|pcs|)] + [TP.Running];
        } else {
          pcs := pcs[t := TP.RelLock(false)];
        }
      case PushHandle(_) => handleLock, handles, pcs := None, handles + [p.w], pcs[t := TP.Idle];
      case JobEnds(_) => pcs := pcs[t := TP.RelLock(true)];
    }

    /** `dispose`. */
    method Disposing(a: TP.Step)
      requires TP.Enabled(View(), a) && (a.BeginDispose? || a.NotifyAll? || a.TakeHandles? || a.Join?)
      modifies this
      ensures View() == TP.Apply(old(View()), a)
    {
      var t, p := a.t, pcs[a.t];
      match a
      case BeginDispose(_) =>
        if !disposed {
          disposed, borrowed, pcs := true, true, pcs[t := TP.DispLock];
        }
      case NotifyAll(_) => pcs := TP.WokenAll(pcs[t := TP.DispHandles]);
      case TakeHandles(_) => handleLock, handles, pcs := None, [], pcs[t := TP.Joining(handles)];
      case Join(_) =>
        if p.hs == [] {
          borrowed, pcs := false, pcs[t := TP.Idle];
        } else {
          joined := joined + [p.hs[0]];
          pcs := pcs[t := TP.Joining(p.hs[1..])];
        }
    }

    /** Any enabled action, whoever takes it, keeps slots and ledger in order. */
    method Step(a: TP.Step)
      requires Valid() && TP.Enabled(View(), a)
      modifies this
      ensures Valid() && View() == TP.Apply(old(View()), a)
    {
      StepKeepsSlots(View(), a);
      StepKeepsLedger(View(), a);
      if a.TakeCountLock? || a.DoPred? || a.DoSleep? || a.Awaken? || a.DoDecide? || a.DropCountLock? {
        Acquire(a);
      } else if a.Decrement? || a.Notify? {
        Release(a);
      } else if a.BeginDispose? || a.NotifyAll? || a.TakeHandles? || a.Join? {
        Disposing(a);
      } else {
        Submitting(a);
      }
    }

    /** Any schedule runs on the object, and ends where the machine says. */
    method Execute(steps: seq<TP.Step>, ghost end: TP.State)
      requires Valid() && TP.Run(View(), steps, end)
      modifies this
      ensures Valid() && View() == end
    {
      var k := 0;
      while k < |steps|
        invariant k <= |steps| && Valid() && TP.Run(View(), steps[k..], end)
      {
        assert steps[k..][0] == steps[k] && steps[k..][1..] == steps[k + 1..];
        Step(steps[k]);
        k := k + 1;
      }
    }
  }

  lemma JobDoneNext<T>(done: seq<T>, x: T, rest: seq<T>)
    ensures done + ([x] + rest) == (done + [x]) + rest
    ensures rest == [] ==> (done + [x]) + rest == done + [x]
    ensures rest != [] ==> rest == [rest[0]] + rest[1..]
  {}

  /** ThreadPool over a linked queue, each worker run to its end when it is joined. */
  class Pool<Job> {
    const jobQueue: LinkedQueue.LinkedBQ<Job>
    var disposed: bool
    var workers: nat
    var executed: seq<Job>
    ghost var accepted: seq<Job>

    ghost predicate Valid()
      reads this, jobQueue, jobQueue.nodes
    {
      && jobQueue.Settled()
      && (disposed ==> jobQueue.disposed && workers == 0)
      && accepted == executed + jobQueue.items
    }

    constructor (capacity: nat, numWorkers: nat)
      ensures Valid() && !disposed && workers == numWorkers && executed == [] && accepted == []
      ensures fresh(jobQueue) && fresh(jobQueue.nodes) && !jobQueue.disposed
    {
      jobQueue := new LinkedQueue.LinkedBQ(capacity);
      disposed, workers, executed, accepted := false, numWorkers, [], [];
    }

    /** The job is accepted, refused, or the caller waits for room. */
    method Submit(job: Job) returns (o: SequentialSpec.Outcome<Job>)
      requires Valid()
      modifies this, jobQueue, jobQueue.nodes
      ensures Valid() && jobQueue.Grows() && executed == old(executed) && disposed == old(disposed)
      ensures workers == old(workers)
      ensures (jobQueue.Contents(), o) == SequentialSpec.Perform(old(jobQueue.Contents()), SequentialSpec.Push(job))
      ensures accepted == old(accepted) + (if o.Done? then [job] else [])
    {
      o := jobQueue.Push(job);
      if o.Done? {
        accepted := accepted + [job];
      }
    }

    /** The worker loop, run until its pop returns no job: it executes what the queue
        holds, oldest first, and then waits (`exited` is false) or ends. */
    method WorkerThreadProc() returns (exited: bool)
      requires jobQueue.Settled()
      modifies this`executed, jobQueue, jobQueue.nodes
      ensures jobQueue.Settled() && jobQueue.Grows() && jobQueue.items == []
      ensures executed == old(executed) + old(jobQueue.items)
      ensures jobQueue.disposed == old(jobQueue.disposed) && exited == jobQueue.disposed
    {
      var o := jobQueue.Pop();
      ghost var all := old(executed) + old(jobQueue.items);
      while o.Item?
        invariant jobQueue.Settled() && jobQueue.Grows() && jobQueue.disposed == old(jobQueue.disposed)
        invariant o.Item? ==> executed + ([o.x] + jobQueue.items) == all
        invariant !o.Item? ==> executed == all && jobQueue.items == [] && o.Error? == jobQueue.disposed
        decreases if o.Item? then |jobQueue.items| + 1 else 0
      {
        JobDoneNext(executed, o.x, jobQueue.items);
        executed := executed + [o.x];
        o := jobQueue.Pop();
      }
      exited := o.Error?;
    }

    /** Disposes the queue, then joins the workers; with at least one of them every job
        accepted so far has been executed, once, in order. */
    method Dispose()
      requires Valid()
      modifies this, jobQueue, jobQueue.nodes
      ensures Valid() && jobQueue.Grows() && disposed && accepted == old(accepted)
      ensures old(disposed) ==> executed == old(executed)
      ensures !old(disposed) && old(workers) > 0 ==> executed == accepted && jobQueue.items == []
    {
      if disposed {
        return;
      }
      disposed := true;
      var _ := jobQueue.Dispose();
      var total := workers;
      while workers > 0
        invariant disposed && workers <= total && jobQueue.Settled() && jobQueue.Grows() && jobQueue.disposed
        invariant accepted == old(accepted) == executed + jobQueue.items
        invariant workers < total ==> jobQueue.items == []
        decreases workers
      {
        var exited := WorkerThreadProc();
        workers := workers - 1;
      }
    }
  }
}
