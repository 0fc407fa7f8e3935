/** Which of the two queues keeps ThreadPool's promise.  The pool machine works on an
    abstract queue; here its hypotheses are discharged, or refuted, for the queues
    themselves. */
module ThreadPoolQueues {
  import QueueSpec
  import TP = ThreadPool
  import LinkedMachine
  import LinkedInvariant
  import LinkedTheorems
  import LinkedLimits
  import ArrayMachine
  import ArrayInvariant
  import ArrayTheorems

  /** A worker of the pool is about to pop. */
  ghost predicate AtPop<Job>(pool: TP.State<Job>, w: nat) {
    w < |pool.workers| && pool.workers[w].Popping?
  }

  /** Over ArrayBQ the pool is strict: whenever the queue refuses a pop, the strict pool
      machine lets the worker leave. */
  lemma ArrayQueueIsStrict<Job>(s: ArrayMachine.State<Job>, a: ArrayMachine.Step<Job>, pool: TP.State<Job>, w: nat)
    requires ArrayInvariant.Structure(s) && ArrayMachine.Enabled(s, a)
    requires ArrayTheorems.EventOf(s, a) == QueueSpec.Refuse
    requires AtPop(pool, w) && pool.q == ArrayTheorems.Abstract(s)
    ensures TP.Enabled(pool.(strict := true), TP.Refused(w))
  {
    ArrayTheorems.RefusalMeansClosed(s, a);
  }

  /** Over LinkedBQ it is not: the machine without the flag allows every refusal of the
      queue, and the strict one exactly those of a closed queue. */
  lemma LinkedQueueIsNotStrict<Job>(s: LinkedMachine.State<Job>, a: LinkedMachine.Step<Job>,
                                    pool: TP.State<Job>, w: nat)
    requires LinkedInvariant.Structure(s) && LinkedMachine.Enabled(s, a)
    requires LinkedTheorems.EventOf(s, a) == QueueSpec.Refuse
    requires AtPop(pool, w) && pool.q == LinkedTheorems.Abstract(s)
    ensures TP.Enabled(pool.(strict := false), TP.Refused(w))
    ensures TP.Enabled(pool.(strict := true), TP.Refused(w)) <==> LinkedTheorems.Abstract(s).closed
  {
    LinkedTheorems.StepRefines(s, a);
  }

  /** And the difference shows: in every program with three threads over a LinkedBQ a
      worker's pop can be refused although the strict machine would not let it leave,
      and a job be accepted after that, with nobody left to pop it. */
  lemma LinkedWorkerLeavesTooEarly<Job>(s: LinkedMachine.State<Job>, t: nat, i: nat, j: nat, job: Job,
                                        pool: TP.State<Job>, w: nat)
    returns (before: seq<LinkedMachine.Step<Job>>, mid: LinkedMachine.State<Job>,
             after: seq<LinkedMachine.Step<Job>>, end: LinkedMachine.State<Job>)
    requires LinkedMachine.Init(s) && LinkedLimits.Bystanders(s, t, i, j) && AtPop(pool, w)
    ensures LinkedMachine.Run(s, before, mid) && LinkedInvariant.Structure(mid)
    ensures LinkedMachine.Enabled(mid, LinkedMachine.DoDecide(t))
    ensures LinkedTheorems.EventOf(mid, LinkedMachine.DoDecide(t)) == QueueSpec.Refuse
    ensures !TP.Enabled(pool.(strict := true, q := LinkedTheorems.Abstract(mid)), TP.Refused(w))
    ensures LinkedMachine.Run(LinkedMachine.Apply(mid, LinkedMachine.DoDecide(t)), after, end)
    ensures end.accepted == [job] && end.delivered == [] && end.chain.count == 1
  {
    before, mid, after, end := LinkedLimits.PopMayRefuseEarly(s, t, i, j, job);
    LinkedQueueIsNotStrict(mid, LinkedMachine.DoDecide(t), pool.(q := LinkedTheorems.Abstract(mid)), w);
  }
}
