/** What the users of the scheduler can observe of a step: which tasks are submitted and finished, and
    which worker runs a task of an actor. */
module PoolObservations {
  import opened Options
  import opened ActorPool
  import opened PoolInvariant

  /** The worker that is running a task of `a`. */
  function Runner<T>(p: Pool<T>, a: Actor): Option<Thread> {
    if a in p.place && p.place[a].At? && p.place[a].thread < |p.pcs| && p.pcs[p.place[a].thread].Running?
    then Some(p.place[a].thread) else None
  }

  /** Nothing changes for actor `a`. */
  ghost predicate SameFor<T>(p: Pool<T>, q: Pool<T>, a: Actor) {
    Submitted(q, a) == Submitted(p, a) && Finished(q, a) == Finished(p, a) && Runner(q, a) == Runner(p, a)
  }

  /** No task starts or ends, and the calling thread does not move in or out of submit. */
  ghost predicate SameTasks<T>(p: Pool<T>, q: Pool<T>) {
    && |q.pcs| == |p.pcs| && q.callers == p.callers
    && (forall t :: 0 <= t < |p.pcs| && (p.pcs[t].Running? || q.pcs[t].Running?) ==> q.pcs[t] == p.pcs[t])
  }

  /** A step inside the pool: the invariant holds, and the users of the pool do not see it. */
  ghost predicate Unseen<T>(p: Pool<T>, q: Pool<T>, a: Actor)
    requires |p.pcs| > 0
  {
    && Inv(q) && SameFor(p, q, a) && SameTasks(p, q)
    && q.pcs[0].Idle? == p.pcs[0].Idle?
    && (!q.pcs[0].Idle? ==> q.pcs[0].act == p.pcs[0].act && InSubmit(q.pcs[0]) == InSubmit(p.pcs[0]))
  }

  predicate Internal<T>(x: Action<T>) {
    x.Acquire? || x.Check? || x.Mark? || x.GetQueue? || x.PutQueue? || x.Retire? || x.RunNext? || x.Collect?
  }

  lemma RunningTask<T>(p: Pool<T>, t: Thread)
    requires Inv(p) && HasThread(p, t) && p.pcs[t].Running?
    ensures var a := p.pcs[t].act;
            && Runner(p, a) == Some(t)
            && |Finished(p, a)| < |Submitted(p, a)| && Submitted(p, a)[|Finished(p, a)|] == p.pcs[t].task
  {
    assert ThreadOk(p, t) && ActorOk(p, p.pcs[t].act);
  }

  lemma RunnerRuns<T>(p: Pool<T>, a: Actor)
    requires Inv(p) && Runner(p, a).Some?
    ensures var t := Runner(p, a).value; HasThread(p, t) && p.pcs[t].Running? && p.pcs[t].act == a
  {
    assert ActorOk(p, a);
  }

  lemma FinishedAreSubmitted<T>(p: Pool<T>, a: Actor)
    requires Inv(p)
    ensures |Finished(p, a)| <= |Submitted(p, a)| && Finished(p, a) == Submitted(p, a)[..|Finished(p, a)|]
  {
    assert ActorOk(p, a);
  }

  lemma EnterStep<T>(p: Pool<T>, x: Action<T>, a: Actor)
    requires Inv(p) && Enabled(p, x) && p.callers == 1 && |p.pcs| > 0
    requires x.Acquire? || x.Check? || x.Mark? || x.Collect?
    ensures Unseen(p, Apply(p, x), a)
  {
    StepInv(p, x);
    assert ActorOk(p, a) && ThreadOk(p, 0);
    if !x.Collect? { assert ThreadOk(p, x.thread); }
  }

  lemma GetStep<T>(p: Pool<T>, x: Action<T>, a: Actor)
    requires Inv(p) && Enabled(p, x) && p.callers == 1 && |p.pcs| > 0 && x.GetQueue?
    ensures Unseen(p, Apply(p, x), a)
  {
    StepInv(p, x);
    assert ActorOk(p, a) && ThreadOk(p, 0) && ThreadOk(p, x.thread);
  }

  lemma PutStep<T>(p: Pool<T>, x: Action<T>, a: Actor)
    requires Inv(p) && Enabled(p, x) && p.callers == 1 && |p.pcs| > 0 && x.PutQueue?
    ensures Unseen(p, Apply(p, x), a)
  {
    StepInv(p, x);
    assert ActorOk(p, a) && ThreadOk(p, 0) && ThreadOk(p, x.thread);
  }

  lemma CompleteStep<T>(p: Pool<T>, x: Action<T>, a: Actor)
    requires Inv(p) && Enabled(p, x) && p.callers == 1 && |p.pcs| > 0 && (x.Retire? || x.RunNext?)
    ensures Unseen(p, Apply(p, x), a)
  {
    StepInv(p, x);
    assert ActorOk(p, a) && ThreadOk(p, 0) && ThreadOk(p, x.thread);
  }

  lemma InternalStep<T>(p: Pool<T>, x: Action<T>, a: Actor)
    requires Inv(p) && Enabled(p, x) && Internal(x) && p.callers == 1 && |p.pcs| > 0
    ensures Unseen(p, Apply(p, x), a)
  {
    if x.Acquire? || x.Check? || x.Mark? || x.Collect? {
      EnterStep(p, x, a);
    } else if x.GetQueue? {
      GetStep(p, x, a);
    } else if x.PutQueue? {
      PutStep(p, x, a);
    } else {
      CompleteStep(p, x, a);
    }
  }

  lemma CallStep<T>(p: Pool<T>, t: Thread, c: Actor, r: T, a: Actor)
    requires Inv(p) && CanCallSubmit(p, t, c, r) && p.callers == 1
    ensures var q := DoCallSubmit(p, t, c, r);
            && Inv(q) && SameFor(p, q, a) && SameTasks(p, q)
            && t == 0 && !q.pcs[0].Idle? && q.pcs[0].act == c && InSubmit(q.pcs[0]) == [r]
  {
    StepCallSubmit(p, t, c, r);
    assert ActorOk(p, a);
  }

  /** The step at which submit takes effect. */
  lemma CommitStep<T>(p: Pool<T>, x: Action<T>, a: Actor)
    requires Inv(p) && Enabled(p, x) && (x.Execute? || x.AddPending?) && p.callers == 1
    ensures var q := Apply(p, x);
            && x.thread == 0 && |InSubmit(p.pcs[0])| == 1
            && Inv(q) && SameTasks(p, q) && q.pcs[0].Idle?
            && Submitted(q, a) == Submitted(p, a) + (if p.pcs[0].act == a then InSubmit(p.pcs[0]) else [])
            && Finished(q, a) == Finished(p, a) && Runner(q, a) == Runner(p, a)
  {
    StepInv(p, x);
    assert ActorOk(p, a) && ThreadOk(p, x.thread);
  }

  lemma TakeStep<T>(p: Pool<T>, t: Thread, k: Ticket, a: Actor)
    requires Inv(p) && CanTake(p, t, k) && p.callers == 1
    ensures var q := DoTake(p, t, k);
            && Inv(q) && 0 < t && q.pcs[t].Running? && q.pcs == p.pcs[t := q.pcs[t]]
            && Submitted(q, a) == Submitted(p, a) && Finished(q, a) == Finished(p, a)
            && Runner(q, a) == (if q.pcs[t].act == a then Some(t) else Runner(p, a))
            && Runner(p, q.pcs[t].act) == None
            && |Finished(p, q.pcs[t].act)| < |Submitted(p, q.pcs[t].act)|
            && Submitted(p, q.pcs[t].act)[|Finished(p, q.pcs[t].act)|] == q.pcs[t].task
  {
    StepTake(p, t, k);
    assert ActorOk(p, a) && TicketOk(p, k) && ThreadOk(p, t);
    RunningTask(DoTake(p, t, k), t);
  }

  lemma EndStep<T>(p: Pool<T>, t: Thread, a: Actor)
    requires Inv(p) && CanEndTask(p, t) && p.callers == 1
    ensures var q := DoEndTask(p, t);
            && Inv(q) && 0 < t && !q.pcs[t].Running? && q.pcs == p.pcs[t := q.pcs[t]]
            && Submitted(q, a) == Submitted(p, a)
            && Finished(q, a) == Finished(p, a) + (if p.pcs[t].act == a then [p.pcs[t].task] else [])
            && Runner(q, a) == (if p.pcs[t].act == a then None else Runner(p, a))
  {
    StepEndTask(p, t);
    assert ActorOk(p, a) && ThreadOk(p, t);
  }
}
