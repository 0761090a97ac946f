/** The inductive invariant of the scheduler, one lemma per step. */
module PoolInvariant {
  import opened ActorPool

  /** The wrapper of actor `a` is at `pl`. */
  ghost predicate WrapperAt<T>(p: Pool<T>, a: Actor, pl: Place) {
    match pl
    case Queued(k) => k in p.executor && k < p.nextTicket && p.executor[k].act == a
    case At(t) => t < |p.pcs| && Carries(p.pcs[t]) && p.pcs[t].act == a
  }

  /** What a thread may rely on while it holds the actor's monitor. */
  ghost predicate PcOk<T>(p: Pool<T>, pc: Pc<T>) {
    match pc
    case Marking(a, _) => a !in p.playing
    case Executing(a, _) => Pending(p, a) == []
    case Getting(a, op) => a in p.playing
    case Putting(a, op) => a in p.playing && a !in p.acts
    case Using(a, op, q) => a in p.playing && a in p.acts && p.acts[a] == q
    case _ => true
  }

  predicate RoleOk<T>(isCaller: bool, pc: Pc<T>) {
    match pc
    case Idle => true
    case Running(_, _) => !isCaller
    case Entering(_, op) => isCaller == op.Submit?
    case Checking(_, _) => isCaller
    case Marking(_, _) => isCaller
    case Executing(_, _) => isCaller
    case Getting(_, op) => isCaller == op.Submit?
    case Putting(_, op) => isCaller == op.Submit?
    case Using(_, op, _) => isCaller == op.Submit?
  }

  ghost predicate ThreadOk<T>(p: Pool<T>, t: Thread)
    requires t < |p.pcs|
  {
    var pc := p.pcs[t];
    && PcOk(p, pc) && RoleOk(t < p.callers, pc)
    && (InMonitor(pc) ==> pc.act in p.monitor && p.monitor[pc.act] == t)
    && (Carries(pc) ==> pc.act in p.place && p.place[pc.act] == At(t))
  }

  ghost predicate ActorOk<T>(p: Pool<T>, a: Actor) {
    && (a in p.playing <==> a in p.place)
    && (a in p.place ==> WrapperAt(p, a, p.place[a]))
    && (a in p.monitor ==>
          p.monitor[a] < |p.pcs| && InMonitor(p.pcs[p.monitor[a]]) && p.pcs[p.monitor[a]].act == a)
    && (a in p.acts ==> p.acts[a] < |p.heap|)
    && Submitted(p, a) == Finished(p, a) + InFlight(p, a) + Pending(p, a)
    && (a !in p.playing ==> Pending(p, a) == [])
  }

  ghost predicate TicketOk<T>(p: Pool<T>, k: Ticket) {
    k in p.executor ==>
      k < p.nextTicket && p.executor[k].act in p.place && p.place[p.executor[k].act] == Queued(k)
  }

  ghost predicate Inv<T>(p: Pool<T>) {
    && (forall t :: 0 <= t < |p.pcs| ==> ThreadOk(p, t))
    && (forall a: Actor :: ActorOk(p, a))
    && (forall k: Ticket :: TicketOk(p, k))
    && (forall a, b :: a in p.acts && b in p.acts && p.acts[a] == p.acts[b] ==> a == b)
  }


  lemma StepCallSubmit<T>(p: Pool<T>, t: Thread, a: Actor, r: T)
    requires Inv(p) && CanCallSubmit(p, t, a, r)
    ensures Inv(DoCallSubmit(p, t, a, r))
  {
    var q := DoCallSubmit(p, t, a, r);
    assert ThreadOk(p, t) && ActorOk(p, a);
    forall z | 0 <= z < |q.pcs| ensures ThreadOk(q, z) { assert ThreadOk(p, z); }
    forall z: Actor ensures ActorOk(q, z) { assert ActorOk(p, z); }
    forall z: Ticket ensures TicketOk(q, z) { assert TicketOk(p, z); }
  }

  lemma AcquireThreads<T>(p: Pool<T>, t: Thread, z: Thread)
    requires Inv(p) && CanAcquire(p, t) && HasThread(p, z)
    ensures HasThread(DoAcquire(p, t), z) && ThreadOk(DoAcquire(p, t), z)
  {
    assert ThreadOk(p, t) && ActorOk(p, p.pcs[t].act) && ThreadOk(p, z);
  }

  lemma AcquireActors<T>(p: Pool<T>, t: Thread, z: Actor)
    requires Inv(p) && CanAcquire(p, t)
    ensures ActorOk(DoAcquire(p, t), z)
  {
    assert ThreadOk(p, t) && ActorOk(p, p.pcs[t].act) && ActorOk(p, z);
  }

  lemma StepAcquire<T>(p: Pool<T>, t: Thread)
    requires Inv(p) && CanAcquire(p, t)
    ensures Inv(DoAcquire(p, t))
  {
    var q := DoAcquire(p, t);
    forall z | 0 <= z < |q.pcs| ensures ThreadOk(q, z) { AcquireThreads(p, t, z); }
    forall z: Actor ensures ActorOk(q, z) { AcquireActors(p, t, z); }
    forall z: Ticket ensures TicketOk(q, z) { assert TicketOk(p, z); }
  }

  lemma StepCheck<T>(p: Pool<T>, t: Thread)
    requires Inv(p) && CanCheck(p, t)
    ensures Inv(DoCheck(p, t))
  {
    var q := DoCheck(p, t);
    assert ThreadOk(p, t) && ActorOk(p, p.pcs[t].act);
    forall z | 0 <= z < |q.pcs| ensures ThreadOk(q, z) { assert ThreadOk(p, z); }
    forall z: Actor ensures ActorOk(q, z) { assert ActorOk(p, z); }
    forall z: Ticket ensures TicketOk(q, z) { assert TicketOk(p, z); }
  }

  lemma StepMark<T>(p: Pool<T>, t: Thread)
    requires Inv(p) && CanMark(p, t)
    ensures Inv(DoMark(p, t))
  {
    var q := DoMark(p, t);
    assert ThreadOk(p, t) && ActorOk(p, p.pcs[t].act);
    forall z | 0 <= z < |q.pcs| ensures ThreadOk(q, z) { assert ThreadOk(p, z); }
    forall z: Actor ensures ActorOk(q, z) { assert ActorOk(p, z); }
    forall z: Ticket ensures TicketOk(q, z) { assert TicketOk(p, z); }
  }

  lemma ExecuteThreads<T>(p: Pool<T>, t: Thread, z: Thread)
    requires Inv(p) && CanExecute(p, t) && HasThread(p, z)
    ensures HasThread(DoExecute(p, t), z) && ThreadOk(DoExecute(p, t), z)
  {
    assert ThreadOk(p, t) && ActorOk(p, p.pcs[t].act) && ThreadOk(p, z);
  }

  lemma ExecuteActors<T>(p: Pool<T>, t: Thread, z: Actor)
    requires Inv(p) && CanExecute(p, t)
    ensures ActorOk(DoExecute(p, t), z)
  {
    assert ThreadOk(p, t) && ActorOk(p, p.pcs[t].act) && ActorOk(p, z);
  }

  lemma StepExecute<T>(p: Pool<T>, t: Thread)
    requires Inv(p) && CanExecute(p, t)
    ensures Inv(DoExecute(p, t))
  {
    var q := DoExecute(p, t);
    forall z | 0 <= z < |q.pcs| ensures ThreadOk(q, z) { ExecuteThreads(p, t, z); }
    forall z: Actor ensures ActorOk(q, z) { ExecuteActors(p, t, z); }
    forall z: Ticket ensures TicketOk(q, z) { assert TicketOk(p, z) && ActorOk(p, p.pcs[t].act) && ThreadOk(p, t); }
  }

  lemma GetQueueThreads<T>(p: Pool<T>, t: Thread, z: Thread)
    requires Inv(p) && CanGetQueue(p, t) && HasThread(p, z)
    ensures HasThread(DoGetQueue(p, t), z) && ThreadOk(DoGetQueue(p, t), z)
  {
    assert ThreadOk(p, t) && ActorOk(p, p.pcs[t].act) && ThreadOk(p, z);
  }

  lemma GetQueueActors<T>(p: Pool<T>, t: Thread, z: Actor)
    requires Inv(p) && CanGetQueue(p, t)
    ensures ActorOk(DoGetQueue(p, t), z)
  {
    assert ThreadOk(p, t) && ActorOk(p, p.pcs[t].act) && ActorOk(p, z);
  }

  lemma StepGetQueue<T>(p: Pool<T>, t: Thread)
    requires Inv(p) && CanGetQueue(p, t)
    ensures Inv(DoGetQueue(p, t))
  {
    var q := DoGetQueue(p, t);
    forall z | 0 <= z < |q.pcs| ensures ThreadOk(q, z) { GetQueueThreads(p, t, z); }
    forall z: Actor ensures ActorOk(q, z) { GetQueueActors(p, t, z); }
    forall z: Ticket ensures TicketOk(q, z) { assert TicketOk(p, z); }
  }

  lemma PutQueueThreads<T>(p: Pool<T>, t: Thread, z: Thread)
    requires Inv(p) && CanPutQueue(p, t) && HasThread(p, z)
    ensures HasThread(DoPutQueue(p, t), z) && ThreadOk(DoPutQueue(p, t), z)
  {
    assert ThreadOk(p, t) && ActorOk(p, p.pcs[t].act) && ThreadOk(p, z);
  }

  lemma PutQueueActors<T>(p: Pool<T>, t: Thread, z: Actor)
    requires Inv(p) && CanPutQueue(p, t)
    ensures ActorOk(DoPutQueue(p, t), z)
  {
    assert ThreadOk(p, t) && ActorOk(p, p.pcs[t].act) && ActorOk(p, z);
  }

  lemma StepPutQueue<T>(p: Pool<T>, t: Thread)
    requires Inv(p) && CanPutQueue(p, t)
    ensures Inv(DoPutQueue(p, t))
  {
    var q := DoPutQueue(p, t);
    forall z | z in p.acts ensures p.acts[z] < |p.heap| { assert ActorOk(p, z); }
    forall z | 0 <= z < |q.pcs| ensures ThreadOk(q, z) { PutQueueThreads(p, t, z); }
    forall z: Actor ensures ActorOk(q, z) { PutQueueActors(p, t, z); }
    forall z: Ticket ensures TicketOk(q, z) { assert TicketOk(p, z); }
  }

  lemma AddPendingThreads<T>(p: Pool<T>, t: Thread, z: Thread)
    requires Inv(p) && CanAddPending(p, t) && HasThread(p, z)
    ensures HasThread(DoAddPending(p, t), z) && ThreadOk(DoAddPending(p, t), z)
  {
    assert ThreadOk(p, t) && ActorOk(p, p.pcs[t].act) && ThreadOk(p, z);
  }

  lemma AddPendingActors<T>(p: Pool<T>, t: Thread, z: Actor)
    requires Inv(p) && CanAddPending(p, t)
    ensures ActorOk(DoAddPending(p, t), z)
  {
    assert ThreadOk(p, t) && ActorOk(p, p.pcs[t].act) && ActorOk(p, z);
  }

  lemma StepAddPending<T>(p: Pool<T>, t: Thread)
    requires Inv(p) && CanAddPending(p, t)
    ensures Inv(DoAddPending(p, t))
  {
    var q := DoAddPending(p, t);
    forall z | 0 <= z < |q.pcs| ensures ThreadOk(q, z) { AddPendingThreads(p, t, z); }
    forall z: Actor ensures ActorOk(q, z) { AddPendingActors(p, t, z); }
    forall z: Ticket ensures TicketOk(q, z) { assert TicketOk(p, z); }
  }

  lemma StepRetire<T>(p: Pool<T>, t: Thread)
    requires Inv(p) && CanRetire(p, t)
    ensures Inv(DoRetire(p, t))
  {
    var q := DoRetire(p, t);
    assert ThreadOk(p, t) && ActorOk(p, p.pcs[t].act);
    forall z | 0 <= z < |q.pcs| ensures ThreadOk(q, z) { assert ThreadOk(p, z); }
    forall z: Actor ensures ActorOk(q, z) { assert ActorOk(p, z); }
    forall z: Ticket ensures TicketOk(q, z) { assert TicketOk(p, z); }
  }

  lemma StepRunNext<T>(p: Pool<T>, t: Thread)
    requires Inv(p) && CanRunNext(p, t)
    ensures Inv(DoRunNext(p, t))
  {
    var q := DoRunNext(p, t);
    assert ThreadOk(p, t) && ActorOk(p, p.pcs[t].act);
    forall z | 0 <= z < |q.pcs| ensures ThreadOk(q, z) { assert ThreadOk(p, z); }
    forall z: Actor ensures ActorOk(q, z) { assert ActorOk(p, z); }
    forall z: Ticket ensures TicketOk(q, z) { assert TicketOk(p, z); }
  }

  lemma StepTake<T>(p: Pool<T>, t: Thread, k: Ticket)
    requires Inv(p) && CanTake(p, t, k)
    ensures Inv(DoTake(p, t, k))
  {
    var q := DoTake(p, t, k);
    assert ThreadOk(p, t) && ActorOk(p, p.executor[k].act); assert TicketOk(p, k);
    forall z | 0 <= z < |q.pcs| ensures ThreadOk(q, z) { assert ThreadOk(p, z); }
    forall z: Actor ensures ActorOk(q, z) { assert ActorOk(p, z); }
    forall z: Ticket ensures TicketOk(q, z) { assert TicketOk(p, z); }
  }

  lemma StepEndTask<T>(p: Pool<T>, t: Thread)
    requires Inv(p) && CanEndTask(p, t)
    ensures Inv(DoEndTask(p, t))
  {
    var q := DoEndTask(p, t);
    assert ThreadOk(p, t) && ActorOk(p, p.pcs[t].act);
    forall z | 0 <= z < |q.pcs| ensures ThreadOk(q, z) { assert ThreadOk(p, z); }
    forall z: Actor ensures ActorOk(q, z) { assert ActorOk(p, z); }
    forall z: Ticket ensures TicketOk(q, z) { assert TicketOk(p, z); }
  }

  lemma StepCollect<T>(p: Pool<T>, a: Actor)
    requires Inv(p) && CanCollect(p, a)
    ensures Inv(DoCollect(p, a))
  {
    var q := DoCollect(p, a);
    assert ActorOk(p, a);
    forall z | 0 <= z < |q.pcs| ensures ThreadOk(q, z) { assert ThreadOk(p, z); }
    forall z: Actor ensures ActorOk(q, z) { assert ActorOk(p, z); }
    forall z: Ticket ensures TicketOk(q, z) { assert TicketOk(p, z); }
  }

  lemma StepInv<T>(p: Pool<T>, x: Action<T>)
    requires Inv(p) && Enabled(p, x)
    ensures Inv(Apply(p, x))
  {
    match x
    case CallSubmit(t, a, r) => StepCallSubmit(p, t, a, r);
    case Acquire(t) => StepAcquire(p, t);
    case Check(t) => StepCheck(p, t);
    case Mark(t) => StepMark(p, t);
    case Execute(t) => StepExecute(p, t);
    case GetQueue(t) => StepGetQueue(p, t);
    case PutQueue(t) => StepPutQueue(p, t);
    case AddPending(t) => StepAddPending(p, t);
    case Retire(t) => StepRetire(p, t);
    case RunNext(t) => StepRunNext(p, t);
    case Take(t, k) => StepTake(p, t, k);
    case EndTask(t) => StepEndTask(p, t);
    case Collect(a) => StepCollect(p, a);
  }
}
