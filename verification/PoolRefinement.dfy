/** The scheduler with its locks and split lookups behaves, for every actor, like the atomic
    specification: each step is invisible or is exactly one atomic operation. */
module PoolRefinement {
  import opened ActorPool
  import opened PoolInvariant
  import opened ActorSpec

  predicate AboutToExecute<T>(p: Pool<T>, a: Actor) {
    a in p.place && p.place[a].At? && p.place[a].thread < |p.pcs| && p.pcs[p.place[a].thread].Executing?
  }

  /** The abstract state of actor `a`.  Between `playingNow.add` and `execute`, submit has not taken
      effect yet. */
  function View<T>(p: Pool<T>, a: Actor): ActorView<T> {
    ActorView(Submitted(p, a), |Finished(p, a)| + |InFlight(p, a)|, |Finished(p, a)|,
              a in p.playing && !AboutToExecute(p, a))
  }

  lemma ViewIsOk<T>(p: Pool<T>, a: Actor)
    requires Inv(p)
    ensures ViewOk(View(p, a))
  {
    assert ActorOk(p, a);
    if AboutToExecute(p, a) { assert ThreadOk(p, p.place[a].thread); }
  }

  /** The atomic operation a step performs on actor `a`; the identity for all other steps. */
  function Effect<T>(p: Pool<T>, x: Action<T>, a: Actor): ActorView<T>
    requires Enabled(p, x)
  {
    var v := View(p, a);
    match x
    case Execute(t) => if p.pcs[t].act == a then SpecSubmit(v, p.pcs[t].task) else v
    case AddPending(t) => if p.pcs[t].act == a then SpecSubmit(v, p.pcs[t].op.task) else v
    case EndTask(t) => if p.pcs[t].act == a then SpecFinish(v) else v
    case Retire(t) => if p.pcs[t].act == a then SpecComplete(v) else v
    case RunNext(t) => if p.pcs[t].act == a then SpecComplete(v) else v
    case _ => v
  }

  lemma ExecuteRefines<T>(p: Pool<T>, t: Thread, a: Actor)
    requires Inv(p) && CanExecute(p, t)
    ensures View(DoExecute(p, t), a) == Effect(p, Execute(t), a)
  {
    assert ThreadOk(p, t) && ActorOk(p, a);
  }

  lemma AddPendingRefines<T>(p: Pool<T>, t: Thread, a: Actor)
    requires Inv(p) && CanAddPending(p, t)
    ensures View(DoAddPending(p, t), a) == Effect(p, AddPending(t), a)
  {
    assert ThreadOk(p, t) && ActorOk(p, a);
    if AboutToExecute(p, a) { assert ThreadOk(p, p.place[a].thread); }
  }

  lemma EndTaskRefines<T>(p: Pool<T>, t: Thread, a: Actor)
    requires Inv(p) && CanEndTask(p, t)
    ensures View(DoEndTask(p, t), a) == Effect(p, EndTask(t), a)
  {
    assert ThreadOk(p, t) && ActorOk(p, a);
  }

  lemma RetireRefines<T>(p: Pool<T>, t: Thread, a: Actor)
    requires Inv(p) && CanRetire(p, t)
    ensures View(DoRetire(p, t), a) == Effect(p, Retire(t), a)
  {
    assert ThreadOk(p, t) && ActorOk(p, a);
  }

  lemma RunNextRefines<T>(p: Pool<T>, t: Thread, a: Actor)
    requires Inv(p) && CanRunNext(p, t)
    ensures View(DoRunNext(p, t), a) == Effect(p, RunNext(t), a)
  {
    assert ThreadOk(p, t) && ActorOk(p, a);
  }

  lemma TakeIsInvisible<T>(p: Pool<T>, t: Thread, k: Ticket, a: Actor)
    requires Inv(p) && CanTake(p, t, k)
    ensures View(DoTake(p, t, k), a) == View(p, a)
  {
    assert TicketOk(p, k) && ThreadOk(p, t) && ActorOk(p, a);
  }

  lemma MarkIsInvisible<T>(p: Pool<T>, t: Thread, a: Actor)
    requires Inv(p) && CanMark(p, t)
    ensures View(DoMark(p, t), a) == View(p, a)
  {
    assert ThreadOk(p, t) && ActorOk(p, a);
  }

  lemma MoveIsInvisible<T>(p: Pool<T>, x: Action<T>, a: Actor)
    requires Inv(p) && Enabled(p, x)
    requires x.CallSubmit? || x.Acquire? || x.Check? || x.GetQueue? || x.PutQueue?
    ensures View(Apply(p, x), a) == View(p, a)
  {
    assert ThreadOk(p, x.thread) && ActorOk(p, a);
  }

  /** Every step of the fine-grained scheduler has, for every actor, exactly its atomic effect. */
  lemma Refines<T>(p: Pool<T>, x: Action<T>, a: Actor)
    requires Inv(p) && Enabled(p, x)
    ensures View(Apply(p, x), a) == Effect(p, x, a)
  {
    match x
    case Execute(t) => ExecuteRefines(p, t, a);
    case AddPending(t) => AddPendingRefines(p, t, a);
    case EndTask(t) => EndTaskRefines(p, t, a);
    case Retire(t) => RetireRefines(p, t, a);
    case RunNext(t) => RunNextRefines(p, t, a);
    case Take(t, k) => TakeIsInvisible(p, t, k, a);
    case Mark(t) => MarkIsInvisible(p, t, a);
    case Collect(b) =>
    case _ => MoveIsInvisible(p, x, a);
  }

  /** complete is called only when the actor's task has finished, and submit keeps the view sound. */
  lemma EffectIsAllowed<T>(p: Pool<T>, x: Action<T>, a: Actor)
    requires Inv(p) && Enabled(p, x)
    ensures ViewOk(Effect(p, x, a))
    ensures (x.Retire? || x.RunNext?) && p.pcs[x.thread].act == a ==>
              View(p, a).busy && View(p, a).done == View(p, a).handed
  {
    Refines(p, x, a);
    StepInv(p, x);
    ViewIsOk(Apply(p, x), a);
    assert ActorOk(p, a);
    if x.Retire? || x.RunNext? { assert ThreadOk(p, x.thread); }
  }
}
