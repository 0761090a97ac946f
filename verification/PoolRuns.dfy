/** Runs of the scheduler: any finite sequence of steps from the initial state, in any interleaving. */
module PoolRuns {
  import opened ActorPool
  import opened PoolInvariant
  import opened PoolObservations

  /** `Init` as the constructor leaves the pool: no queues, no wrappers, every thread idle. */
  function Init<T>(callers: nat, threads: nat): Pool<T> {
    Pool(callers, map[], [], {}, map[], map[], 0, seq(threads, _ => Idle), map[], map[], map[])
  }

  predicate CanRun<T>(p: Pool<T>, xs: seq<Action<T>>)
    decreases |xs|
  {
    xs == [] || (Enabled(p, xs[0]) && CanRun(Apply(p, xs[0]), xs[1..]))
  }

  function RunAll<T>(p: Pool<T>, xs: seq<Action<T>>): Pool<T>
    requires CanRun(p, xs)
    decreases |xs|
  {
    if xs == [] then p else RunAll(Apply(p, xs[0]), xs[1..])
  }

  lemma {:induction false} RunInv<T>(p: Pool<T>, xs: seq<Action<T>>)
    requires Inv(p) && CanRun(p, xs)
    ensures Inv(RunAll(p, xs))
    decreases |xs|
  {
    if xs != [] {
      StepInv(p, xs[0]);
      RunInv(Apply(p, xs[0]), xs[1..]);
    }
  }

  lemma InitInv<T>(callers: nat, threads: nat)
    ensures Inv(Init<T>(callers, threads))
  {
    var p := Init<T>(callers, threads);
    forall t | 0 <= t < |p.pcs| ensures ThreadOk(p, t) { assert p.pcs[t] == Idle; }
    forall a: Actor ensures ActorOk(p, a) { }
  }

  // ---------------------------------------------------------------- what every run keeps

  /** In every interleaving, an actor is in `playingNow` exactly when its wrapper exists, and there
      is never a second one. */
  lemma OneWrapperPerActor<T>(callers: nat, threads: nat, xs: seq<Action<T>>, a: Actor)
    requires CanRun(Init<T>(callers, threads), xs)
    ensures var p := RunAll(Init(callers, threads), xs);
            && (a in p.playing <==> exists pl :: WrapperAt(p, a, pl))
            && (forall pl, pl' :: WrapperAt(p, a, pl) && WrapperAt(p, a, pl') ==> pl == pl')
  {
    var p := RunAll(Init(callers, threads), xs);
    InitInv<T>(callers, threads);
    RunInv(Init(callers, threads), xs);
    assert ActorOk(p, a);
    forall pl | WrapperAt(p, a, pl) ensures a in p.place && p.place[a] == pl {
      match pl
      case Queued(k) => assert TicketOk(p, k);
      case At(t) => assert ThreadOk(p, t);
    }
  }

  /** The tasks of one actor never overlap. */
  lemma NoOverlap<T>(callers: nat, threads: nat, xs: seq<Action<T>>, t: Thread, t': Thread)
    requires CanRun(Init<T>(callers, threads), xs)
    requires var p := RunAll(Init(callers, threads), xs);
             && HasThread(p, t) && HasThread(p, t') && p.pcs[t].Running? && p.pcs[t'].Running?
             && p.pcs[t].act == p.pcs[t'].act
    ensures t == t'
  {
    var p := RunAll(Init(callers, threads), xs);
    OneWrapperPerActor(callers, threads, xs, p.pcs[t].act);
    assert WrapperAt(p, p.pcs[t].act, At(t)) && WrapperAt(p, p.pcs[t].act, At(t'));
  }

  /** In every interleaving the submitted tasks of an actor are, in submission order, those finished,
      the one handed to the executor and those waiting; an actor outside `playingNow` has neither of
      the last two.  A task that throws still counts as finished. */
  lemma SerialAndInOrder<T>(callers: nat, threads: nat, xs: seq<Action<T>>, a: Actor)
    requires CanRun(Init<T>(callers, threads), xs)
    ensures var p := RunAll(Init(callers, threads), xs);
            && Submitted(p, a) == Finished(p, a) + InFlight(p, a) + Pending(p, a)
            && |InFlight(p, a)| <= 1
            && (a !in p.playing ==> Submitted(p, a) == Finished(p, a))
  {
    InitInv<T>(callers, threads);
    RunInv(Init(callers, threads), xs);
    assert ActorOk(RunAll(Init(callers, threads), xs), a);
  }

  /** The create-if-absent of `pendingRunnablesOf` never replaces a queue: whatever step is taken, an
      actor that has a queue keeps that queue object, unless the entry is collected, and then the
      actor is idle and the queue empty. */
  lemma QueueNeverReplaced<T>(p: Pool<T>, x: Action<T>, a: Actor)
    requires Inv(p) && Enabled(p, x) && a in p.acts
    ensures a in Apply(p, x).acts ==> Apply(p, x).acts[a] == p.acts[a]
    ensures a !in Apply(p, x).acts ==>
              x == Collect(a) && a !in p.playing && Pending(p, a) == [] && InFlight(p, a) == []
  {
    assert ActorOk(p, a);
    if x.PutQueue? { assert ThreadOk(p, x.thread); }
  }

  // ---------------------------------------------------------------- submission order is call order

  function RequestOf<T>(x: Action<T>, a: Actor): seq<T> {
    if x.CallSubmit? && x.act == a then [x.task] else []
  }

  /** The tasks for `a` that the run passes to submit, in order. */
  function Requested<T>(xs: seq<Action<T>>, a: Actor): seq<T> {
    if xs == [] then [] else RequestOf(xs[0], a) + Requested(xs[1..], a)
  }

  /** The task a thread is in the middle of submitting to `a`. */
  function Submitting<T>(pc: Pc<T>, a: Actor): seq<T> {
    if !pc.Idle? && pc.act == a then InSubmit(pc) else []
  }

  lemma StepSubmits<T>(p: Pool<T>, x: Action<T>, a: Actor)
    requires Inv(p) && Enabled(p, x) && p.callers == 1 && |p.pcs| > 0
    ensures var q := Apply(p, x);
            && q.callers == 1 && |q.pcs| > 0
            && Submitted(q, a) + Submitting(q.pcs[0], a) ==
               Submitted(p, a) + Submitting(p.pcs[0], a) + RequestOf(x, a)
  {
    match x
    case CallSubmit(t, b, r) => CallStep(p, t, b, r, a);
    case Execute(_) => CommitStep(p, x, a);
    case AddPending(_) => CommitStep(p, x, a);
    case Take(t, k) => TakeStep(p, t, k, a);
    case EndTask(t) => EndStep(p, t, a);
    case _ => InternalStep(p, x, a);
  }

  lemma Assoc<T>(s: seq<T>, t: seq<T>, u: seq<T>)
    ensures s + t + u == s + (t + u)
  {
  }

  /** With one calling thread (the selector), the tasks submitted are the tasks passed to submit, in
      call order, except that the last call may still be inside submit. */
  lemma {:induction false} SubmittedInCallOrder<T>(p: Pool<T>, xs: seq<Action<T>>, a: Actor)
    requires Inv(p) && CanRun(p, xs) && p.callers == 1 && |p.pcs| > 0
    ensures |RunAll(p, xs).pcs| > 0
    ensures Submitted(RunAll(p, xs), a) + Submitting(RunAll(p, xs).pcs[0], a) ==
            Submitted(p, a) + Submitting(p.pcs[0], a) + Requested(xs, a)
    decreases |xs|
  {
    if xs != [] {
      var q := Apply(p, xs[0]);
      StepInv(p, xs[0]);
      StepSubmits(p, xs[0], a);
      SubmittedInCallOrder(q, xs[1..], a);
      Assoc(Submitted(p, a) + Submitting(p.pcs[0], a), RequestOf(xs[0], a), Requested(xs[1..], a));
    }
  }
}
