/** When nothing more is submitted the scheduler drains: every step makes progress, some step can be
    taken while a task is unfinished, and it stops with every task finished. */
module PoolDrain {
  import opened ActorPool
  import opened PoolInvariant
  import opened PoolRuns

  function Weight<T>(pc: Pc<T>): nat {
    match pc
    case Idle => 0
    case Running(_, _) => 6
    case Entering(_, op) => if op.Submit? then 13 else 5
    case Checking(_, _) => 12
    case Marking(_, _) => 9
    case Executing(_, _) => 8
    case Getting(_, op) => if op.Submit? then 11 else 4
    case Putting(_, op) => if op.Submit? then 10 else 3
    case Using(_, op, _) => if op.Submit? then 8 else 1
  }

  function PcWork<T>(pcs: seq<Pc<T>>): nat {
    if pcs == [] then 0 else Weight(pcs[0]) + PcWork(pcs[1..])
  }

  function QueueWork<T>(heap: seq<seq<T>>): nat {
    if heap == [] then 0 else 7 * |heap[0]| + QueueWork(heap[1..])
  }

  function Work<T>(p: Pool<T>): nat {
    PcWork(p.pcs) + QueueWork(p.heap) + 7 * |p.executor| + |p.acts|
  }

  lemma {:induction false} MovePc<T>(pcs: seq<Pc<T>>, t: nat, pc: Pc<T>)
    requires t < |pcs|
    ensures PcWork(pcs[t := pc]) + Weight(pcs[t]) == PcWork(pcs) + Weight(pc)
  {
    if t == 0 {
      assert pcs[t := pc][1..] == pcs[1..];
    } else {
      MovePc(pcs[1..], t - 1, pc);
      assert pcs[t := pc][1..] == pcs[1..][t - 1 := pc];
    }
  }

  lemma {:induction false} SetQueue<T>(heap: seq<seq<T>>, q: nat, s: seq<T>)
    requires q < |heap|
    ensures QueueWork(heap[q := s]) + 7 * |heap[q]| == QueueWork(heap) + 7 * |s|
  {
    if q == 0 {
      assert heap[q := s][1..] == heap[1..];
    } else {
      SetQueue(heap[1..], q - 1, s);
      assert heap[q := s][1..] == heap[1..][q - 1 := s];
    }
  }

  lemma {:induction false} NewQueue<T>(heap: seq<seq<T>>)
    ensures QueueWork(heap + [[]]) == QueueWork(heap)
  {
    if heap != [] {
      NewQueue(heap[1..]);
      assert (heap + [[]])[1..] == heap[1..] + [[]];
    }
  }

  lemma MapSizes<K, V>(m: map<K, V>, k: K, v: V)
    ensures |m[k := v]| <= |m| + 1
    ensures k in m ==> |m - {k}| == |m| - 1
  {
    assert m[k := v].Keys == m.Keys + {k};
    assert (m - {k}).Keys == m.Keys - {k};
    assert |m.Keys + {k}| <= |m.Keys| + 1;
  }

  /** Steps that only move the program counter of a thread, as far as the work is concerned. */
  lemma MoveWorks<T>(p: Pool<T>, x: Action<T>)
    requires Inv(p) && Enabled(p, x)
    requires x.Acquire? || x.Check? || x.Mark? || x.GetQueue? || x.Retire? || x.EndTask?
    ensures Work(Apply(p, x)) < Work(p)
  {
    assert ThreadOk(p, x.thread);
    MovePc(p.pcs, x.thread, Apply(p, x).pcs[x.thread]);
  }

  lemma ExecuteWorks<T>(p: Pool<T>, t: Thread)
    requires CanExecute(p, t)
    ensures Work(DoExecute(p, t)) < Work(p)
  {
    MovePc(p.pcs, t, Idle);
    MapSizes(p.executor, p.nextTicket, Wrapper(p.pcs[t].act, p.pcs[t].task));
  }

  lemma PutQueueWorks<T>(p: Pool<T>, t: Thread)
    requires CanPutQueue(p, t)
    ensures Work(DoPutQueue(p, t)) < Work(p)
  {
    MovePc(p.pcs, t, DoPutQueue(p, t).pcs[t]);
    MapSizes(p.acts, p.pcs[t].act, |p.heap|);
    NewQueue(p.heap);
  }

  lemma AddPendingWorks<T>(p: Pool<T>, t: Thread)
    requires CanAddPending(p, t)
    ensures Work(DoAddPending(p, t)) < Work(p)
  {
    MovePc(p.pcs, t, Idle);
    SetQueue(p.heap, p.pcs[t].queue, p.heap[p.pcs[t].queue] + [p.pcs[t].op.task]);
  }

  lemma RunNextWorks<T>(p: Pool<T>, t: Thread)
    requires CanRunNext(p, t)
    ensures Work(DoRunNext(p, t)) < Work(p)
  {
    var q := p.pcs[t].queue;
    MovePc(p.pcs, t, Idle);
    SetQueue(p.heap, q, p.heap[q][1..]);
    MapSizes(p.executor, p.nextTicket, Wrapper(p.pcs[t].act, p.heap[q][0]));
  }

  lemma TakeWorks<T>(p: Pool<T>, t: Thread, k: Ticket)
    requires CanTake(p, t, k)
    ensures Work(DoTake(p, t, k)) < Work(p)
  {
    MovePc(p.pcs, t, DoTake(p, t, k).pcs[t]);
    MapSizes(p.executor, k, p.executor[k]);
  }

  /** Every step but a new call of submit decreases the remaining work. */
  lemma StepWorks<T>(p: Pool<T>, x: Action<T>)
    requires Inv(p) && Enabled(p, x) && !x.CallSubmit?
    ensures Work(Apply(p, x)) < Work(p)
  {
    match x
    case Execute(t) => ExecuteWorks(p, t);
    case PutQueue(t) => PutQueueWorks(p, t);
    case AddPending(t) => AddPendingWorks(p, t);
    case RunNext(t) => RunNextWorks(p, t);
    case Take(t, k) => TakeWorks(p, t, k);
    case Collect(a) => MapSizes(p.acts, a, 0);
    case _ => MoveWorks(p, x);
  }

  predicate Quiet<T>(p: Pool<T>) {
    (forall t :: 0 <= t < |p.pcs| ==> p.pcs[t].Idle?) && p.executor == map[]
  }

  /** A step of a thread of the pool other than a new call of submit. */
  predicate Useful<T>(p: Pool<T>, x: Action<T>) {
    Enabled(p, x) && !x.CallSubmit? && !x.Collect?
  }

  lemma UserCanStep<T>(p: Pool<T>, t: Thread)
    requires Inv(p) && HasThread(p, t) && p.pcs[t].Using?
    ensures exists x :: Useful(p, x)
  {
    assert ThreadOk(p, t);
    assert ActorOk(p, p.pcs[t].act);
    var queue := p.heap[p.pcs[t].queue];
    var x := if p.pcs[t].op.Submit? then AddPending(t) else if queue == [] then Retire(t) else RunNext(t);
    assert Useful(p, x);
  }

  lemma ThreadCanStep<T>(p: Pool<T>, t: Thread)
    requires Inv(p) && HasThread(p, t) && (InMonitor(p.pcs[t]) || p.pcs[t].Running?)
    ensures exists x :: Useful(p, x)
  {
    if p.pcs[t].Using? {
      UserCanStep(p, t);
      return;
    }
    var x := match p.pcs[t]
      case Checking(_, _) => Check(t)
      case Marking(_, _) => Mark(t)
      case Executing(_, _) => Execute(t)
      case Getting(_, _) => GetQueue(t)
      case Putting(_, _) => PutQueue(t)
      case _ => EndTask(t);
    assert Useful(p, x);
  }

  /** As long as a thread is inside the pool or a wrapper waits, some thread can take a step. */
  lemma Progress<T>(p: Pool<T>)
    requires Inv(p) && p.callers < |p.pcs| && !Quiet(p)
    ensures exists x :: Useful(p, x)
  {
    if t :| 0 <= t < |p.pcs| && !p.pcs[t].Idle? {
      if p.pcs[t].Entering? {
        var a := p.pcs[t].act;
        if a in p.monitor {
          assert ActorOk(p, a);
          ThreadCanStep(p, p.monitor[a]);
        } else {
          assert Useful(p, Acquire(t));
        }
      } else {
        ThreadCanStep(p, t);
      }
    } else {
      assert p.executor.Keys != {};
      var k :| k in p.executor;
      assert Useful(p, Take(p.callers, k));
    }
  }

  lemma QuietMeansFinished<T>(p: Pool<T>, a: Actor)
    requires Inv(p) && Quiet(p)
    ensures a !in p.playing && Submitted(p, a) == Finished(p, a)
  {
    assert ActorOk(p, a);
  }

  predicate NoCalls<T>(xs: seq<Action<T>>) {
    forall i :: 0 <= i < |xs| ==> !xs[i].CallSubmit?
  }

  lemma {:induction false} RunsAreBounded<T>(p: Pool<T>, xs: seq<Action<T>>)
    requires Inv(p) && CanRun(p, xs) && NoCalls(xs)
    ensures |xs| + Work(RunAll(p, xs)) <= Work(p)
    decreases |xs|
  {
    if xs != [] {
      StepInv(p, xs[0]);
      StepWorks(p, xs[0]);
      RunsAreBounded(Apply(p, xs[0]), xs[1..]);
    }
  }

  lemma StepShape<T>(p: Pool<T>, x: Action<T>)
    requires Enabled(p, x)
    ensures Apply(p, x).callers == p.callers && |Apply(p, x).pcs| == |p.pcs|
  {
  }

  lemma {:induction false} ShapeKept<T>(p: Pool<T>, xs: seq<Action<T>>)
    requires CanRun(p, xs)
    ensures RunAll(p, xs).callers == p.callers && |RunAll(p, xs).pcs| == |p.pcs|
    decreases |xs|
  {
    if xs != [] {
      StepShape(p, xs[0]);
      ShapeKept(Apply(p, xs[0]), xs[1..]);
    }
  }

  /** Drain: from any reachable state, every run without new submissions has at most `Work` steps,
      and a run that cannot be extended has finished every task of every actor and leaves
      `playingNow` empty. */
  lemma Drain<T>(callers: nat, threads: nat, before: seq<Action<T>>, xs: seq<Action<T>>)
    requires callers < threads && CanRun(Init<T>(callers, threads), before)
    requires CanRun(RunAll(Init<T>(callers, threads), before), xs) && NoCalls(xs)
    ensures var p := RunAll(Init<T>(callers, threads), before);
            var q := RunAll(p, xs);
            && |xs| <= Work(p)
            && ((forall x :: !Useful(q, x)) ==>
                  q.playing == {} && forall a: Actor :: Submitted(q, a) == Finished(q, a))
  {
    var p := RunAll(Init<T>(callers, threads), before);
    var q := RunAll(p, xs);
    InitInv<T>(callers, threads);
    RunInv(Init(callers, threads), before);
    RunInv(p, xs);
    RunsAreBounded(p, xs);
    ShapeKept(Init<T>(callers, threads), before);
    ShapeKept(p, xs);
    if forall x :: !Useful(q, x) {
      if !Quiet(q) { Progress(q); }
      forall a: Actor ensures a !in q.playing && Submitted(q, a) == Finished(q, a) {
        QuietMeansFinished(q, a);
      }
    }
  }
}
