/** The reactor can always catch up: from every reachable state some run that reads no more bytes and sends no
    more messages ends with every chunk submitted, decoded and its task over. */
module EngineSettles {
  import opened Framing
  import opened ReactorEngine
  import opened EngineInvariant
  import opened EngineWorkers
  import opened EngineRuns
  import P = ActorPool
  import PD = PoolDrain
  import PO = PoolObservations
  import N = ReactorWrites
  import NI = WriteInvariant

  /** Nothing is read or about to be read, no send begins, and no exception drops bytes. */
  predicate NoInput(x: Action) {
    && !x.Lease? && !x.Allocate? && !x.Fill? && !x.Eof? && !x.Throw?
    && (x.NetStep? ==> !x.n.BeginSend?)
  }

  predicate AllNoInput(xs: seq<Action>) { forall i :: 0 <= i < |xs| ==> NoInput(xs[i]) }

  /** Some run without input goes from `e` to `f`. */
  ghost predicate Leads(e: Engine, f: Engine) {
    exists xs :: CanRun(e, xs) && AllNoInput(xs) && RunAll(e, xs) == f
  }

  lemma LeadsSelf(e: Engine)
    ensures Leads(e, e)
  {
    assert CanRun(e, []) && AllNoInput([]) && RunAll(e, []) == e;
  }

  lemma LeadsStep(e: Engine, x: Action)
    requires Enabled(e, x) && NoInput(x)
    ensures Leads(e, Apply(e, x))
  {
    var f, xs := Apply(e, x), [x];
    assert CanRun(f, []) && RunAll(f, []) == f;
    assert xs[0] == x && xs[1..] == [];
    assert CanRun(e, xs) && RunAll(e, xs) == f && AllNoInput(xs);
  }

  /** The first step of a run. */
  lemma FirstStep(e: Engine, xs: seq<Action>) returns (f: Engine)
    requires CanRun(e, xs) && xs != []
    ensures IsStep(e, xs[0], f) && CanRun(f, xs[1..]) && RunAll(f, xs[1..]) == RunAll(e, xs)
  {
    f := Apply(e, xs[0]);
  }

  predicate IsStep(e: Engine, x: Action, f: Engine) { Enabled(e, x) && f == Apply(e, x) }

  lemma StepBefore(e: Engine, x: Action, f: Engine, xs: seq<Action>) returns (ys: seq<Action>)
    requires IsStep(e, x, f) && CanRun(f, xs)
    ensures CanRun(e, ys) && RunAll(e, ys) == RunAll(f, xs) && (NoInput(x) && AllNoInput(xs) ==> AllNoInput(ys))
  {
    ys := [x] + xs;
    assert ys[1..] == xs;
  }

  /** One run after the other. */
  lemma {:induction false} JoinRuns(e: Engine, xs: seq<Action>, f: Engine, ys: seq<Action>) returns (zs: seq<Action>)
    requires CanRun(e, xs) && RunAll(e, xs) == f && CanRun(f, ys)
    ensures CanRun(e, zs) && RunAll(e, zs) == RunAll(f, ys) && (AllNoInput(xs) && AllNoInput(ys) ==> AllNoInput(zs))
    decreases |xs|
  {
    if xs == [] {
      zs := ys;
    } else {
      var g := FirstStep(e, xs);
      var us := JoinRuns(g, xs[1..], f, ys);
      zs := StepBefore(e, xs[0], g, us);
    }
  }

  lemma LeadsTrans(e: Engine, f: Engine, g: Engine)
    requires Leads(e, f) && Leads(f, g)
    ensures Leads(e, g)
  {
    var xs :| CanRun(e, xs) && AllNoInput(xs) && RunAll(e, xs) == f;
    var ys :| CanRun(f, ys) && AllNoInput(ys) && RunAll(f, ys) == g;
    var zs := JoinRuns(e, xs, f, ys);
    assert AllNoInput(zs);
  }

  lemma LeadsReachable(e: Engine, f: Engine)
    requires Reachable(e) && Leads(e, f)
    ensures Reachable(f)
  {
    var workers: nat, xs :| CanRun(Init(workers), xs) && e == RunAll(Init(workers), xs);
    var ys :| CanRun(e, ys) && AllNoInput(ys) && RunAll(e, ys) == f;
    var zs := JoinRuns(Init(workers), xs, e, ys);
  }

  lemma OneStep(e: Engine, x: Action) returns (f: Engine)
    requires Inv(e) && Enabled(e, x) && NoInput(x)
    ensures Leads(e, f) && Inv(f) && f == Apply(e, x)
  {
    StepInv(e, x);
    LeadsStep(e, x);
    f := Apply(e, x);
  }

  /** Without input the streams stay as they are, and no connection loses bytes. */
  lemma StepKeepsInput(e: Engine, x: Action)
    requires Enabled(e, x) && NoInput(x)
    ensures Apply(e, x).stream == e.stream && Apply(e, x).lossy == e.lossy
  {
  }

  lemma {:induction false} RunKeepsInput(e: Engine, xs: seq<Action>)
    requires CanRun(e, xs) && AllNoInput(xs)
    ensures RunAll(e, xs).stream == e.stream && RunAll(e, xs).lossy == e.lossy
    decreases |xs|
  {
    if xs != [] {
      StepKeepsInput(e, xs[0]);
      RunKeepsInput(Apply(e, xs[0]), xs[1..]);
    }
  }

  // ---------------------------------------------------------------- one task

  function SenderRank(s: N.Sender): nat {
    match s
    case Quiet => 0
    case Adding(_, _) => 3
    case Asking(_) => 2
    case Waking => 1
  }

  function NextSend(e: Engine, t: Thread): N.Action
    requires t < |e.net.senders|
  {
    match e.net.senders[t]
    case Adding(_, _) => N.AddBuffer(t)
    case Asking(_) => N.AskInterest(t)
    case _ => N.Wake(t)
  }

  lemma SendStep(e: Engine, t: Thread)
    requires Inv(e) && t < |e.jobs| && !QuietSender(e, t)
    ensures CanNetStep(e, NextSend(e, t))
    ensures var n := DoNetStep(e, NextSend(e, t)).net;
            t < |n.senders| && SenderRank(n.senders[t]) < SenderRank(e.net.senders[t])
  {
    assert NI.SenderOk(e.net, t);
  }

  /** The call of send that thread t is in returns. */
  lemma {:induction false} FinishSend(e: Engine, t: Thread) returns (f: Engine)
    requires Inv(e) && t < |e.jobs|
    ensures Leads(e, f) && Inv(f) && QuietSender(f, t) && f == e.(net := f.net)
    decreases SenderRank(e.net.senders[t])
  {
    if QuietSender(e, t) {
      LeadsSelf(e);
      f := e;
    } else {
      var x := NetStep(NextSend(e, t));
      SendStep(e, t);
      StepInv(e, x);
      LeadsStep(e, x);
      f := FinishSend(Apply(e, x), t);
      LeadsTrans(e, Apply(e, x), f);
    }
  }

  /** What thread t still has to do in its task. */
  function JobRank(e: Engine, t: Thread): nat
    requires t < |e.jobs| && t < |e.pool.pcs| && e.pool.pcs[t].Running?
  {
    var id := e.pool.pcs[t].task.buffer;
    var left :=
      if id < |e.buffers| && e.buffers[id].pos <= |e.buffers[id].data| then |e.buffers[id].data| - e.buffers[id].pos
      else 0;
    match e.jobs[t]
    case Off => 0
    case Decoding => 2 * left + 3
    case Processing => 2 * left + 4
    case Releasing => 2
    case Released => 1
  }

  function NextOfJob(e: Engine, t: Thread): Action
    requires t < |e.jobs|
  {
    match e.jobs[t]
    case Decoding => if CanDecode(e, t) then Decode(t) else EndChunk(t)
    case Processing => EndProcess(t)
    case _ => Release(t)
  }

  /** The task of thread t has its buffer, and the position is inside it. */
  predicate HasBuffer(e: Engine, t: Thread) {
    && t < |e.pool.pcs| && t < |e.jobs| && e.pool.pcs[t].Running?
    && var id := e.pool.pcs[t].task.buffer;
       id < |e.buffers| && id < |e.owner| && e.buffers[id].pos <= |e.buffers[id].data|
  }

  lemma JobHasBuffer(e: Engine, t: Thread)
    requires Inv(e) && HasRunning(e, t) && t < |e.jobs| && !e.jobs[t].Released?
    ensures HasBuffer(e, t) && !e.jobs[t].Off?
  {
    assert ThreadOk(e, t);
    PO.RunningTask(e.pool, t);
    RunningBuffer(e, e.pool.pcs[t].act);
  }

  lemma JobStep(e: Engine, t: Thread)
    requires HasBuffer(e, t) && !e.jobs[t].Off? && !e.jobs[t].Released? && QuietSender(e, t)
    ensures Enabled(e, NextOfJob(e, t)) && NoInput(NextOfJob(e, t))
    ensures var f := Apply(e, NextOfJob(e, t));
            f.pool == e.pool && f.hand == e.hand && |f.jobs| == |e.jobs| && JobRank(f, t) < JobRank(e, t)
  {
  }

  /** Thread t gets on with its task, until the buffer is given back. */
  lemma JobGetsOn(e: Engine, t: Thread) returns (f: Engine)
    requires Inv(e) && HasRunning(e, t) && t < |e.jobs| && !e.jobs[t].Released?
    ensures Leads(e, f) && Inv(f) && f.hand == e.hand && f.pool == e.pool && |f.jobs| == |e.jobs|
    ensures JobRank(f, t) < JobRank(e, t)
  {
    var q := FinishSend(e, t);
    JobHasBuffer(q, t);
    JobStep(q, t);
    f := OneStep(q, NextOfJob(q, t));
    LeadsTrans(e, q, f);
  }

  lemma EndJob(e: Engine, t: Thread) returns (f: Engine)
    requires Inv(e) && HasRunning(e, t) && t < |e.jobs| && e.jobs[t].Released?
    ensures Leads(e, f) && Inv(f) && f.hand == e.hand && f.pool == P.DoEndTask(e.pool, t)
  {
    f := OneStep(e, EndTask(t));
  }

  /** The task of thread t runs to its end. */
  lemma {:induction false} FinishJob(e: Engine, t: Thread) returns (f: Engine)
    requires Inv(e) && HasRunning(e, t) && t < |e.jobs|
    ensures Leads(e, f) && Inv(f) && f.hand == e.hand && f.pool == P.DoEndTask(e.pool, t)
    decreases JobRank(e, t)
  {
    if e.jobs[t].Released? {
      f := EndJob(e, t);
    } else {
      var g := JobGetsOn(e, t);
      f := FinishJob(g, t);
      LeadsTrans(e, g, f);
    }
  }

  // ---------------------------------------------------------------- the whole pool

  /** A step of the engine that is this step of the pool. */
  lemma CommitGetsOn(e: Engine, p: P.Action<ReadTask>) returns (f: Engine)
    requires Inv(e) && P.Enabled(e.pool, p) && (p.Execute? || p.AddPending?)
    ensures Leads(e, f) && Inv(f) && f.hand == e.hand && f.pool == P.Apply(e.pool, p)
  {
    PO.CommitStep(e.pool, p, 0);
    f := OneStep(e, Commit(p));
  }

  lemma TakeGetsOn(e: Engine, t: Thread, k: P.Ticket) returns (f: Engine)
    requires Inv(e) && P.CanTake(e.pool, t, k)
    ensures Leads(e, f) && Inv(f) && f.hand == e.hand && f.pool == P.DoTake(e.pool, t, k)
  {
    f := OneStep(e, Take(t, k));
  }

  lemma InternalGetsOn(e: Engine, p: P.Action<ReadTask>) returns (f: Engine)
    requires Inv(e) && CanPoolStep(e, p)
    ensures Leads(e, f) && Inv(f) && f.hand == e.hand && f.pool == P.Apply(e.pool, p)
  {
    f := OneStep(e, PoolStep(p));
  }

  lemma PoolDoes(e: Engine, p: P.Action<ReadTask>) returns (f: Engine)
    requires Inv(e) && PD.Useful(e.pool, p)
    ensures Leads(e, f) && Inv(f) && f.hand == e.hand && f.pool == P.Apply(e.pool, p)
  {
    match p
    case Execute(_) => f := CommitGetsOn(e, p);
    case AddPending(_) => f := CommitGetsOn(e, p);
    case Take(t, k) => f := TakeGetsOn(e, t, k);
    case EndTask(t) => f := FinishJob(e, t);
    case _ => f := InternalGetsOn(e, p);
  }

  /** While a thread is inside the pool or a task waits, the pool gets on. */
  lemma PoolGetsOn(e: Engine) returns (f: Engine)
    requires Inv(e) && |e.pool.pcs| > 1 && !PD.Quiet(e.pool)
    ensures Leads(e, f) && Inv(f) && f.hand == e.hand && |f.pool.pcs| > 1 && PD.Work(f.pool) < PD.Work(e.pool)
  {
    PD.Progress(e.pool);
    var p :| PD.Useful(e.pool, p);
    PD.StepWorks(e.pool, p);
    PD.StepShape(e.pool, p);
    f := PoolDoes(e, p);
  }

  /** The chunk in the selector's hand is submitted and the pool runs until it is quiet. */
  lemma {:induction false} Settles(e: Engine) returns (f: Engine)
    requires Inv(e) && |e.pool.pcs| > 1
    ensures Leads(e, f) && Inv(f) && PD.Quiet(f.pool) && !f.hand.Filled?
    decreases e.hand.Filled?, PD.Work(e.pool)
  {
    if e.hand.Filled? {
      var g := OneStep(e, Submit);
      f := Settles(g);
      LeadsTrans(e, g, f);
    } else if PD.Quiet(e.pool) {
      LeadsSelf(e);
      f := e;
    } else {
      var g := PoolGetsOn(e);
      f := Settles(g);
      LeadsTrans(e, g, f);
    }
  }

  lemma QuietIsSettled(e: Engine, c: ConnId)
    requires Inv(e) && PD.Quiet(e.pool) && !e.hand.Filled?
    ensures Settled(e, c)
  {
    PD.QuietMeansFinished(e.pool, c);
  }

  /** From every reachable state of a server with a worker, a run without input settles all connections, and
      then every connection that lost nothing has processed exactly the frames of what it had read. */
  lemma CanSettle(e: Engine)
    requires Reachable(e) && |e.pool.pcs| > 1
    ensures exists f :: Leads(e, f) && AllSettled(e, f)
  {
    ReachableInv(e);
    var f := Settles(e);
    LeadsReachable(e, f);
    var xs :| CanRun(e, xs) && AllNoInput(xs) && RunAll(e, xs) == f;
    RunKeepsInput(e, xs);
    forall c: ConnId ensures SettledFrom(e, f, c) {
      QuietIsSettled(f, c);
      if c !in e.lossy { ProcessedIsAll(f, c); }
    }
    assert AllSettled(e, f);
  }

  predicate SettledFrom(e: Engine, f: Engine, c: ConnId) {
    && Settled(f, c) && Stream(f, c) == Stream(e, c)
    && (c !in e.lossy ==> Processed(f, c) == Frames(Stream(e, c)) && Decoder(f, c) == Rest(Stream(e, c)))
  }

  ghost predicate AllSettled(e: Engine, f: Engine) { forall c: ConnId :: SettledFrom(e, f, c) }
}
