/** The order of the answers: on every connection they are queued in the order in which its requests were handled,
    whatever the other connections do, because the tasks of one connection run one at a time. */
module ServerOrder {
  import opened Options
  import opened ServerMessages
  import opened Social
  import SR = SocialRuns
  import SW = SocialWire
  import opened SocialOrder
  import opened Calls
  import opened Server
  import opened ServerInvariant
  import opened ServerRuns
  import opened EngineTasks
  import E = ReactorEngine
  import EI = EngineInvariant
  import EW = EngineWorkers
  import ER = EngineRuns
  import P = ActorPool
  import PO = PoolObservations

  /** The answers that the running call of `c` still has to send. */
  function Unsent(v: Server, c: ConnId): seq<ServerMessage> {
    match PO.Runner(v.engine.pool, c)
    case None => []
    case Some(t) => if t < |v.calls| then AnswersTo(v.calls[t].outgoing, c) else []
  }

  /** An answer that is still to be sent is for the connection whose task the worker runs, which has a channel. */
  ghost predicate CallHome(v: Server, t: Thread) {
    t < |v.calls| ==>
      forall i :: 0 <= i < |v.calls[t].outgoing| && IsAnswer(v.calls[t].outgoing[i].msg) ==>
        && EW.HasRunning(v.engine, t) && v.calls[t].outgoing[i].conn == v.engine.pool.pcs[t].act
        && IsConn(v, v.calls[t].outgoing[i].conn)
  }

  ghost predicate InOrder(v: Server, c: ConnId) {
    Answers(Queued(v, c)) + Unsent(v, c) == AnswersTo(v.social.log, c)
  }

  /** Bytes are read only from channels. */
  ghost predicate StreamOk(e: E.Engine) { forall c :: c in e.stream ==> c < |e.net.chans| }

  ghost predicate Ordered(v: Server) {
    StreamOk(v.engine) && (forall t: Thread :: CallHome(v, t)) && (forall c: ConnId :: InOrder(v, c))
  }

  // ---------------------------------------------------------------- steps of the reactor

  lemma StreamStep(e: E.Engine, x: E.Action, f: E.Engine)
    requires EI.Inv(e) && StreamOk(e) && IsStep(e, x, f)
    ensures StreamOk(f) && |e.net.chans| <= |f.net.chans|
  {
    StepMessages(e, x, f, 0);
  }

  /** A worker with something to send keeps its task, unless its call ends. */
  lemma KeepsTask(v: Server, x: E.Action, f: E.Engine, t: Thread)
    requires Inv(v) && CanStep(v, x) && f == E.Apply(v.engine, x) && t < |v.calls| && v.calls[t].outgoing != []
    ensures EW.HasRunning(v.engine, t) && EW.HasRunning(f, t) && f.pool.pcs[t] == v.engine.pool.pcs[t]
  {
    assert CallOk(v, t);
    TaskStays(v.engine, x, f, t);
  }

  lemma StepOutgoing(v: Server, x: E.Action, t: Thread)
    requires CanStep(v, x) && t < |v.calls|
    ensures var w := DoStep(v, x);
            && |w.calls| == |v.calls| && w.engine == E.Apply(v.engine, x)
            && (w.calls[t].outgoing == v.calls[t].outgoing
                || (v.calls[t].outgoing != [] && w.calls[t].outgoing == v.calls[t].outgoing[1..]))
  {
  }

  lemma SameHome(v: Server, w: Server, t: Thread)
    requires CallHome(v, t) && |w.calls| == |v.calls| && |v.engine.net.chans| <= |w.engine.net.chans|
    requires t < |v.calls| ==>
               w.calls[t].outgoing == v.calls[t].outgoing
               || (v.calls[t].outgoing != [] && w.calls[t].outgoing == v.calls[t].outgoing[1..])
    requires t < |v.calls| && v.calls[t].outgoing != [] && EW.HasRunning(v.engine, t) ==>
               EW.HasRunning(w.engine, t) && w.engine.pool.pcs[t] == v.engine.pool.pcs[t]
    ensures CallHome(w, t)
  {
  }

  lemma StepCallHome(v: Server, x: E.Action, w: Server, t: Thread)
    requires Inv(v) && CanStep(v, x) && w == DoStep(v, x) && |v.engine.net.chans| <= |w.engine.net.chans|
    requires |w.calls| == |v.calls| && CallHome(v, t)
    ensures CallHome(w, t)
  {
    if t < |v.calls| {
      StepOutgoing(v, x, t);
      if v.calls[t].outgoing != [] { KeepsTask(v, x, w.engine, t); }
    }
    SameHome(v, w, t);
  }

  /** A worker that is not in process has nothing to send. */
  ghost predicate IdleIn(e: E.Engine, calls: seq<Call>) {
    forall t :: 0 <= t < |calls| && !InProcess(e, t) ==> calls[t].outgoing == []
  }

  lemma IdleCalls(v: Server)
    requires Inv(v)
    ensures IdleIn(v.engine, v.calls)
  {
    forall t | 0 <= t < |v.calls| && !InProcess(v.engine, t) ensures v.calls[t].outgoing == [] { assert CallOk(v, t); }
  }

  lemma UnsentSame(v: Server, w: Server, c: ConnId)
    requires w.calls == v.calls && RunnerMoves(v.engine, w.engine, c)
    requires IdleIn(v.engine, v.calls) && IdleIn(w.engine, v.calls)
    ensures Unsent(w, c) == Unsent(v, c)
  {
  }

  lemma StepInOrder(v: Server, x: E.Action, w: Server, c: ConnId)
    requires Inv(v) && Inv(w) && CanStep(v, x) && w == DoStep(v, x) && !Adds(x) && InOrder(v, c)
    ensures InOrder(w, c)
  {
    StepMoves(v, x);
    RunnerStep(v.engine, x, w.engine, c);
    IdleCalls(v);
    IdleCalls(w);
    UnsentSame(v, w, c);
  }

  // ---------------------------------------------------------------- a send

  /** A notification changes nothing for the answers. */
  lemma QueuedNote(queued: seq<ServerMessage>, m: ServerMessage)
    requires !IsAnswer(m)
    ensures Answers(queued + [m]) == Answers(queued)
  {
    AnswersSnoc(queued, m);
  }

  /** The step that puts the first send of worker z into its queue. */
  predicate IsAdd(v: Server, w: Server, z: Thread) {
    && z < |v.calls| && v.calls[z].outgoing != [] && v.calls[z].outgoing[0].conn >= 0
    && w.calls == v.calls[z := Tail(v.calls[z])] && w.social == v.social && w.engine.pool == v.engine.pool
    && var m := v.calls[z].outgoing[0];
       w.queued == v.queued[m.conn as ConnId := Queued(v, m.conn) + [m.msg]]
  }

  lemma AddIs(v: Server, x: E.Action)
    requires Inv(v) && CanStep(v, x) && Adds(x)
    ensures IsAdd(v, DoStep(v, x), x.n.worker)
  {
    AddEnds(v.engine, x, E.Apply(v.engine, x));
    assert CallOk(v, x.n.worker);
  }

  lemma RunnerOf(e: E.Engine, t: Thread)
    requires EI.Inv(e) && EW.HasRunning(e, t)
    ensures PO.Runner(e.pool, e.pool.pcs[t].act) == Some(t)
  {
    PO.RunningTask(e.pool, t);
  }

  lemma AddInOrder(v: Server, w: Server, z: Thread, c: ConnId)
    requires EI.Inv(v.engine) && IsAdd(v, w, z) && CallHome(v, z) && InOrder(v, c)
    ensures InOrder(w, c)
  {
    var m := v.calls[z].outgoing[0];
    if PO.Runner(v.engine.pool, c) == Some(z) {
      HeadIsQueued(Queued(v, c), v.calls[z].outgoing, c);
    } else if m.conn == c {
      if IsAnswer(m.msg) { RunnerOf(v.engine, z); }
      QueuedNote(Queued(v, c), m.msg);
    }
  }

  /** The send of worker z has no receiver: it is no answer. */
  lemma DropInOrder(v: Server, z: Thread, c: ConnId)
    requires CanDrop(v, z) && CallHome(v, z) && InOrder(v, c)
    ensures InOrder(DoDrop(v, z), c)
  {
    var out := v.calls[z].outgoing;
    assert !IsAnswer(out[0].msg);
    NoteAtHead(out, c);
    assert DoDrop(v, z).calls == v.calls[z := Tail(v.calls[z])];
  }

  // ---------------------------------------------------------------- a request

  /** Where a worker decodes a byte, bytes were read. */
  lemma ReadSomething(e: E.Engine, t: Thread)
    requires EI.Inv(e) && E.CanDecode(e, t)
    ensures e.pool.pcs[t].act in e.stream
  {
    var c := e.pool.pcs[t].act;
    PO.RunningTask(e.pool, t);
    EI.RunningBuffer(e, c);
    ER.ChunksSplit(P.Submitted(e.pool, c), |P.Finished(e.pool, c)|);
    assert EI.ConnOk(e, c);
  }

  lemma SendsHome(v: Server, e: SR.Event)
    requires SR.CanHandle(v.social, e)
    requires v.social.log <= SR.Handle(v.social, e).log
    ensures HomeFrom(NewSends(v.social.log, SR.Handle(v.social, e).log), 0, e.conn)
  {
    RequestHome(v.social, e);
  }

  /** The connection's own request adds its answers behind all earlier ones. */
  lemma OwnInOrder(v: Server, w: Server, t: Thread, c: ConnId)
    requires PO.Runner(v.engine.pool, c) == Some(t) && t < |v.calls| && v.calls[t].outgoing == [] && InOrder(v, c)
    requires w.engine.pool == v.engine.pool && w.queued == v.queued && t < |w.calls|
    requires w.social.log == v.social.log + w.calls[t].outgoing
    ensures InOrder(w, c)
  {
    AnswersToConcat(v.social.log, w.calls[t].outgoing, c);
    assert Answers(Queued(v, c)) + [] == Answers(Queued(v, c));
  }

  lemma ElseInOrder(v: Server, w: Server, t: Thread, conn: ConnId, c: ConnId)
    requires PO.Runner(v.engine.pool, c) != Some(t) && c != conn && t < |v.calls| && InOrder(v, c)
    requires w.engine.pool == v.engine.pool && w.queued == v.queued
    requires |w.calls| == |v.calls| && w.calls == v.calls[t := w.calls[t]]
    requires w.social.log == v.social.log + w.calls[t].outgoing && HomeFrom(w.calls[t].outgoing, 0, conn)
    ensures InOrder(w, c)
  {
    AnswersToConcat(v.social.log, w.calls[t].outgoing, c);
    NothingElsewhere(w.calls[t].outgoing, conn, c);
    assert AnswersTo(v.social.log, c) + [] == AnswersTo(v.social.log, c);
  }

  lemma DecodeLeaves(e: E.Engine, t: Thread)
    requires E.CanDecode(e, t)
    ensures E.DoDecode(e, t).pool == e.pool && E.DoDecode(e, t).net == e.net && E.DoDecode(e, t).stream == e.stream
  {
  }

  /** What a request changes. */
  lemma RequestIs(v: Server, t: Thread, uks: seq<string>, aks: seq<string>, now: int, w: Server)
    requires Inv(v) && CanRequest(v, t, uks, aks, now) && w == DoRequest(v, t, uks, aks, now)
    ensures w.engine.pool == v.engine.pool && w.engine.net == v.engine.net && w.engine.stream == v.engine.stream
    ensures w.queued == v.queued && |w.calls| == |v.calls| && w.calls == v.calls[t := w.calls[t]]
    ensures w.social.log == v.social.log + w.calls[t].outgoing
    ensures HomeFrom(w.calls[t].outgoing, 0, v.engine.pool.pcs[t].act)
  {
    var e := Completed(v, t, uks, aks, now);
    DecodeLeaves(v.engine, t);
    OneMore(v.events, v.social, e);
    SendsHome(v, e);
    AnsweredIs(v, t, e);
  }

  lemma AnsweredIs(v: Server, t: Thread, e: SR.Event)
    requires t < |v.calls| && SR.CanHandle(v.social, e) && v.social.log <= SR.Handle(v.social, e).log
    ensures var w := Answered(v, t, e);
            && w.calls[t].outgoing == NewSends(v.social.log, SR.Handle(v.social, e).log)
            && w.social.log == v.social.log + w.calls[t].outgoing
  {
  }

  lemma RequestInOrder(v: Server, t: Thread, w: Server, c: ConnId)
    requires Inv(v) && InOrder(v, c) && EW.HasRunning(v.engine, t) && t < |v.calls| && v.calls[t].outgoing == []
    requires w.engine.pool == v.engine.pool && w.queued == v.queued
    requires |w.calls| == |v.calls| && w.calls == v.calls[t := w.calls[t]]
    requires w.social.log == v.social.log + w.calls[t].outgoing
    requires HomeFrom(w.calls[t].outgoing, 0, v.engine.pool.pcs[t].act)
    ensures InOrder(w, c)
  {
    var conn := v.engine.pool.pcs[t].act;
    RunnerOf(v.engine, t);
    if c == conn {
      OwnInOrder(v, w, t, c);
    } else {
      if PO.Runner(v.engine.pool, c) == Some(t) { PO.RunnerRuns(v.engine.pool, c); }
      ElseInOrder(v, w, t, conn, c);
    }
  }

  lemma RequestCallHome(v: Server, t: Thread, w: Server, z: Thread)
    requires CallHome(v, z) && w.engine.pool == v.engine.pool && w.engine.net == v.engine.net
    requires t < |v.calls| && |w.calls| == |v.calls| && w.calls == v.calls[t := w.calls[t]]
    requires EW.HasRunning(v.engine, t) && IsConn(v, v.engine.pool.pcs[t].act)
    requires HomeFrom(w.calls[t].outgoing, 0, v.engine.pool.pcs[t].act)
    ensures CallHome(w, z)
  {
  }

  lemma RequestOrdered(v: Server, t: Thread, uks: seq<string>, aks: seq<string>, now: int, w: Server)
    requires Inv(v) && Ordered(v) && CanRequest(v, t, uks, aks, now) && w == DoRequest(v, t, uks, aks, now)
    ensures Ordered(w)
  {
    RequestIs(v, t, uks, aks, now, w);
    ReadSomething(v.engine, t);
    IdleCalls(v);
    forall z: Thread ensures CallHome(w, z) {
      assert CallHome(v, z);
      RequestCallHome(v, t, w, z);
    }
    forall c: ConnId ensures InOrder(w, c) {
      assert InOrder(v, c);
      RequestInOrder(v, t, w, c);
    }
  }

  // ---------------------------------------------------------------- every step

  lemma DropOrdered(v: Server, t: Thread)
    requires Ordered(v) && CanDrop(v, t)
    ensures Ordered(DoDrop(v, t))
  {
    var w := DoDrop(v, t);
    forall z: Thread ensures CallHome(w, z) {
      assert CallHome(v, z);
      SameHome(v, w, z);
    }
    forall c: ConnId ensures InOrder(w, c) {
      assert CallHome(v, t) && InOrder(v, c);
      DropInOrder(v, t, c);
    }
  }

  lemma EngineInOrder(v: Server, x: E.Action, w: Server, c: ConnId)
    requires Inv(v) && Ordered(v) && Inv(w) && CanStep(v, x) && w == DoStep(v, x)
    ensures InOrder(w, c)
  {
    assert InOrder(v, c);
    if Adds(x) {
      AddIs(v, x);
      assert CallHome(v, x.n.worker);
      AddInOrder(v, w, x.n.worker, c);
    } else {
      StepInOrder(v, x, w, c);
    }
  }

  lemma EngineOrdered(v: Server, x: E.Action, w: Server)
    requires Inv(v) && Ordered(v) && Inv(w) && CanStep(v, x) && w == DoStep(v, x)
    ensures Ordered(w)
  {
    StepMoves(v, x);
    StreamStep(v.engine, x, w.engine);
    forall t: Thread ensures CallHome(w, t) {
      assert CallHome(v, t);
      StepCallHome(v, x, w, t);
    }
    forall c: ConnId ensures InOrder(w, c) { EngineInOrder(v, x, w, c); }
  }

  lemma StepOrdered(v: Server, x: Action, w: Server)
    requires Inv(v) && Ordered(v) && Enabled(v, x) && w == Apply(v, x)
    ensures Inv(w) && Ordered(w)
  {
    StepInv(v, x);
    match x
    case Request(t, uks, aks, now) => RequestOrdered(v, t, uks, aks, now, w);
    case Drop(t) => DropOrdered(v, t);
    case Step(y) => EngineOrdered(v, y, w);
  }

  lemma {:induction false} RunOrdered(v: Server, xs: seq<Action>)
    requires Inv(v) && Ordered(v) && CanRun(v, xs)
    ensures Ordered(RunAll(v, xs))
    decreases |xs|
  {
    if xs != [] {
      var w := FirstStep(v, xs);
      StepOrdered(v, xs[0], w);
      RunOrdered(w, xs[1..]);
    }
  }

  lemma StartOrdered(workers: nat)
    ensures Ordered(Start(workers))
  {
  }

  lemma ReachableOrdered(v: Server)
    requires Reachable(v)
    ensures Ordered(v)
  {
    var workers: nat, xs :| CanRun(Start(workers), xs) && v == RunAll(Start(workers), xs);
    StartInv(workers);
    StartOrdered(workers);
    RunOrdered(Start(workers), xs);
  }

  // ---------------------------------------------------------------- the order of the answers

  lemma OutboxAnswers(init: seq<Sent>, m: Sent, c: int)
    requires AnswersTo(init, c) == Answers(SW.Outbox(init, c))
    ensures AnswersTo(init + [m], c) == Answers(SW.Outbox(init + [m], c))
  {
    AnswersToSnoc(init, m, c);
    OutboxSnoc(init, m, c);
    AnswerIsQueued(SW.Outbox(init, c), m, c);
    assert SW.Outbox(init, c) + [] == SW.Outbox(init, c);
  }

  lemma {:induction false} AnswersOfOutbox(log: seq<Sent>, c: int)
    ensures AnswersTo(log, c) == Answers(SW.Outbox(log, c))
  {
    if log != [] {
      var init, last := log[..|log| - 1], log[|log| - 1];
      AnswersOfOutbox(init, c);
      OutboxAnswers(init, last, c);
      assert log == init + [last];
    }
  }

  /** On every connection the answers queued, followed by those its running call still has to send, are exactly the
      answers of process to it, in the order in which its requests were handled; once no task of the connection
      is outstanding, all of them are queued. */
  lemma AnswersInOrder(v: Server, c: ConnId)
    requires Reachable(v)
    ensures SR.CanRun(SR.EMPTY, v.events)
    ensures var out := SW.Outbox(SR.RunAll(SR.EMPTY, v.events).log, c);
            && Answers(Queued(v, c)) + Unsent(v, c) == Answers(out)
            && (ER.Settled(v.engine, c) ==> Answers(Queued(v, c)) == Answers(out))
  {
    ReachableInv(v);
    ReachableOrdered(v);
    assert InOrder(v, c);
    AnswersOfOutbox(v.social.log, c);
    if ER.Settled(v.engine, c) { NoRunner(v.engine, c); }
  }

  lemma NoRunner(e: E.Engine, c: ConnId)
    requires EI.Inv(e) && ER.Settled(e, c)
    ensures PO.Runner(e.pool, c) == None
  {
    if PO.Runner(e.pool, c).Some? { EI.RunningBuffer(e, c); }
  }
}
