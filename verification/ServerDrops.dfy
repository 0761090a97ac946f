/** When bytes of a connection are lost: exactly when one of its requests throws while its chunk has bytes behind
    the delimiter.  Proved over every run of the whole server. */
module ServerDrops {
  import opened Framing
  import opened SocialThrows
  import opened Server
  import opened ServerInvariant
  import opened ServerRuns
  import opened EngineTasks
  import E = ReactorEngine
  import EW = EngineWorkers
  import ER = EngineRuns
  import PO = PoolObservations

  /** The step completes a request of `c` that meets the guard of an exception, and bytes follow in its chunk. */
  predicate Drops(v: Server, x: Action, c: ConnId)
    requires Enabled(v, x)
  {
    match x
    case Request(t, uks, aks, now) =>
      var b := v.engine.buffers[v.engine.pool.pcs[t].task.buffer];
      v.engine.pool.pcs[t].act == c && b.pos + 1 < |b.data| && Throws(v.social, Completed(v, t, uks, aks, now))
    case _ => false
  }

  /** Some step of the run does. */
  predicate EverDrops(v: Server, xs: seq<Action>, c: ConnId)
    requires CanRun(v, xs)
    decreases |xs|
  {
    xs != [] && (Drops(v, xs[0], c) || EverDrops(Apply(v, xs[0]), xs[1..], c))
  }

  // ---------------------------------------------------------------- calls that are about to drop bytes

  predicate BytesLeft(e: E.Engine, id: E.BufferId) { id < |e.buffers| && e.buffers[id].pos < |e.buffers[id].data| }

  /** The worker is in a call for `c` that is going to throw, and its chunk has bytes left. */
  predicate Doomed(v: Server, t: Thread, c: ConnId) {
    && t < |v.calls| && v.calls[t].threw && InProcess(v.engine, t)
    && EW.HasRunning(v.engine, t) && v.engine.pool.pcs[t].act == c
    && BytesLeft(v.engine, v.engine.pool.pcs[t].task.buffer)
  }

  ghost predicate Loses(v: Server, c: ConnId) {
    c in v.engine.lossy || exists t :: Doomed(v, t, c)
  }

  /** The step that begins or ends the call of a worker. */
  predicate Turns(x: Action, t: Thread) {
    match x
    case Request(z, _, _, _) => z == t
    case Drop(_) => false
    case Step(y) => y == E.EndProcess(t) || y == E.Throw(t)
  }

  lemma LossyStep(e: E.Engine, x: E.Action, f: E.Engine)
    requires IsStep(e, x, f) && !x.Throw?
    ensures f.lossy == e.lossy
  {
  }

  lemma ThrewKept(v: Server, x: E.Action, t: Thread)
    requires CanStep(v, x)
    ensures |DoStep(v, x).calls| == |v.calls| && (t < |v.calls| ==> DoStep(v, x).calls[t].threw == v.calls[t].threw)
  {
  }

  /** A step of the reactor leaves the calls of the other workers as they are. */
  lemma StepKeepsDoom(v: Server, x: E.Action, t: Thread, c: ConnId)
    requires Inv(v) && CanStep(v, x) && !Turns(Step(x), t)
    ensures Doomed(DoStep(v, x), t, c) <==> Doomed(v, t, c)
  {
    var f := E.Apply(v.engine, x);
    StepMoves(v, x);
    ThrewKept(v, x, t);
    if InProcess(v.engine, t) {
      TaskStays(v.engine, x, f, t);
    } else if InProcess(f, t) {
      EntersWith(v.engine, x, f, t);
    }
  }

  lemma EndKeepsDoom(v: Server, x: E.Action, t: Thread, c: ConnId)
    requires CanStep(v, x) && x == E.EndProcess(t)
    ensures !Doomed(v, t, c) && !Doomed(DoStep(v, x), t, c)
  {
  }

  /** The call that throws is over, and what was left of its chunk is lost. */
  lemma ThrowTurns(v: Server, x: E.Action, t: Thread, c: ConnId)
    requires Inv(v) && CanStep(v, x) && x == E.Throw(t)
    ensures !Doomed(DoStep(v, x), t, c)
    ensures c in DoStep(v, x).engine.lossy <==> c in v.engine.lossy || Doomed(v, t, c)
  {
    HasTask(v.engine, t);
  }

  /** Only the call of worker z may change, and what it loses then is lost. */
  lemma SameLoss(v: Server, w: Server, z: Thread, c: ConnId)
    requires forall t :: t != z ==> (Doomed(w, t, c) <==> Doomed(v, t, c))
    requires c in w.engine.lossy || Doomed(w, z, c) <==> c in v.engine.lossy || Doomed(v, z, c)
    ensures Loses(w, c) <==> Loses(v, c)
  {
    if t :| Doomed(v, t, c) { assert t == z || Doomed(w, t, c); }
    if t :| Doomed(w, t, c) { assert t == z || Doomed(v, t, c); }
  }

  lemma TurnLoses(v: Server, x: E.Action, t: Thread, c: ConnId)
    requires Inv(v) && CanStep(v, x) && Turns(Step(x), t)
    ensures var w := DoStep(v, x);
            c in w.engine.lossy || Doomed(w, t, c) <==> c in v.engine.lossy || Doomed(v, t, c)
  {
    if x == E.Throw(t) {
      ThrowTurns(v, x, t, c);
    } else {
      EndKeepsDoom(v, x, t, c);
      LossyStep(v.engine, x, E.Apply(v.engine, x));
    }
  }

  lemma OtherLoses(v: Server, x: E.Action, t: Thread, c: ConnId)
    requires Inv(v) && CanStep(v, x) && !Turns(Step(x), t) && !x.Throw?
    ensures var w := DoStep(v, x);
            c in w.engine.lossy || Doomed(w, t, c) <==> c in v.engine.lossy || Doomed(v, t, c)
  {
    StepKeepsDoom(v, x, t, c);
    LossyStep(v.engine, x, E.Apply(v.engine, x));
  }

  /** The worker whose call a step of the reactor ends, if any. */
  function Ended(x: E.Action): Thread {
    match x
    case EndProcess(t) => t
    case Throw(t) => t
    case _ => 0
  }

  lemma OnlyEnded(x: E.Action, t: Thread)
    ensures Turns(Step(x), t) ==> t == Ended(x)
    ensures x.Throw? ==> Turns(Step(x), Ended(x))
  {
  }

  lemma StepTurns(v: Server, x: E.Action, w: Server, z: Thread, c: ConnId)
    requires Inv(v) && CanStep(v, x) && w == DoStep(v, x) && z == Ended(x)
    ensures c in w.engine.lossy || Doomed(w, z, c) <==> c in v.engine.lossy || Doomed(v, z, c)
  {
    OnlyEnded(x, z);
    if Turns(Step(x), z) { TurnLoses(v, x, z, c); } else { OtherLoses(v, x, z, c); }
  }

  lemma StepLeaves(v: Server, x: E.Action, w: Server, t: Thread, c: ConnId)
    requires Inv(v) && CanStep(v, x) && w == DoStep(v, x) && t != Ended(x)
    ensures Doomed(w, t, c) <==> Doomed(v, t, c)
  {
    OnlyEnded(x, t);
    StepKeepsDoom(v, x, t, c);
  }

  lemma StepLoses(v: Server, x: E.Action, w: Server, c: ConnId)
    requires Inv(v) && CanStep(v, x) && w == DoStep(v, x)
    ensures Loses(w, c) <==> Loses(v, c)
  {
    var z := Ended(x);
    forall t: Thread | t != z ensures Doomed(w, t, c) <==> Doomed(v, t, c) { StepLeaves(v, x, w, t, c); }
    StepTurns(v, x, w, z, c);
    SameLoss(v, w, z, c);
  }

  lemma DropLoses(v: Server, t: Thread, c: ConnId)
    requires CanDrop(v, t)
    ensures Loses(DoDrop(v, t), c) <==> Loses(v, c)
  {
    forall z: Thread ensures Doomed(DoDrop(v, t), z, c) <==> Doomed(v, z, c) { }
    SameLoss(v, DoDrop(v, t), t, c);
  }

  // ---------------------------------------------------------------- a request

  lemma RequestKeepsDoom(v: Server, t: Thread, uks: seq<string>, aks: seq<string>, now: int, z: Thread, c: ConnId)
    requires Inv(v) && CanRequest(v, t, uks, aks, now) && z != t
    ensures Doomed(DoRequest(v, t, uks, aks, now), z, c) <==> Doomed(v, z, c)
  {
    var f := E.DoDecode(v.engine, t);
    DecodeIsStep(v.engine, t);
    if InProcess(v.engine, z) {
      TaskStays(v.engine, E.Decode(t), f, z);
    } else if InProcess(f, z) {
      EntersWith(v.engine, E.Decode(t), f, z);
    }
  }

  /** The worker enters process; the position moves behind the delimiter. */
  lemma DecodeEnters(e: E.Engine, t: Thread)
    requires E.CanDecode(e, t) && EW.NextByte(e, t) == END
    ensures var f, id := E.DoDecode(e, t), e.pool.pcs[t].task.buffer;
            && !InProcess(e, t) && InProcess(f, t) && f.pool == e.pool && f.lossy == e.lossy
            && (BytesLeft(f, id) <==> e.buffers[id].pos + 1 < |e.buffers[id].data|)
  {
  }

  lemma ThrewIs(v: Server, t: Thread, uks: seq<string>, aks: seq<string>, now: int)
    requires CanRequest(v, t, uks, aks, now)
    ensures var w := DoRequest(v, t, uks, aks, now);
            t < |w.calls| && (w.calls[t].threw <==> Throws(v.social, Completed(v, t, uks, aks, now)))
  {
    ThrowsIff(v.social, Completed(v, t, uks, aks, now));
  }

  lemma RequestDooms(v: Server, t: Thread, uks: seq<string>, aks: seq<string>, now: int, c: ConnId)
    requires CanRequest(v, t, uks, aks, now)
    ensures !Doomed(v, t, c)
    ensures Doomed(DoRequest(v, t, uks, aks, now), t, c) <==> Drops(v, Request(t, uks, aks, now), c)
    ensures DoRequest(v, t, uks, aks, now).engine.lossy == v.engine.lossy
  {
    DecodeEnters(v.engine, t);
    ThrewIs(v, t, uks, aks, now);
  }

  lemma RequestLoses(v: Server, t: Thread, uks: seq<string>, aks: seq<string>, now: int, c: ConnId)
    requires Inv(v) && CanRequest(v, t, uks, aks, now)
    ensures Loses(DoRequest(v, t, uks, aks, now), c) <==> Loses(v, c) || Drops(v, Request(t, uks, aks, now), c)
  {
    var w := DoRequest(v, t, uks, aks, now);
    RequestDooms(v, t, uks, aks, now, c);
    forall z: Thread | z != t ensures Doomed(w, z, c) <==> Doomed(v, z, c) {
      RequestKeepsDoom(v, t, uks, aks, now, z, c);
    }
    OneMoreLoss(v, w, t, c);
  }

  lemma OneMoreLoss(v: Server, w: Server, t: Thread, c: ConnId)
    requires (forall z :: z != t ==> (Doomed(w, z, c) <==> Doomed(v, z, c))) && !Doomed(v, t, c)
    requires w.engine.lossy == v.engine.lossy
    ensures Loses(w, c) <==> Loses(v, c) || Doomed(w, t, c)
  {
    if z :| Doomed(v, z, c) { assert Doomed(w, z, c); }
    if z :| Doomed(w, z, c) { assert z == t || Doomed(v, z, c); }
  }

  // ---------------------------------------------------------------- runs

  lemma ActionLoses(v: Server, x: Action, w: Server, c: ConnId)
    requires Inv(v) && Enabled(v, x) && w == Apply(v, x)
    ensures Loses(w, c) <==> Loses(v, c) || Drops(v, x, c)
  {
    match x
    case Request(t, uks, aks, now) => RequestLoses(v, t, uks, aks, now, c);
    case Drop(t) => DropLoses(v, t, c);
    case Step(y) => StepLoses(v, y, w, c);
  }

  lemma {:induction false} RunLoses(v: Server, xs: seq<Action>, c: ConnId)
    requires Inv(v) && CanRun(v, xs)
    ensures Loses(RunAll(v, xs), c) <==> Loses(v, c) || EverDrops(v, xs, c)
    decreases |xs|
  {
    if xs != [] {
      var w := FirstStep(v, xs);
      ActionLoses(v, xs[0], w, c);
      StepInv(v, xs[0]);
      RunLoses(w, xs[1..], c);
    }
  }

  lemma StartLoses(workers: nat, xs: seq<Action>, c: ConnId)
    requires CanRun(Start(workers), xs)
    ensures Inv(RunAll(Start(workers), xs))
    ensures Loses(RunAll(Start(workers), xs), c) <==> EverDrops(Start(workers), xs, c)
  {
    StartInv(workers);
    RunInv(Start(workers), xs);
    RunLoses(Start(workers), xs, c);
  }

  /** No worker is in process for a settled connection. */
  lemma SettledLoses(v: Server, c: ConnId)
    requires Inv(v) && ER.Settled(v.engine, c)
    ensures Loses(v, c) <==> c in v.engine.lossy
  {
    if t :| Doomed(v, t, c) {
      PO.RunningTask(v.engine.pool, t);
    }
  }

  /** A settled connection has processed exactly the frames of the bytes read, and its decoder holds exactly the
      incomplete rest, if and only if in the run no request of that connection met the guard of an exception
      while bytes of its chunk were left. */
  lemma AllProcessedIff(workers: nat, xs: seq<Action>, c: ConnId)
    requires CanRun(Start(workers), xs) && ER.Settled(RunAll(Start(workers), xs).engine, c)
    ensures var e := RunAll(Start(workers), xs).engine;
            && (E.Processed(e, c) == Frames(E.Stream(e, c)) && E.Decoder(e, c) == Framing.Rest(E.Stream(e, c)) <==>
                !EverDrops(Start(workers), xs, c))
  {
    var v := RunAll(Start(workers), xs);
    StartLoses(workers, xs, c);
    SettledLoses(v, c);
    assert Reachable(v);
    ReachableInv(v);
    ER.ProcessedIsAllIff(v.engine, c);
  }
}
