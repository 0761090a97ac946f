/** What every step of the whole server keeps: each connection's messages are the requests handled, and the
    messages sent are queued, still to be sent, or without a receiver - none is lost or made up. */
module ServerInvariant {
  import opened Framing
  import opened ServerMessages
  import opened Social
  import SR = SocialRuns
  import opened SocialThrows
  import opened Calls
  import opened Server
  import opened EngineTasks
  import E = ReactorEngine
  import EI = EngineInvariant
  import EW = EngineWorkers
  import N = ReactorWrites
  import W = WriteRuns
  import Q = WriteQueue
  import CD = ClientDecoder
  import CS = ClientStream

  // ---------------------------------------------------------------- what the engine does

  lemma ProcessedKept(e: E.Engine, x: E.Action, f: E.Engine)
    requires IsStep(e, x, f) && !x.Decode?
    ensures f.processed == e.processed
  {
  }

  lemma ChansKept(e: E.Engine, x: E.Action, f: E.Engine)
    requires IsStep(e, x, f) && !x.NetStep?
    ensures |f.net.chans| == |e.net.chans| && f.net.senders == e.net.senders
    ensures forall c :: 0 <= c < |e.net.chans| ==> f.net.chans[c].bufs == e.net.chans[c].bufs
  {
  }

  lemma SenderFrom(e: E.Engine, x: E.Action, f: E.Engine, w: Thread)
    requires IsStep(e, x, f) && w < |f.net.senders| && |f.net.senders| == |e.net.senders| && f.net.senders[w].Adding?
    ensures f.net.senders[w] == e.net.senders[w]
            || x == E.NetStep(N.BeginSend(w, f.net.senders[w].conn, f.net.senders[w].msg))
  {
    if !x.NetStep? { ChansKept(e, x, f); }
  }

  /** The message a step puts into the write queue of `c`. */
  function Enqueued(e: E.Engine, x: E.Action, c: ConnId): seq<Bytes>
    requires E.Enabled(e, x)
  {
    if Adds(x) && e.net.senders[x.n.worker].conn == c then [e.net.senders[x.n.worker].msg] else []
  }

  function MessagesOf(e: E.Engine, c: ConnId): seq<Bytes> {
    if c < |e.net.chans| then Q.Messages(e.net.chans[c].bufs) else []
  }

  lemma NetMessages(n: N.Net, x: N.Action, c: ConnId)
    requires N.Enabled(n, x)
    ensures |n.chans| <= |N.Apply(n, x).chans|
    ensures |n.chans| <= c < |N.Apply(n, x).chans| ==> N.Apply(n, x).chans[c].bufs == []
    ensures c < |n.chans| ==>
              Q.Messages(N.Apply(n, x).chans[c].bufs) == Q.Messages(n.chans[c].bufs) + W.EnqueuedBy(n, x, c)
  {
    if c < |n.chans| { W.StepAppends(n, x, c); }
  }

  lemma StepMessages(e: E.Engine, x: E.Action, f: E.Engine, c: ConnId)
    requires IsStep(e, x, f)
    ensures |e.net.chans| <= |f.net.chans| && MessagesOf(f, c) == MessagesOf(e, c) + Enqueued(e, x, c)
  {
    if x.NetStep? { NetMessages(e.net, x.n, c); } else { ChansKept(e, x, f); }
  }

  // ---------------------------------------------------------------- the invariant

  /** The requests of one connection, in the order they were handled. */
  function MessagesOn(es: seq<SR.Event>, c: int): seq<Bytes> {
    if es == [] then []
    else MessagesOn(es[..|es| - 1], c) + if es[|es| - 1].conn == c then [es[|es| - 1].message] else []
  }

  /** A worker that is not in process has nothing to send, and one in `send` sends the next message. */
  ghost predicate CallOk(v: Server, t: Thread) {
    t < |v.calls| && t < |v.engine.jobs| && t < |v.engine.net.senders| ==>
      && (!v.engine.jobs[t].Processing? ==> v.calls[t].outgoing == [])
      && (v.engine.net.senders[t].Adding? ==>
            && v.calls[t].outgoing != [] && v.calls[t].outgoing[0].conn == v.engine.net.senders[t].conn
            && v.engine.net.senders[t].msg == CD.Encode(v.calls[t].outgoing[0].msg))
  }

  ghost predicate ConnOk(v: Server, c: ConnId) {
    E.Processed(v.engine, c) == MessagesOn(v.events, c) && MessagesOf(v.engine, c) == CS.Encoded(Queued(v, c))
  }

  /** No message is lost or made up. */
  ghost predicate Balanced(v: Server, c: ConnId) {
    multiset(Queued(v, c)) + Pending(v.calls, c) + Bag(v.dropped, c) == Bag(v.social.log, c)
  }

  ghost predicate SocialOk(v: Server) {
    && SR.CanRun(SR.EMPTY, v.events) && v.social == SR.RunAll(SR.EMPTY, v.events)
    && (forall i :: 0 <= i < |v.events| ==> v.events[i].conn >= 0)
  }

  ghost predicate Inv(v: Server) {
    && EI.Inv(v.engine) && |v.calls| == |v.engine.jobs| && SocialOk(v)
    && (forall t: Thread :: CallOk(v, t))
    && (forall c: ConnId :: ConnOk(v, c))
    && (forall c: ConnId :: Balanced(v, c))
  }

  lemma EventsSnoc(es: seq<SR.Event>, e: SR.Event, c: int)
    ensures MessagesOn(es + [e], c) == MessagesOn(es, c) + if e.conn == c then [e.message] else []
  {
    assert (es + [e])[..|es|] == es;
  }

  lemma {:induction false} EncodedSnoc(ms: seq<ServerMessage>, m: ServerMessage)
    ensures CS.Encoded(ms + [m]) == CS.Encoded(ms) + [CD.Encode(m)]
  {
    if ms != [] {
      EncodedSnoc(ms[1..], m);
      assert (ms + [m])[1..] == ms[1..] + [m];
    }
  }

  // ---------------------------------------------------------------- steps of the engine

  /** The steps of `send` on a worker, as far as the sender is concerned. */
  lemma AddEnds(e: E.Engine, x: E.Action, f: E.Engine)
    requires IsStep(e, x, f) && Adds(x)
    ensures x.n.worker < |f.net.senders| && !f.net.senders[x.n.worker].Adding? && e.net.senders[x.n.worker].Adding?
    ensures e.net.senders[x.n.worker].conn < |e.net.chans|
  {
  }

  predicate SameSize(v: Server, f: E.Engine) {
    && |v.calls| == |v.engine.jobs| == |f.jobs|
    && |v.calls| == |v.engine.net.senders| == |f.net.senders| && |v.calls| == |v.engine.pool.pcs|
  }

  lemma StepIdle(v: Server, x: E.Action, f: E.Engine, t: Thread)
    requires CanStep(v, x) && f == E.Apply(v.engine, x) && SameSize(v, f) && t < |v.calls|
    requires CallOk(v, t) && EI.ThreadOk(v.engine, t) && !f.jobs[t].Processing?
    ensures DoStep(v, x).calls[t].outgoing == []
  {
    if InProcess(v.engine, t) && x != E.EndProcess(t) && x != E.Throw(t) { StaysIn(v.engine, x, f, t); }
    if Adds(x) { AddEnds(v.engine, x, f); }
  }

  lemma StepSending(v: Server, x: E.Action, f: E.Engine, t: Thread)
    requires CanStep(v, x) && f == E.Apply(v.engine, x) && SameSize(v, f) && t < |v.calls|
    requires CallOk(v, t) && f.net.senders[t].Adding?
    ensures var out := DoStep(v, x).calls[t].outgoing;
            out != [] && out[0].conn == f.net.senders[t].conn && f.net.senders[t].msg == CD.Encode(out[0].msg)
  {
    SenderFrom(v.engine, x, f, t);
    if Adds(x) { AddEnds(v.engine, x, f); }
  }

  lemma StepCall(v: Server, x: E.Action, t: Thread)
    requires CanStep(v, x) && SameSize(v, E.Apply(v.engine, x)) && CallOk(v, t) && EI.ThreadOk(v.engine, t)
    ensures CallOk(DoStep(v, x), t)
  {
    var f := E.Apply(v.engine, x);
    assert DoStep(v, x).engine == f;
    if t < |v.calls| && !f.jobs[t].Processing? { StepIdle(v, x, f, t); }
    if t < |v.calls| && f.net.senders[t].Adding? { StepSending(v, x, f, t); }
  }

  lemma StepQueued(v: Server, x: E.Action, c: ConnId)
    requires CanStep(v, x) && (Adds(x) ==> CallOk(v, x.n.worker)) && SameSize(v, E.Apply(v.engine, x))
    requires MessagesOf(v.engine, c) == CS.Encoded(Queued(v, c))
    ensures MessagesOf(DoStep(v, x).engine, c) == CS.Encoded(Queued(DoStep(v, x), c))
  {
    var f := E.Apply(v.engine, x);
    StepMessages(v.engine, x, f, c);
    if Adds(x) {
      AddEnds(v.engine, x, f);
      EncodedSnoc(Queued(v, c), v.calls[x.n.worker].outgoing[0].msg);
    }
  }

  lemma StepProcessed(v: Server, x: E.Action, c: ConnId)
    requires CanStep(v, x)
    ensures E.Processed(DoStep(v, x).engine, c) == E.Processed(v.engine, c)
  {
    if x.Decode? { KeepsByte(v.engine, x.thread, c); } else { ProcessedKept(v.engine, x, E.Apply(v.engine, x)); }
  }

  lemma KeepsByte(e: E.Engine, t: Thread, c: ConnId)
    requires E.CanDecode(e, t) && EW.NextByte(e, t) != END
    ensures E.Processed(E.DoDecode(e, t), c) == E.Processed(e, c)
  {
  }

  lemma AddBalanced(v: Server, x: E.Action, c: ConnId)
    requires CanStep(v, x) && Adds(x) && CallOk(v, x.n.worker) && SameSize(v, E.Apply(v.engine, x)) && Balanced(v, c)
    ensures Balanced(DoStep(v, x), c)
  {
    AddEnds(v.engine, x, E.Apply(v.engine, x));
    QueueHead(v.calls, x.n.worker, Queued(v, c), Bag(v.dropped, c), c);
  }

  lemma StepBalanced(v: Server, x: E.Action, c: ConnId)
    requires CanStep(v, x) && (Adds(x) ==> CallOk(v, x.n.worker)) && SameSize(v, E.Apply(v.engine, x)) && Balanced(v, c)
    ensures Balanced(DoStep(v, x), c)
  {
    if Adds(x) { AddBalanced(v, x, c); }
  }

  lemma KeepsSize(v: Server, x: E.Action)
    requires Inv(v) && E.Enabled(v.engine, x)
    ensures SameSize(v, E.Apply(v.engine, x)) && EI.Inv(E.Apply(v.engine, x))
  {
    EW.StepInv(v.engine, x);
    SizeKept(v.engine, x, E.Apply(v.engine, x));
  }

  lemma SizeKept(e: E.Engine, x: E.Action, f: E.Engine)
    requires IsStep(e, x, f)
    ensures |f.jobs| == |e.jobs|
  {
  }

  lemma StepConn(v: Server, x: E.Action, w: Server, c: ConnId)
    requires CanStep(v, x) && w == DoStep(v, x) && SameSize(v, E.Apply(v.engine, x))
    requires (Adds(x) ==> CallOk(v, x.n.worker)) && ConnOk(v, c) && Balanced(v, c)
    ensures ConnOk(w, c) && Balanced(w, c)
  {
    StepQueued(v, x, c);
    StepProcessed(v, x, c);
    StepBalanced(v, x, c);
  }

  lemma EngineStep(v: Server, x: E.Action)
    requires Inv(v) && CanStep(v, x)
    ensures Inv(DoStep(v, x))
  {
    var w := DoStep(v, x);
    KeepsSize(v, x);
    assert SocialOk(w);
    if Adds(x) { assert CallOk(v, x.n.worker); }
    forall t: Thread ensures CallOk(w, t) {
      assert CallOk(v, t) && EI.ThreadOk(v.engine, t);
      StepCall(v, x, t);
    }
    forall c: ConnId ensures ConnOk(w, c) && Balanced(w, c) {
      assert ConnOk(v, c) && Balanced(v, c);
      StepConn(v, x, w, c);
    }
  }

  lemma DropStep(v: Server, t: Thread)
    requires Inv(v) && CanDrop(v, t)
    ensures Inv(DoDrop(v, t))
  {
    var w := DoDrop(v, t);
    forall z: Thread ensures CallOk(w, z) { assert CallOk(v, z); }
    forall c: ConnId ensures ConnOk(w, c) { assert ConnOk(v, c); }
    forall c: ConnId ensures Balanced(w, c) {
      assert Balanced(v, c);
      DropHead(v.calls, t, multiset(Queued(v, c)), v.dropped, c);
    }
  }

  // ---------------------------------------------------------------- a request

  /** One request more, as far as the users and maps are concerned. */
  lemma OneMore(es: seq<SR.Event>, s: Social, e: SR.Event)
    requires SR.CanRun(SR.EMPTY, es) && s == SR.RunAll(SR.EMPTY, es) && SR.CanHandle(s, e)
    ensures SR.CanRun(SR.EMPTY, es + [e]) && SR.RunAll(SR.EMPTY, es + [e]) == SR.Handle(s, e)
    ensures s.log <= SR.Handle(s, e).log
  {
    SR.InitRunInv(es);
    SR.ProcessGrows(s, e);
    RunSnoc(SR.EMPTY, es, e);
  }

  lemma RequestSocial(v: Server, t: Thread, uks: seq<string>, aks: seq<string>, now: int)
    requires SocialOk(v) && CanRequest(v, t, uks, aks, now)
    ensures SocialOk(DoRequest(v, t, uks, aks, now))
    ensures DoRequest(v, t, uks, aks, now).social.log ==
            v.social.log + NewSends(v.social.log, DoRequest(v, t, uks, aks, now).social.log)
  {
    OneMore(v.events, v.social, Completed(v, t, uks, aks, now));
  }

  lemma RequestProcessed(v: Server, t: Thread, e: SR.Event, c: ConnId)
    requires E.CanDecode(v.engine, t) && EW.NextByte(v.engine, t) == END
    requires e.conn == v.engine.pool.pcs[t].act && e.message == E.Decoder(v.engine, v.engine.pool.pcs[t].act)
    requires ConnOk(v, c)
    ensures E.Processed(E.DoDecode(v.engine, t), c) == MessagesOn(v.events + [e], c)
    ensures MessagesOf(E.DoDecode(v.engine, t), c) == CS.Encoded(Queued(v, c))
  {
    EventsSnoc(v.events, e, c);
  }

  lemma RequestCall(v: Server, t: Thread, call: Call, z: Thread)
    requires E.CanDecode(v.engine, t) && t < |v.calls| && CallOk(v, z) && EI.ThreadOk(v.engine, z)
    requires |v.engine.net.senders| == |v.engine.jobs|
    requires z == t ==> EW.NextByte(v.engine, t) == END
    ensures CallOk(v.(engine := E.DoDecode(v.engine, t), calls := v.calls[t := call]), z)
  {
  }

  lemma RequestStep(v: Server, t: Thread, uks: seq<string>, aks: seq<string>, now: int)
    requires Inv(v) && CanRequest(v, t, uks, aks, now)
    ensures Inv(DoRequest(v, t, uks, aks, now))
  {
    var w := DoRequest(v, t, uks, aks, now);
    EW.StepDecode(v.engine, t);
    RequestSocial(v, t, uks, aks, now);
    forall z: Thread ensures CallOk(w, z) {
      assert CallOk(v, z) && EI.ThreadOk(v.engine, z);
      RequestCall(v, t, w.calls[t], z);
    }
    forall c: ConnId ensures ConnOk(w, c) {
      assert ConnOk(v, c);
      RequestProcessed(v, t, Completed(v, t, uks, aks, now), c);
    }
    assert CallOk(v, t);
    forall c: ConnId ensures Balanced(w, c) {
      assert Balanced(v, c);
      NewCall(v.calls, t, w.calls[t], multiset(Queued(v, c)), Bag(v.dropped, c), v.social.log, c);
    }
  }

  lemma StepInv(v: Server, x: Action)
    requires Inv(v) && Enabled(v, x)
    ensures Inv(Apply(v, x))
  {
    match x
    case Request(t, uks, aks, now) => RequestStep(v, t, uks, aks, now);
    case Drop(t) => DropStep(v, t);
    case Step(y) => EngineStep(v, y);
  }
}
