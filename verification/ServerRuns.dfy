/** Runs of the whole server, from typed lines to what the clients show: one statement over every interleaving,
    chunking, scan order and partial write. */
module ServerRuns {
  import opened Framing
  import opened ServerMessages
  import opened Social
  import SR = SocialRuns
  import SW = SocialWire
  import SC = SocialRecords
  import opened Calls
  import opened Server
  import opened ServerInvariant
  import opened EngineTasks
  import E = ReactorEngine
  import ER = EngineRuns
  import Cmd = ClientEncoder
  import CD = ClientDecoder
  import CS = ClientStream

  ghost predicate Reachable(v: Server) {
    exists workers: nat, xs :: CanRun(Start(workers), xs) && v == RunAll(Start(workers), xs)
  }

  lemma StartInv(workers: nat)
    ensures Inv(Start(workers))
  {
    ER.InitInv(workers);
    var v := Start(workers);
    forall c: ConnId ensures Balanced(v, c) { NoneCalls(v.calls, c); }
  }

  lemma {:induction false} NoneCalls(calls: seq<Call>, c: int)
    requires forall t :: 0 <= t < |calls| ==> calls[t].outgoing == []
    ensures Pending(calls, c) == multiset{}
  {
    if calls != [] { NoneCalls(calls[1..], c); }
  }

  lemma FirstStep(v: Server, xs: seq<Action>) returns (w: Server)
    requires CanRun(v, xs) && xs != []
    ensures Enabled(v, xs[0]) && w == Apply(v, xs[0]) && CanRun(w, xs[1..]) && RunAll(w, xs[1..]) == RunAll(v, xs)
  {
    w := Apply(v, xs[0]);
  }

  lemma {:induction false} RunInv(v: Server, xs: seq<Action>)
    requires Inv(v) && CanRun(v, xs)
    ensures Inv(RunAll(v, xs))
    decreases |xs|
  {
    if xs != [] {
      var w := FirstStep(v, xs);
      StepInv(v, xs[0]);
      RunInv(w, xs[1..]);
    }
  }

  lemma StepBefore(e: E.Engine, x: E.Action, f: E.Engine, ys: seq<E.Action>) returns (zs: seq<E.Action>)
    requires IsStep(e, x, f) && ER.CanRun(f, ys)
    ensures ER.CanRun(e, zs) && ER.RunAll(e, zs) == ER.RunAll(f, ys)
  {
    zs := [x] + ys;
    assert zs[1..] == ys;
  }

  lemma RequestMoves(v: Server, t: Thread, uks: seq<string>, aks: seq<string>, now: int)
    requires CanRequest(v, t, uks, aks, now)
    ensures IsStep(v.engine, E.Decode(t), DoRequest(v, t, uks, aks, now).engine)
  {
    DecodeIsStep(v.engine, t);
  }

  lemma DecodeIsStep(e: E.Engine, t: Thread)
    requires E.CanDecode(e, t)
    ensures IsStep(e, E.Decode(t), E.DoDecode(e, t))
  {
  }

  lemma StepMoves(v: Server, x: E.Action)
    requires CanStep(v, x)
    ensures IsStep(v.engine, x, DoStep(v, x).engine)
  {
  }

  /** A step of the server is a step of the reactor, or leaves it alone. */
  lemma EngineMoves(v: Server, x: Action, w: Server, ys: seq<E.Action>) returns (zs: seq<E.Action>)
    requires Enabled(v, x) && w == Apply(v, x) && ER.CanRun(w.engine, ys)
    ensures ER.CanRun(v.engine, zs) && ER.RunAll(v.engine, zs) == ER.RunAll(w.engine, ys)
  {
    match x
    case Drop(_) => zs := ys;
    case Request(t, uks, aks, now) =>
      RequestMoves(v, t, uks, aks, now);
      zs := StepBefore(v.engine, E.Decode(t), w.engine, ys);
    case Step(y) =>
      StepMoves(v, y);
      zs := StepBefore(v.engine, y, w.engine, ys);
  }

  lemma {:induction false} EngineRun(v: Server, xs: seq<Action>) returns (ys: seq<E.Action>)
    requires CanRun(v, xs)
    ensures ER.CanRun(v.engine, ys) && ER.RunAll(v.engine, ys) == RunAll(v, xs).engine
    decreases |xs|
  {
    if xs == [] {
      ys := [];
    } else {
      var w := FirstStep(v, xs);
      var zs := EngineRun(w, xs[1..]);
      ys := EngineMoves(v, xs[0], w, zs);
    }
  }

  /** Everything proved of the reactor's runs holds of the server's. */
  lemma ReachableInv(v: Server)
    requires Reachable(v)
    ensures Inv(v) && ER.Reachable(v.engine)
  {
    var workers: nat, xs :| CanRun(Start(workers), xs) && v == RunAll(Start(workers), xs);
    StartInv(workers);
    RunInv(Start(workers), xs);
    var ys := EngineRun(Start(workers), xs);
    assert ER.CanRun(ER.Init(workers), ys);
  }

  // ---------------------------------------------------------------- what is up to the environment

  /** The scan orders and the year of a request. */
  datatype Given = Given(uks: seq<string>, aks: seq<string>, now: int)

  function GivenIn(xs: seq<Action>): seq<Given> {
    if xs == [] then []
    else (if xs[0].Request? then [Given(xs[0].uks, xs[0].aks, xs[0].now)] else []) + GivenIn(xs[1..])
  }

  function GivenTo(es: seq<SR.Event>): seq<Given> {
    if es == [] then [] else GivenTo(es[..|es| - 1]) + var e := es[|es| - 1]; [Given(e.uks, e.aks, e.now)]
  }

  lemma StepGiven(v: Server, x: Action, w: Server)
    requires Enabled(v, x) && w == Apply(v, x)
    ensures GivenTo(w.events) == GivenTo(v.events) + if x.Request? then [Given(x.uks, x.aks, x.now)] else []
  {
    if x.Request? { assert w.events[..|v.events|] == v.events; }
  }

  /** Requests are handled with the scan orders and the year of their own step, in the order of the steps. */
  lemma {:induction false} EventsAsGiven(v: Server, xs: seq<Action>)
    requires CanRun(v, xs)
    ensures GivenTo(RunAll(v, xs).events) == GivenTo(v.events) + GivenIn(xs)
    decreases |xs|
  {
    if xs != [] {
      var w := FirstStep(v, xs);
      StepGiven(v, xs[0], w);
      EventsAsGiven(w, xs[1..]);
      JoinGiven(GivenTo(v.events), if xs[0].Request? then [Given(xs[0].uks, xs[0].aks, xs[0].now)] else [],
                GivenIn(xs[1..]));
    }
  }

  lemma JoinGiven(a: seq<Given>, b: seq<Given>, c: seq<Given>)
    ensures (a + b) + c == a + (b + c)
  {
  }

  // ---------------------------------------------------------------- the requests are typed commands

  /** A frame of typed commands is the frame of one of them. */
  predicate IsFrameOf(f: Bytes, c: Cmd.Command) { Cmd.WellFormed(c) && !c.UnknownCmd? && f == Cmd.Frame(c) }

  ghost predicate IsTyped(f: Bytes) { exists c :: IsFrameOf(f, c) }

  lemma {:induction false} FramesAreTyped(cs: seq<Cmd.Command>, k: nat)
    requires Cmd.AllWellFormed(cs) && k < |Cmd.FramesOf(cs)|
    ensures IsTyped(Cmd.FramesOf(cs)[k])
  {
    if k < |Cmd.FramesOf(cs[..|cs| - 1])| {
      FramesAreTyped(cs[..|cs| - 1], k);
    } else {
      assert IsFrameOf(Cmd.FramesOf(cs)[k], cs[|cs| - 1]);
    }
  }

  lemma {:induction false} EventIsThere(es: seq<SR.Event>, i: nat)
    requires i < |es|
    ensures es[i].message in MessagesOn(es, es[i].conn)
  {
    if i < |es| - 1 { EventIsThere(es[..|es| - 1], i); }
  }

  /** The bytes read from every connection are those of typed lines, as far as they have arrived. */
  ghost predicate ReadsLines(v: Server, lines: ConnId -> seq<Cmd.Command>) {
    forall c: ConnId :: ReadsFrom(v, lines(c), c)
  }

  predicate ReadsFrom(v: Server, cs: seq<Cmd.Command>, c: ConnId) {
    Cmd.AllWellFormed(cs) && E.Stream(v.engine, c) <= Cmd.EncodeAll(cs)
  }

  lemma ProcessedAreTyped(v: Server, cs: seq<Cmd.Command>, c: ConnId)
    requires ER.Reachable(v.engine) && c !in v.engine.lossy && ReadsFrom(v, cs, c)
    ensures E.Processed(v.engine, c) <= Cmd.FramesOf(cs)
  {
    ER.ProcessedIsPrefix(v.engine, c);
    FramesOfPrefix(E.Stream(v.engine, c), Cmd.EncodeAll(cs));
    Cmd.CommandsAreFramed(cs);
  }

  lemma EventTyped(v: Server, cs: seq<Cmd.Command>, i: nat)
    requires Inv(v) && ER.Reachable(v.engine) && i < |v.events|
    requires v.events[i].conn >= 0 && v.events[i].conn !in v.engine.lossy && ReadsFrom(v, cs, v.events[i].conn)
    ensures SW.Typed(v.events[i])
  {
    var e := v.events[i];
    assert ConnOk(v, e.conn);
    EventIsThere(v.events, i);
    ProcessedAreTyped(v, cs, e.conn);
    var k :| 0 <= k < |Cmd.FramesOf(cs)| && Cmd.FramesOf(cs)[k] == e.message;
    FramesAreTyped(cs, k);
    var c :| IsFrameOf(e.message, c);
    assert SW.FromCommand(e, c);
  }

  // ---------------------------------------------------------------- the messages can be read

  lemma OutboxSnoc(log: seq<Sent>, m: Sent, c: int)
    ensures SW.Outbox(log + [m], c) == SW.Outbox(log, c) + if m.conn == c then [m.msg] else []
  {
    assert (log + [m])[..|log|] == log;
  }

  lemma BagStep(init: seq<Sent>, m: Sent, log: seq<Sent>, c: int)
    requires log == init + [m] && Bag(init, c) == multiset(SW.Outbox(init, c))
    ensures Bag(log, c) == multiset(SW.Outbox(log, c))
  {
    BagSnoc(init, m, c);
    OutboxSnoc(init, m, c);
  }

  lemma {:induction false} BagIsOutbox(log: seq<Sent>, c: int)
    ensures Bag(log, c) == multiset(SW.Outbox(log, c))
  {
    if log != [] {
      var init, last := log[..|log| - 1], log[|log| - 1];
      BagIsOutbox(init, c);
      BagStep(init, last, log, c);
    }
  }

  lemma QueuedWasSent(v: Server, c: ConnId, m: ServerMessage)
    requires Inv(v) && m in Queued(v, c)
    ensures m in SW.Outbox(v.social.log, c)
  {
    assert Balanced(v, c);
    BagIsOutbox(v.social.log, c);
    assert m in multiset(Queued(v, c));
    assert m in multiset(SW.Outbox(v.social.log, c));
  }

  lemma QueuedIsSafe(v: Server, c: ConnId)
    requires Inv(v) && (forall i :: 0 <= i < |v.events| ==> SW.Typed(v.events[i]))
    requires !SC.EverGetsRecord(SR.EMPTY, v.events, c)
    ensures CS.AllSafe(Queued(v, c))
  {
    var out := SW.Outbox(v.social.log, c);
    SW.RunSends(v.events, c);
    SW.SafeWithoutRecord(out);
    forall i | 0 <= i < |Queued(v, c)| ensures CD.Safe(Queued(v, c)[i]) {
      QueuedWasSent(v, c, Queued(v, c)[i]);
      var k :| 0 <= k < |out| && out[k] == Queued(v, c)[i];
    }
  }

  /** What the client of connection `c` has shown: the messages put into its queue, as far as they are written
      completely. */
  predicate Shows(v: Server, c: ConnId)
    requires c < |v.engine.net.chans|
  {
    var ch := v.engine.net.chans[c];
    var ms := Queued(v, c);
    var read := CS.Read(ch.wrote);
    && !read.crashed && read.shown == CS.Images(ms)[..CS.Complete(CS.Encoded(ms), |ch.wrote|)]
    && (ch.queue == [] ==> read.shown == CS.Images(ms) && read.held == [])
  }

  ghost predicate GetsRecordIn(v: Server, c: ConnId) {
    SR.CanRun(SR.EMPTY, v.events) && SC.EverGetsRecord(SR.EMPTY, v.events, c)
  }

  /** Conservation: whatever is requested and thrown, the messages queued for a connection, those the workers
      still have to send to it and those sent before it existed are exactly what process sent to it. */
  lemma NoMessageLost(v: Server, c: ConnId)
    requires Reachable(v)
    ensures SR.CanRun(SR.EMPTY, v.events)
    ensures multiset(Queued(v, c)) + Pending(v.calls, c) + Bag(v.dropped, c) ==
            multiset(SW.Outbox(SR.RunAll(SR.EMPTY, v.events).log, c))
  {
    ReachableInv(v);
    assert Balanced(v, c);
    BagIsOutbox(v.social.log, c);
  }
}
