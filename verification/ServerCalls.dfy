/** Every call of process comes to its end: the worker can always make its next send, or find that it has no
    receiver, and then return or throw. */
module ServerCalls {
  import opened Calls
  import opened Server
  import opened ServerInvariant
  import E = ReactorEngine
  import EI = EngineInvariant
  import ES = EngineSettles
  import N = ReactorWrites
  import NI = WriteInvariant
  import CD = ClientDecoder

  predicate InCall(v: Server, t: Thread) {
    && t < |v.calls| && t < |v.engine.jobs| && t < |v.engine.net.senders| && v.engine.jobs[t].Processing?
  }

  /** How far the call is from its end. */
  function Rank(v: Server, t: Thread): int
    requires InCall(v, t)
  {
    4 * |v.calls[t].outgoing| +
    match v.engine.net.senders[t]
    case Quiet => 0
    case Adding(_, _) => -1
    case Asking(_) => 2
    case Waking => 1
  }

  function NextSend(v: Server, t: Thread): N.Action
    requires InCall(v, t)
  {
    match v.engine.net.senders[t]
    case Adding(_, _) => N.AddBuffer(t)
    case Asking(_) => N.AskInterest(t)
    case _ => N.Wake(t)
  }

  function NextOf(v: Server, t: Thread): Action
    requires InCall(v, t)
  {
    var call := v.calls[t];
    if !v.engine.net.senders[t].Quiet? then Step(E.NetStep(NextSend(v, t)))
    else if call.outgoing != [] && IsConn(v, call.outgoing[0].conn) then
      Step(E.NetStep(N.BeginSend(t, call.outgoing[0].conn, CD.Encode(call.outgoing[0].msg))))
    else if call.outgoing != [] then Drop(t)
    else if call.threw then Step(E.Throw(t))
    else Step(E.EndProcess(t))
  }

  /** The step of the call: it gets closer to its end, or is over. */
  predicate GetsOn(v: Server, w: Server, t: Thread) {
    InCall(v, t) && (InCall(w, t) ==> 0 <= Rank(w, t) < Rank(v, t))
  }

  /** The steps of `send`. */
  lemma SendNext(n: N.Net, x: N.Action, t: Thread)
    requires N.HasSender(n, t) && NI.SenderOk(n, t)
    requires match n.senders[t]
             case Quiet => x.BeginSend? && x.worker == t && N.HasChan(n, x.conn)
             case Adding(_, _) => x == N.AddBuffer(t)
             case Asking(_) => x == N.AskInterest(t)
             case Waking => x == N.Wake(t)
    ensures N.Enabled(n, x) && |N.Apply(n, x).senders| == |n.senders|
    ensures var s := N.Apply(n, x).senders[t];
            match n.senders[t]
            case Quiet => s.Adding?
            case Adding(_, _) => s.Asking?
            case Asking(_) => s.Waking?
            case Waking => s.Quiet?
  {
  }

  lemma NetStepIs(v: Server, x: N.Action)
    requires CanStep(v, E.NetStep(x))
    ensures var w := DoStep(v, E.NetStep(x));
            && w.engine.jobs == v.engine.jobs && w.engine.net == N.Apply(v.engine.net, x)
            && (x.AddBuffer? ==> w.calls == v.calls[x.worker := Tail(v.calls[x.worker])])
            && (!x.AddBuffer? ==> w.calls == v.calls)
  {
  }

  lemma SendGetsOn(v: Server, x: N.Action, t: Thread)
    requires InCall(v, t) && CallOk(v, t) && NI.SenderOk(v.engine.net, t)
    requires !v.engine.net.senders[t].Quiet? && x == NextSend(v, t)
    ensures CanStep(v, E.NetStep(x)) && GetsOn(v, DoStep(v, E.NetStep(x)), t)
  {
    SendNext(v.engine.net, x, t);
    NetStepIs(v, x);
  }

  lemma BeginGetsOn(v: Server, x: N.Action, t: Thread)
    requires InCall(v, t) && CallOk(v, t) && NI.SenderOk(v.engine.net, t)
    requires v.engine.net.senders[t].Quiet? && v.calls[t].outgoing != [] && IsConn(v, v.calls[t].outgoing[0].conn)
    requires x == N.BeginSend(t, v.calls[t].outgoing[0].conn, CD.Encode(v.calls[t].outgoing[0].msg))
    ensures CanStep(v, E.NetStep(x)) && GetsOn(v, DoStep(v, E.NetStep(x)), t)
  {
    SendNext(v.engine.net, x, t);
    NetStepIs(v, x);
  }

  lemma DropGetsOn(v: Server, t: Thread)
    requires InCall(v, t) && v.engine.net.senders[t].Quiet?
    requires v.calls[t].outgoing != [] && !IsConn(v, v.calls[t].outgoing[0].conn)
    ensures CanDrop(v, t) && GetsOn(v, DoDrop(v, t), t)
  {
  }

  lemma HasJob(v: Server, t: Thread)
    requires Inv(v) && InCall(v, t)
    ensures E.InJob(v.engine, t, E.Processing)
  {
    assert EI.ThreadOk(v.engine, t);
    ES.JobHasBuffer(v.engine, t);
  }

  lemma EndGetsOn(v: Server, t: Thread)
    requires Inv(v) && InCall(v, t) && v.engine.net.senders[t].Quiet? && v.calls[t].outgoing == []
    ensures Enabled(v, NextOf(v, t)) && !InCall(Apply(v, NextOf(v, t)), t)
  {
    HasJob(v, t);
  }

  lemma CallGetsOn(v: Server, t: Thread) returns (w: Server)
    requires Inv(v) && InCall(v, t)
    ensures Enabled(v, NextOf(v, t)) && w == Apply(v, NextOf(v, t)) && Inv(w) && GetsOn(v, w, t)
  {
    assert CallOk(v, t) && NI.SenderOk(v.engine.net, t);
    var x := NextOf(v, t);
    if !v.engine.net.senders[t].Quiet? {
      SendGetsOn(v, NextSend(v, t), t);
    } else if v.calls[t].outgoing == [] {
      EndGetsOn(v, t);
    } else if IsConn(v, v.calls[t].outgoing[0].conn) {
      BeginGetsOn(v, x.x.n, t);
    } else {
      DropGetsOn(v, t);
    }
    w := Apply(v, x);
    StepInv(v, x);
  }

  /** From every reachable state, a worker that is in process makes all its sends and leaves process. */
  lemma {:induction false} CallEnds(v: Server, t: Thread) returns (xs: seq<Action>)
    requires Inv(v) && InCall(v, t)
    ensures CanRun(v, xs) && !InCall(RunAll(v, xs), t)
    decreases Rank(v, t) + 1
  {
    var w := CallGetsOn(v, t);
    var ys := [];
    if InCall(w, t) { ys := CallEnds(w, t); }
    xs := [NextOf(v, t)] + ys;
    assert xs[1..] == ys;
  }
}
