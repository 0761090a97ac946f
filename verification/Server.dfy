/** The whole server: the reactor with the social protocol as its `process`.

    A message that a worker's decoder completes is handled at once, as one atomic step of the users and maps;
    the sends it makes are then performed one by one by that worker, interleaved with everybody else, and at
    last process returns or throws.  So neither the messages sent nor the exceptions are up to the
    environment any more; the scan orders of the maps and the year are. */
module Server {
  import opened Framing
  import opened ServerMessages
  import opened Social
  import opened SocialRuns
  import opened Calls
  import E = ReactorEngine
  import EW = EngineWorkers
  import ER = EngineRuns
  import CD = ClientDecoder

  type ConnId = E.ConnId
  type Thread = E.Thread

  /** `events`, `queued` and `dropped` are history: the requests handled, the messages put into each
      connection's write queue, and those for connections without a handler. */
  datatype Server = Server(
    engine: E.Engine,
    social: Social,
    events: seq<Event>,
    calls: seq<Call>,
    queued: map<ConnId, seq<ServerMessage>>,
    dropped: seq<Sent>)

  datatype Action =
    | Request(thread: Thread, uks: seq<string>, aks: seq<string>, now: int)
    | Drop(thread: Thread)
    | Step(x: E.Action)

  function Queued(v: Server, c: ConnId): seq<ServerMessage> { if c in v.queued then v.queued[c] else [] }

  function Start(workers: nat): Server {
    Server(ER.Init(workers), EMPTY, [], seq(workers + 1, _ => Call([], false)), map[], [])
  }

  /** The sends a request has added. */
  function NewSends(before: seq<Sent>, after: seq<Sent>): seq<Sent> {
    if |before| <= |after| then after[|before|..] else []
  }

  /** The request that the next byte of thread t completes. */
  function Completed(v: Server, t: Thread, uks: seq<string>, aks: seq<string>, now: int): Event
    requires E.CanDecode(v.engine, t)
  {
    var c := v.engine.pool.pcs[t].act;
    Event(c, E.Decoder(v.engine, c), uks, aks, now)
  }

  predicate CanRequest(v: Server, t: Thread, uks: seq<string>, aks: seq<string>, now: int) {
    && E.CanDecode(v.engine, t) && EW.NextByte(v.engine, t) == END && t < |v.calls|
    && CanHandle(v.social, Completed(v, t, uks, aks, now))
  }

  /** What process does with the request, and what the call still has to send. */
  function Answered(v: Server, t: Thread, e: Event): Server
    requires t < |v.calls| && CanHandle(v.social, e)
  {
    var r := Process(v.social, e.uks, e.aks, e.now, e.conn, e.message);
    var call := Call(NewSends(v.social.log, r.state.log), r.threw);
    v.(social := r.state, events := v.events + [e], calls := v.calls[t := call])
  }

  function DoRequest(v: Server, t: Thread, uks: seq<string>, aks: seq<string>, now: int): Server
    requires CanRequest(v, t, uks, aks, now)
  {
    Answered(v, t, Completed(v, t, uks, aks, now)).(engine := E.DoDecode(v.engine, t))
  }

  predicate IsConn(v: Server, conn: int) { 0 <= conn < |v.engine.net.chans| }

  /** `connections.send` finds no handler for the connection and does nothing. */
  predicate CanDrop(v: Server, t: Thread) {
    && t < |v.calls| && v.calls[t].outgoing != [] && !IsConn(v, v.calls[t].outgoing[0].conn)
    && E.QuietSender(v.engine, t)
  }

  function DoDrop(v: Server, t: Thread): Server
    requires CanDrop(v, t)
  {
    v.(calls := v.calls[t := Tail(v.calls[t])], dropped := v.dropped + [v.calls[t].outgoing[0]])
  }

  /** A worker sends the next message of its call, and ends the call when none is left, as the call ends. */
  predicate Follows(v: Server, x: E.Action) {
    match x
    case Decode(t) => E.CanDecode(v.engine, t) && EW.NextByte(v.engine, t) != END
    case EndProcess(t) => t < |v.calls| && v.calls[t] == Call([], false)
    case Throw(t) => t < |v.calls| && v.calls[t] == Call([], true)
    case NetStep(BeginSend(w, c, m)) =>
      && w < |v.calls| && v.calls[w].outgoing != []
      && v.calls[w].outgoing[0].conn == c && m == CD.Encode(v.calls[w].outgoing[0].msg)
    case NetStep(AddBuffer(w)) => w < |v.calls| && v.calls[w].outgoing != []
    case _ => true
  }

  predicate CanStep(v: Server, x: E.Action) { E.Enabled(v.engine, x) && Follows(v, x) }

  predicate Adds(x: E.Action) { x.NetStep? && x.n.AddBuffer? }

  function DoStep(v: Server, x: E.Action): Server
    requires CanStep(v, x)
  {
    var v1 := v.(engine := E.Apply(v.engine, x));
    if Adds(x) then
      var w := x.n.worker;
      var c := v.engine.net.senders[w].conn;
      v1.(calls := v.calls[w := Tail(v.calls[w])], queued := v.queued[c := Queued(v, c) + [v.calls[w].outgoing[0].msg]])
    else v1
  }

  predicate Enabled(v: Server, x: Action) {
    match x
    case Request(t, uks, aks, now) => CanRequest(v, t, uks, aks, now)
    case Drop(t) => CanDrop(v, t)
    case Step(y) => CanStep(v, y)
  }

  function Apply(v: Server, x: Action): Server
    requires Enabled(v, x)
  {
    match x
    case Request(t, uks, aks, now) => DoRequest(v, t, uks, aks, now)
    case Drop(t) => DoDrop(v, t)
    case Step(y) => DoStep(v, y)
  }

  predicate CanRun(v: Server, xs: seq<Action>)
    decreases |xs|
  {
    xs == [] || (Enabled(v, xs[0]) && CanRun(Apply(v, xs[0]), xs[1..]))
  }

  function RunAll(v: Server, xs: seq<Action>): Server
    requires CanRun(v, xs)
    decreases |xs|
  {
    if xs == [] then v else RunAll(Apply(v, xs[0]), xs[1..])
  }
}
