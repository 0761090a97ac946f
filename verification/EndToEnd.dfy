/** Client to server and back through the whole reactor: typed commands arrive as the requests they mean,
    and queued messages arrive as what the client should show, under every chunking, interleaving and
    partial write. */
module EndToEnd {
  import opened Framing
  import opened ServerMessages
  import opened ReactorEngine
  import opened EngineRuns
  import Cmd = ClientEncoder
  import CS = ClientStream
  import Q = WriteQueue
  import NI = WriteInvariant

  // ---------------------------------------------------------------- requests

  lemma {:induction false} ParsePrefix(ms: seq<Bytes>, ns: seq<Bytes>)
    requires ms <= ns
    ensures Cmd.ParseAll(ms) <= Cmd.ParseAll(ns)
    decreases |ns|
  {
    if |ms| < |ns| {
      ParsePrefix(ms, ns[..|ns| - 1]);
    } else {
      assert ms == ns;
    }
  }

  /** While the bytes of some typed commands are arriving on `c`, the requests that process has seen are a
      prefix of the commands' meanings; once all bytes have arrived and all tasks have ended, they are all
      of them and nothing is left in the decoder. */
  lemma CommandsArrive(e: Engine, c: ConnId, cs: seq<Cmd.Command>)
    requires Reachable(e) && c !in e.lossy && Cmd.AllWellFormed(cs)
    requires Stream(e, c) <= Cmd.EncodeAll(cs)
    ensures Cmd.ParseAll(Processed(e, c)) <= Cmd.Somes(Cmd.MeaningsOf(cs))
    ensures Settled(e, c) && Stream(e, c) == Cmd.EncodeAll(cs) ==>
              Cmd.ParseAll(Processed(e, c)) == Cmd.Somes(Cmd.MeaningsOf(cs)) && Decoder(e, c) == []
  {
    ProcessedIsPrefix(e, c);
    FramesOfPrefix(Stream(e, c), Cmd.EncodeAll(cs));
    ParsePrefix(Processed(e, c), Frames(Cmd.EncodeAll(cs)));
    Cmd.CommandRoundTrip(cs);
    if Settled(e, c) { ProcessedIsAll(e, c); }
  }

  // ---------------------------------------------------------------- replies

  lemma {:induction false} ConcatCons(w: Bytes, ws: seq<Bytes>)
    ensures Q.Concat([w] + ws) == w + Q.Concat(ws)
    decreases |ws|
  {
    if ws == [] {
      assert ([w] + ws)[..0] == [];
    } else {
      ConcatCons(w, ws[..|ws| - 1]);
      assert ([w] + ws)[..|ws|] == [w] + ws[..|ws| - 1];
    }
  }

  lemma {:induction false} ConcatIsCat(ps: seq<Bytes>)
    ensures Q.Concat(ps) == CS.Cat(ps)
  {
    if ps != [] {
      ConcatIsCat(ps[1..]);
      ConcatCons(ps[0], ps[1..]);
      assert ps == [ps[0]] + ps[1..];
    }
  }

  /** The channel has taken a prefix of its messages, and all of them once its queue is empty. */
  lemma WroteIsPrefix(e: Engine, c: ConnId)
    requires Reachable(e) && c < |e.net.chans|
    ensures var ch := e.net.chans[c];
            ch.wrote <= Q.Concat(Q.Messages(ch.bufs)) && (ch.queue == [] ==> ch.wrote == Q.Concat(Q.Messages(ch.bufs)))
  {
    ReachableInv(e);
    var ch := e.net.chans[c];
    assert NI.ChanOk(e.net, c);
    Q.NothingLost(ch.bufs, NI.Head(ch));
    if ch.queue == [] { Q.NothingLeft(ch.bufs); }
  }

  lemma PrefixShows(wrote: Bytes, ms: seq<ServerMessage>)
    requires wrote <= CS.EncodeAll(ms) && CS.AllSafe(ms)
    ensures var read := CS.Read(wrote);
            && !read.crashed && read.shown == CS.Images(ms)[..CS.Complete(CS.Encoded(ms), |wrote|)]
            && (wrote == CS.EncodeAll(ms) ==> read.shown == CS.Images(ms) && read.held == [])
  {
    assert wrote == CS.EncodeAll(ms)[..|wrote|];
    CS.ShowsWhatIsComplete(ms, |wrote|);
    CS.InStep(ms);
  }

  /** If the messages enqueued on `c` are encodings of messages the client can read, then at every moment
      the client has shown exactly those that were completely written, in order; and all of them once the
      write queue is empty. */
  lemma RepliesArrive(e: Engine, c: ConnId, ms: seq<ServerMessage>)
    requires Reachable(e) && c < |e.net.chans|
    requires Q.Messages(e.net.chans[c].bufs) == CS.Encoded(ms) && CS.AllSafe(ms)
    ensures var read := CS.Read(e.net.chans[c].wrote);
            && !read.crashed
            && read.shown == CS.Images(ms)[..CS.Complete(CS.Encoded(ms), |e.net.chans[c].wrote|)]
            && (e.net.chans[c].queue == [] ==> read.shown == CS.Images(ms) && read.held == [])
  {
    WroteIsPrefix(e, c);
    ConcatIsCat(CS.Encoded(ms));
    PrefixShows(e.net.chans[c].wrote, ms);
  }
}
