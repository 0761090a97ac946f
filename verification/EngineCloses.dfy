/** The end of a connection: a channel is closed by reading the end of its stream, by nothing else, and for ever; a
    closed channel is neither read nor written any more. */
module EngineCloses {
  import opened ReactorEngine
  import opened EngineInvariant
  import opened EngineRuns
  import N = ReactorWrites

  predicate OpenIn(n: N.Net, c: ConnId) { c < |n.chans| && n.chans[c].open }

  predicate ClosedIn(n: N.Net, c: ConnId) { c < |n.chans| && !n.chans[c].open }

  predicate Closed(e: Engine, c: ConnId) { ClosedIn(e.net, c) }

  // ---------------------------------------------------------------- the channel at work is open

  /** The channel the selector works on is open, unless its key has just been read to the end. */
  predicate NetAtWork(n: N.Net, done: bool) {
    match n.sel
    case Reading(key, _) => key.Channel? && (done || OpenIn(n, key.conn))
    case Looping(c, _) => OpenIn(n, c)
    case Peeking(c, _) => OpenIn(n, c)
    case Writing(c, _, _) => OpenIn(n, c)
    case Testing(c, _, _) => OpenIn(n, c)
    case Removing(c, _, _) => OpenIn(n, c)
    case Rechecking(c, _) => OpenIn(n, c)
    case Clearing(c, _) => OpenIn(n, c)
    case _ => true
  }

  predicate AtWork(e: Engine) { NetAtWork(e.net, e.hand.Finished?) }

  lemma NetKeepsWork(n: N.Net, x: N.Action, done: bool)
    requires NetAtWork(n, done) && N.Enabled(n, x) && !x.EndOfStream? && !x.FinishRead?
    ensures NetAtWork(N.Apply(n, x), done)
  {
  }

  lemma ReadKeepsWork(n: N.Net, done: bool)
    requires NetAtWork(n, done) && N.CanFinishRead(n)
    ensures NetAtWork(N.DoFinishRead(n), false)
  {
  }

  lemma StepAtWork(e: Engine, x: Action)
    requires AtWork(e) && Enabled(e, x)
    ensures AtWork(Apply(e, x))
  {
    match x
    case NetStep(n) => NetKeepsWork(e.net, n, e.hand.Finished?);
    case FinishRead => ReadKeepsWork(e.net, e.hand.Finished?);
    case _ =>
  }

  lemma {:induction false} RunAtWork(e: Engine, xs: seq<Action>)
    requires AtWork(e) && CanRun(e, xs)
    ensures AtWork(RunAll(e, xs))
    decreases |xs|
  {
    if xs != [] {
      StepAtWork(e, xs[0]);
      RunAtWork(Apply(e, xs[0]), xs[1..]);
    }
  }

  lemma ReachableAtWork(e: Engine)
    requires Reachable(e)
    ensures AtWork(e)
  {
    var workers: nat, xs :| CanRun(Init(workers), xs) && e == RunAll(Init(workers), xs);
    RunAtWork(Init(workers), xs);
  }

  // ---------------------------------------------------------------- one step

  /** The step reads the end of the stream of `c`. */
  predicate EndsStream(e: Engine, x: Action, c: ConnId) {
    x.Eof? && e.net.sel.Reading? && e.net.sel.key.Channel? && e.net.sel.key.conn == c
  }

  /** The end of the stream closes the open channel of the key, changes no other channel, and gives the leased buffer
      back to the pool. */
  lemma EofCloses(e: Engine)
    requires Reachable(e) && Enabled(e, Eof)
    ensures var e', c, b := Apply(e, Eof), e.net.sel.key.conn, e.hand.buffer;
            && OpenIn(e.net, c) && Closed(e', c)
            && e'.net == e.net.(chans := e.net.chans[c := e.net.chans[c].(open := false)])
            && e.free[b] == 0 && e'.free == e.free + multiset{b} && e'.hand == Finished
  {
    ReachableInv(e);
    ReachableAtWork(e);
    assert BufferOk(e, e.hand.buffer);
  }

  /** A read may always report the end of the stream. */
  lemma EofEnabled(e: Engine)
    requires Reachable(e) && InRead(e) && e.hand.Leased?
    ensures Enabled(e, Eof)
  {
    ReachableInv(e);
    assert Holding(e) == [e.hand.buffer];
    assert BufferOk(e, e.hand.buffer);
  }

  predicate IsStep(e: Engine, x: Action, e': Engine) { Enabled(e, x) && e' == Apply(e, x) }

  /** The channels there were are as open as before, and new ones are open. */
  predicate SameOpen(n: N.Net, m: N.Net) {
    |n.chans| <= |m.chans| && forall c :: 0 <= c < |m.chans| ==> m.chans[c].open == (c < |n.chans| ==> n.chans[c].open)
  }

  lemma NetOpen(n: N.Net, x: N.Action)
    requires N.Enabled(n, x) && !x.EndOfStream?
    ensures SameOpen(n, N.Apply(n, x))
  {
  }

  /** The steps that leave the write side alone. */
  lemma NetSame(e: Engine, x: Action, e': Engine)
    requires IsStep(e, x, e') && !x.NetStep? && !x.Eof? && !x.FinishRead?
    ensures e'.net == e.net
  {
  }

  lemma StepOpen(e: Engine, x: Action, e': Engine)
    requires IsStep(e, x, e') && !x.Eof?
    ensures SameOpen(e.net, e'.net)
  {
    match x
    case NetStep(n) => NetOpen(e.net, n);
    case FinishRead =>
    case _ => NetSame(e, x, e');
  }

  /** A connection starts open, and one step takes it from open to closed exactly if it reads the end of its stream. */
  lemma StepCloses(e: Engine, x: Action, e': Engine, c: ConnId)
    requires IsStep(e, x, e')
    ensures |e.net.chans| <= |e'.net.chans|
    ensures Closed(e', c) <==> Closed(e, c) || EndsStream(e, x, c)
  {
    if !x.Eof? { StepOpen(e, x, e'); }
  }

  // ---------------------------------------------------------------- whole runs

  /** The run reads the end of the stream of `c` at some point. */
  predicate EverEnds(e: Engine, xs: seq<Action>, c: ConnId)
    requires CanRun(e, xs)
    decreases |xs|
  {
    xs != [] && (EndsStream(e, xs[0], c) || EverEnds(Apply(e, xs[0]), xs[1..], c))
  }

  lemma {:induction false} ClosedAfter(e: Engine, xs: seq<Action>, c: ConnId)
    requires CanRun(e, xs)
    ensures Closed(RunAll(e, xs), c) <==> Closed(e, c) || EverEnds(e, xs, c)
    decreases |xs|
  {
    if xs != [] {
      var e' := Apply(e, xs[0]);
      StepCloses(e, xs[0], e', c);
      ClosedAfter(e', xs[1..], c);
    }
  }

  /** Over every run, a connection is closed if and only if the end of its stream was read. */
  lemma ClosedIff(workers: nat, xs: seq<Action>, c: ConnId)
    requires CanRun(Init(workers), xs)
    ensures Closed(RunAll(Init(workers), xs), c) <==> EverEnds(Init(workers), xs, c)
  {
    ClosedAfter(Init(workers), xs, c);
  }

  // ---------------------------------------------------------------- a closed channel is silent

  lemma NetSilent(n: N.Net, x: N.Action, m: N.Net, c: ConnId, done: bool)
    requires NetAtWork(n, done) && N.Enabled(n, x) && m == N.Apply(n, x) && !x.EndOfStream? && ClosedIn(n, c)
    ensures ClosedIn(m, c) && m.chans[c].wrote == n.chans[c].wrote
  {
  }

  lemma StepWrote(e: Engine, x: Action, e': Engine, c: ConnId)
    requires AtWork(e) && IsStep(e, x, e') && Closed(e, c)
    ensures Closed(e', c) && e'.net.chans[c].wrote == e.net.chans[c].wrote
  {
    match x
    case NetStep(n) => NetSilent(e.net, n, e'.net, c, e.hand.Finished?);
    case FinishRead =>
    case Eof =>
    case _ => NetSame(e, x, e');
  }

  lemma StepRead(e: Engine, x: Action, e': Engine, c: ConnId)
    requires AtWork(e) && IsStep(e, x, e') && Closed(e, c)
    ensures Stream(e', c) == Stream(e, c)
  {
  }

  lemma {:induction false} RunSilent(e: Engine, xs: seq<Action>, c: ConnId)
    requires AtWork(e) && CanRun(e, xs) && Closed(e, c)
    ensures var t := RunAll(e, xs);
            Closed(t, c) && t.net.chans[c].wrote == e.net.chans[c].wrote && Stream(t, c) == Stream(e, c)
    decreases |xs|
  {
    if xs != [] {
      var e' := Apply(e, xs[0]);
      StepAtWork(e, xs[0]);
      StepWrote(e, xs[0], e', c);
      StepRead(e, xs[0], e', c);
      RunSilent(e', xs[1..], c);
    }
  }

  /** After the end of its stream a connection stays closed, and not one byte is read from it or written to it. */
  lemma ClosedIsSilent(e: Engine, xs: seq<Action>, c: ConnId)
    requires Reachable(e) && CanRun(e, xs) && Closed(e, c)
    ensures var t := RunAll(e, xs);
            Closed(t, c) && t.net.chans[c].wrote == e.net.chans[c].wrote && Stream(t, c) == Stream(e, c)
  {
    ReachableAtWork(e);
    RunSilent(e, xs, c);
  }
}
