/** Runs of the whole reactor, in every interleaving of the selector thread and the workers, with every
    chunking of the input: the end-to-end claims. */
module EngineRuns {
  import opened Options
  import opened Framing
  import opened ReactorEngine
  import opened EngineInvariant
  import opened EngineWorkers
  import P = ActorPool
  import PR = PoolRuns
  import PO = PoolObservations
  import W = WriteRuns
  import WI = WriteInvariant

  function Init(workers: nat): Engine {
    Engine(PR.Init(1, workers + 1), W.Init(workers + 1), seq(workers + 1, _ => Off), Empty, [],
                  multiset{}, map[], map[], map[], map[], {}, [])
  }

  predicate CanRun(e: Engine, xs: seq<Action>)
    decreases |xs|
  {
    xs == [] || (Enabled(e, xs[0]) && CanRun(Apply(e, xs[0]), xs[1..]))
  }

  function RunAll(e: Engine, xs: seq<Action>): Engine
    requires CanRun(e, xs)
    decreases |xs|
  {
    if xs == [] then e else RunAll(Apply(e, xs[0]), xs[1..])
  }

  lemma InitInv(workers: nat)
    ensures Inv(Init(workers))
  {
    var e := Init(workers);
    PR.InitInv<ReadTask>(1, workers + 1);
    W.InitRunInv(workers + 1, []);
    forall c: ConnId ensures ConnOk(e, c) { assert Consumed(e, c) == []; }
    forall c: ConnId, k: nat ensures TaskOk(e, c, k) { }
    forall b: BufferId ensures BufferOk(e, b) { }
  }

  lemma {:induction false} RunInv(e: Engine, xs: seq<Action>)
    requires Inv(e) && CanRun(e, xs)
    ensures Inv(RunAll(e, xs))
    decreases |xs|
  {
    if xs != [] {
      StepInv(e, xs[0]);
      RunInv(Apply(e, xs[0]), xs[1..]);
    }
  }

  ghost predicate Reachable(e: Engine) {
    exists workers: nat, xs :: CanRun(Init(workers), xs) && e == RunAll(Init(workers), xs)
  }

  lemma ReachableInv(e: Engine)
    requires Reachable(e)
    ensures Inv(e)
  {
    var workers: nat, xs :| CanRun(Init(workers), xs) && e == RunAll(Init(workers), xs);
    InitInv(workers);
    RunInv(Init(workers), xs);
  }

  /** Every chunk read from `c` has been submitted and its task has ended. */
  predicate Settled(e: Engine, c: ConnId) {
    && P.Submitted(e.pool, c) == P.Finished(e.pool, c)
    && InHand(e, c) == []
  }

  lemma {:induction false} ChunksSplit(ts: seq<ReadTask>, k: nat)
    requires k <= |ts|
    ensures Chunks(ts[..k]) <= Chunks(ts)
    ensures k < |ts| ==> Chunks(ts[..k]) + ts[k].chunk <= Chunks(ts)
  {
    if k < |ts| {
      ChunksSplit(ts[..|ts| - 1], if k < |ts| - 1 then k else |ts| - 1);
      assert ts[..|ts| - 1][..k] == ts[..k];
    } else {
      assert ts[..k] == ts;
    }
  }

  /** The bytes consumed are a prefix of the bytes read. */
  lemma ConsumedIsRead(e: Engine, c: ConnId)
    requires Inv(e)
    ensures Consumed(e, c) <= Stream(e, c)
  {
    var done, all := P.Finished(e.pool, c), P.Submitted(e.pool, c);
    assert ConnOk(e, c);
    PO.FinishedAreSubmitted(e.pool, c);
    ChunksSplit(all, |done|);
    if PO.Runner(e.pool, c).Some? {
      RunningBuffer(e, c);
      assert Partial(e, c) <= all[|done|].chunk;
    }
  }

  /** Whatever the chunking and the interleaving, the messages given to process are a prefix, in order,
      of the frames of the bytes read so far - unless an exception lost bytes of this connection. */
  lemma ProcessedIsPrefix(e: Engine, c: ConnId)
    requires Reachable(e) && c !in e.lossy
    ensures Processed(e, c) <= Frames(Stream(e, c))
  {
    ReachableInv(e);
    ConsumedIsRead(e, c);
    assert ConnOk(e, c);
    FramesOfPrefix(Consumed(e, c), Stream(e, c));
  }

  /** ... and once no chunk of the connection is outstanding they are exactly its complete frames, and
      the decoder holds exactly the incomplete rest. */
  lemma ProcessedIsAll(e: Engine, c: ConnId)
    requires Reachable(e) && c !in e.lossy && Settled(e, c)
    ensures Processed(e, c) == Frames(Stream(e, c))
    ensures Decoder(e, c) == Rest(Stream(e, c))
  {
    ReachableInv(e);
    assert ConnOk(e, c);
    assert PO.Runner(e.pool, c) == None by {
      if PO.Runner(e.pool, c).Some? { RunningBuffer(e, c); }
    }
    assert Consumed(e, c) == Stream(e, c);
  }

  /** Whatever throws, process is only ever given the frames of the bytes that were decoded. */
  lemma ProcessedIsFed(e: Engine, c: ConnId)
    requires Reachable(e)
    ensures Processed(e, c) == Frames(Fed(e, c)) && Decoder(e, c) == Rest(Fed(e, c))
    ensures |Fed(e, c)| <= |Stream(e, c)|
  {
    ReachableInv(e);
    ConsumedIsRead(e, c);
    assert ConnOk(e, c);
  }

  /** A settled connection has processed exactly its frames and holds exactly the incomplete rest if and
      only if no exception made a task drop the rest of its chunk. */
  lemma ProcessedIsAllIff(e: Engine, c: ConnId)
    requires Reachable(e) && Settled(e, c)
    ensures Processed(e, c) == Frames(Stream(e, c)) && Decoder(e, c) == Rest(Stream(e, c)) <==> c !in e.lossy
  {
    if c !in e.lossy {
      ProcessedIsAll(e, c);
    } else {
      ReachableInv(e);
      ConsumedIsRead(e, c);
      assert ConnOk(e, c);
      FramesPartition(Fed(e, c));
      FramesPartition(Stream(e, c));
    }
  }

  /** Where a buffer can be. */
  datatype Location = InPool | AtSelector | InTask(conn: ConnId, index: nat)

  ghost predicate Located(e: Engine, b: BufferId, l: Location) {
    match l
    case InPool => b in e.free
    case AtSelector => Holding(e) == [b]
    case InTask(c, k) => Outstanding(e, c, k) && P.Submitted(e.pool, c)[k].buffer == b
  }

  /** Every allocated buffer is in exactly one place: once in the pool, with the selector, or in one
      outstanding task. */
  lemma OneOwner(e: Engine, b: BufferId)
    requires Reachable(e) && b < |e.buffers|
    ensures exists l :: Located(e, b, l)
    ensures forall l, l' :: Located(e, b, l) && Located(e, b, l') ==> l == l'
    ensures e.free[b] <= 1
  {
    ReachableInv(e);
    assert BufferOk(e, b);
    var l := match e.owner[b]
      case Pooled => InPool
      case Held => AtSelector
      case Lent(c, k) => InTask(c, k);
    assert Located(e, b, l);
    forall l' | Located(e, b, l') ensures l' == l {
      if l'.InTask? { assert TaskOk(e, l'.conn, l'.index); }
    }
  }

  /** From the read to the end of the task that decodes it, a chunk stays as it was read. */
  lemma ChunkUntouched(e: Engine, c: ConnId, k: nat)
    requires Reachable(e) && Outstanding(e, c, k)
    ensures var task := P.Submitted(e.pool, c)[k];
            task.buffer < |e.buffers| && e.buffers[task.buffer].data == task.chunk
  {
    ReachableInv(e);
    assert TaskOk(e, c, k);
  }

  /** A buffer is given back once per lease: it is never in the pool when it is released. */
  lemma ReleasedOnce(e: Engine, x: Action, b: BufferId)
    requires Reachable(e) && Enabled(e, x) && (x.Release? || x.Eof?) && Apply(e, x).free[b] != e.free[b]
    ensures e.free[b] == 0 && Apply(e, x).free[b] == 1
  {
    ReachableInv(e);
    assert BufferOk(e, b);
    StepInv(e, x);
    assert BufferOk(Apply(e, x), b);
  }

  /** The write side keeps its promises inside the whole reactor too. */
  lemma NoWriteForgotten(e: Engine, c: ConnId)
    requires Reachable(e) && c < |e.net.chans| && e.net.chans[c].open && e.net.chans[c].queue != []
    ensures e.net.chans[c].writeInterest || WI.Promised(e.net, c)
    ensures e.net.sel.Selecting? && e.net.tasks != [] ==> WI.WakeComing(e.net)
  {
    ReachableInv(e);
    assert WI.ChanOk(e.net, c);
  }
}
