/** The steps of the workers keep the invariant of the reactor. */
module EngineWorkers {
  import opened Options
  import opened Framing
  import opened ReactorEngine
  import opened EngineInvariant
  import P = ActorPool
  import PI = PoolInvariant
  import PO = PoolObservations

  /** Only the job of thread `t` changes, and it neither starts nor gives its buffer back. */
  ghost predicate JobMoves(e: Engine, e': Engine, t: Thread) {
    && t < |e.jobs| && e' == e.(jobs := e'.jobs, lossy := e'.lossy)
    && |e'.jobs| == |e.jobs|
    && (forall z :: 0 <= z < |e.jobs| && z != t ==> e'.jobs[z] == e.jobs[z])
    && !e.jobs[t].Off? && !e'.jobs[t].Off? && !e.jobs[t].Released? && !e'.jobs[t].Released?
    && (!e'.jobs[t].Processing? ==> QuietSender(e, t))
  }

  lemma JobKept(e: Engine, e': Engine, t: Thread)
    requires Inv(e) && JobMoves(e, e', t)
    ensures forall z: Thread :: ThreadOk(e', z)
    ensures forall b: BufferId :: BufferOk(e', b)
    ensures forall c: ConnId, k: nat :: TaskOk(e', c, k)
  {
    forall z: Thread ensures ThreadOk(e', z) { assert ThreadOk(e, z); }
    forall b: BufferId ensures BufferOk(e', b) { assert BufferOk(e, b); }
    forall c: ConnId, k: nat ensures TaskOk(e', c, k) { assert TaskOk(e, c, k); }
  }

  lemma JobConns(e: Engine, e': Engine, t: Thread)
    requires Inv(e) && JobMoves(e, e', t)
    requires e'.lossy == e.lossy && forall c: ConnId :: Consumed(e', c) == Consumed(e, c)
    ensures forall c: ConnId :: ConnOk(e', c)
  {
    forall c: ConnId ensures ConnOk(e', c) {
      assert ConnOk(e, c);
      ConnKept(e, e', c);
    }
  }

  lemma StepEndProcess(e: Engine, t: Thread)
    requires Inv(e) && CanEndProcess(e, t)
    ensures Inv(DoEndProcess(e, t))
  {
    JobKept(e, DoEndProcess(e, t), t);
    JobConns(e, DoEndProcess(e, t), t);
  }

  /** Only the runner's own connection looks at the job of thread t. */
  lemma OtherRunners(e: Engine, e': Engine, t: Thread, c: ConnId)
    requires Inv(e) && JobMoves(e, e', t) && HasRunning(e, t) && c != e.pool.pcs[t].act
    ensures Consumed(e', c) == Consumed(e, c)
  {
    if PO.Runner(e.pool, c).Some? { PO.RunnerRuns(e.pool, c); }
  }

  predicate HasRunning(e: Engine, t: Thread) { t < |e.pool.pcs| && e.pool.pcs[t].Running? }

  /** The rest of the chunk counts as consumed although the decoder never saw it. */
  lemma ThrowConsumed(e: Engine, t: Thread)
    requires Inv(e) && CanThrow(e, t)
    ensures var c, b := e.pool.pcs[t].act, e.buffers[e.pool.pcs[t].task.buffer];
            b.pos <= |b.data| && Consumed(DoThrow(e, t), c) == Consumed(e, c) + b.data[b.pos..]
  {
    var c, b := e.pool.pcs[t].act, e.buffers[e.pool.pcs[t].task.buffer];
    PO.RunningTask(e.pool, t);
    RunningBuffer(e, c);
    WholeChunk(e, DoThrow(e, t), t, c, b);
    JoinRight(Chunks(P.Finished(e.pool, c)), Front(b), b.data[b.pos..]);
  }

  /** The runner is done with its chunk: instead of the part before the position, all of it counts. */
  lemma WholeChunk(e: Engine, e': Engine, t: Thread, c: ConnId, b: ReadBuffer)
    requires PO.Runner(e.pool, c) == Some(t) && HasRunning(e, t) && t < |e.jobs| && !e.jobs[t].Releasing?
             && !e.jobs[t].Released?
    requires e.pool.pcs[t].task.buffer < |e.buffers| && b == e.buffers[e.pool.pcs[t].task.buffer]
    requires e'.pool == e.pool && |e'.jobs| == |e.jobs| && e'.jobs[t].Releasing?
    requires b.data == e.pool.pcs[t].task.chunk && b.pos <= |b.data|
    ensures Partial(e, c) == Front(b) && Partial(e', c) == Front(b) + b.data[b.pos..]
  {
    RunnerPartial(e, t, c);
    RunnerChunk(e', t, c);
    assert b.data == Front(b) + b.data[b.pos..];
  }

  lemma JoinRight(a: Bytes, b: Bytes, c: Bytes)
    ensures a + (b + c) == a + b + c
  {
  }

  /** The runner's part of a connection after the chunk: all of it. */
  lemma RunnerChunk(e: Engine, t: Thread, c: ConnId)
    requires PO.Runner(e.pool, c) == Some(t) && HasRunning(e, t)
    requires t < |e.jobs| && (e.jobs[t].Releasing? || e.jobs[t].Released?)
    ensures Partial(e, c) == e.pool.pcs[t].task.chunk
  {
  }

  lemma ThrowConn(e: Engine, t: Thread, c: ConnId)
    requires Inv(e) && CanThrow(e, t)
    ensures ConnOk(DoThrow(e, t), c)
  {
    var e' := DoThrow(e, t);
    assert ConnOk(e, c);
    if c == e.pool.pcs[t].act {
      ThrowConsumed(e, t);
    } else {
      OtherRunners(e, e', t, c);
      ConnKept(e, e', c);
    }
  }

  lemma StepThrow(e: Engine, t: Thread)
    requires Inv(e) && CanThrow(e, t)
    ensures Inv(DoThrow(e, t))
  {
    var e' := DoThrow(e, t);
    JobKept(e, e', t);
    forall c: ConnId ensures ConnOk(e', c) { ThrowConn(e, t, c); }
  }

  lemma EndChunkConsumed(e: Engine, t: Thread, c: ConnId)
    requires Inv(e) && CanEndChunk(e, t)
    ensures Consumed(DoEndChunk(e, t), c) == Consumed(e, c)
  {
    var e' := DoEndChunk(e, t);
    var task := e.pool.pcs[t].task;
    PO.RunningTask(e.pool, t);
    RunningBuffer(e, e.pool.pcs[t].act);
    if c == e.pool.pcs[t].act {
      assert Front(e.buffers[task.buffer]) == task.chunk;
    } else if PO.Runner(e.pool, c).Some? {
      PO.RunnerRuns(e.pool, c);
    }
  }

  lemma StepEndChunk(e: Engine, t: Thread)
    requires Inv(e) && CanEndChunk(e, t)
    ensures Inv(DoEndChunk(e, t))
  {
    var e' := DoEndChunk(e, t);
    assert ThreadOk(e, t);
    JobKept(e, e', t);
    forall c: ConnId ensures Consumed(e', c) == Consumed(e, c) { EndChunkConsumed(e, t, c); }
    JobConns(e, e', t);
  }

  // ---------------------------------------------------------------- decoding a byte

  function NextByte(e: Engine, t: Thread): char
    requires CanDecode(e, t)
  {
    var b := e.buffers[e.pool.pcs[t].task.buffer];
    b.data[b.pos]
  }

  lemma FrontMore(b: ReadBuffer)
    requires b.pos < |b.data|
    ensures Front(b.(pos := b.pos + 1)) == Front(b) + [b.data[b.pos]]
  {
  }

  /** The runner's part of a connection, while it decodes or processes. */
  lemma RunnerPartial(e: Engine, t: Thread, c: ConnId)
    requires PO.Runner(e.pool, c) == Some(t) && HasRunning(e, t)
    requires t < |e.jobs| && !e.jobs[t].Releasing? && !e.jobs[t].Released?
    requires e.pool.pcs[t].task.buffer < |e.buffers|
    ensures Partial(e, c) == Front(e.buffers[e.pool.pcs[t].task.buffer])
  {
  }

  lemma DecodePartial(e: Engine, t: Thread)
    requires PI.Inv(e.pool) && CanDecode(e, t)
    ensures Partial(DoDecode(e, t), e.pool.pcs[t].act) == Partial(e, e.pool.pcs[t].act) + [NextByte(e, t)]
  {
    var c := e.pool.pcs[t].act;
    PO.RunningTask(e.pool, t);
    RunnerPartial(e, t, c);
    RunnerPartial(DoDecode(e, t), t, c);
    FrontMore(e.buffers[e.pool.pcs[t].task.buffer]);
  }

  lemma DecodeOthers(e: Engine, t: Thread, c: ConnId)
    requires Inv(e) && CanDecode(e, t) && c != e.pool.pcs[t].act
    ensures Partial(DoDecode(e, t), c) == Partial(e, c)
  {
    PO.RunningTask(e.pool, t);
    RunningBuffer(e, e.pool.pcs[t].act);
    if PO.Runner(e.pool, c).Some? { RunningBuffer(e, c); }
  }

  lemma DecodeInput(e: Engine, t: Thread, c: ConnId)
    requires CanDecode(e, t)
    ensures Stream(DoDecode(e, t), c) == Stream(e, c) && InHand(DoDecode(e, t), c) == InHand(e, c)
  {
  }

  /** One byte more for the decoder, and the messages it yields. */
  lemma FeedByte(s: Bytes, next: char, decoder: Bytes, messages: seq<Bytes>)
    requires messages == Frames(s) && decoder == Rest(s)
    ensures Frames(s + [next]) == messages + if next == END then [decoder] else []
    ensures Rest(s + [next]) == if next == END then [] else decoder + [next]
  {
    FramesSnoc(s, next);
  }

  /** What the decoder gets, gives and keeps. */
  lemma DecodeEffect(e: Engine, t: Thread, c: ConnId)
    requires CanDecode(e, t) && c == e.pool.pcs[t].act
    ensures var e', next := DoDecode(e, t), NextByte(e, t);
            && Fed(e', c) == Fed(e, c) + [next] && (c in e'.lossy <==> c in e.lossy)
            && Processed(e', c) == Processed(e, c) + (if next == END then [Decoder(e, c)] else [])
            && Decoder(e', c) == if next == END then [] else Decoder(e, c) + [next]
  {
  }

  lemma DecodeConsumed(e: Engine, t: Thread, c: ConnId)
    requires PI.Inv(e.pool) && CanDecode(e, t) && c == e.pool.pcs[t].act
    ensures Consumed(DoDecode(e, t), c) == Consumed(e, c) + [NextByte(e, t)]
  {
    DecodePartial(e, t);
    SnocRight(Chunks(P.Finished(e.pool, c)), Partial(e, c), NextByte(e, t));
  }

  lemma SnocRight(a: Bytes, b: Bytes, next: char)
    ensures a + (b + [next]) == a + b + [next]
  {
  }

  lemma DecodeOwn(e: Engine, t: Thread, c: ConnId)
    requires Inv(e) && CanDecode(e, t) && c == e.pool.pcs[t].act
    ensures var e' := DoDecode(e, t);
            Processed(e', c) == Frames(Fed(e', c)) && Decoder(e', c) == Rest(Fed(e', c)) && FedOk(e', c)
  {
    assert ConnOk(e, c);
    DecodeEffect(e, t, c);
    DecodeConsumed(e, t, c);
    FeedByte(Fed(e, c), NextByte(e, t), Decoder(e, c), Processed(e, c));
  }

  lemma DecodeConn(e: Engine, t: Thread, c: ConnId)
    requires Inv(e) && CanDecode(e, t)
    ensures ConnOk(DoDecode(e, t), c)
  {
    assert ConnOk(e, c);
    DecodeInput(e, t, c);
    if c == e.pool.pcs[t].act {
      DecodeOwn(e, t, c);
    } else {
      DecodeOthers(e, t, c);
      ConnKept(e, DoDecode(e, t), c);
    }
  }

  lemma DecodeTasks(e: Engine, t: Thread, c: ConnId, k: nat)
    requires Inv(e) && CanDecode(e, t)
    ensures TaskOk(DoDecode(e, t), c, k)
  {
    PO.RunningTask(e.pool, t);
    RunningBuffer(e, e.pool.pcs[t].act);
    assert TaskOk(e, c, k);
  }

  lemma DecodeBuffers(e: Engine, t: Thread, b: BufferId)
    requires Inv(e) && CanDecode(e, t)
    ensures BufferOk(DoDecode(e, t), b)
  {
    assert BufferOk(e, b);
    if b < |e.owner| && e.owner[b].Lent? && PO.Runner(e.pool, e.owner[b].conn).Some? {
      PO.RunnerRuns(e.pool, e.owner[b].conn);
    }
  }

  lemma DecodeShape(e: Engine, t: Thread)
    requires Inv(e) && CanDecode(e, t)
    ensures Shape(DoDecode(e, t)) && HandOk(DoDecode(e, t))
    ensures forall z: Thread :: ThreadOk(DoDecode(e, t), z)
  {
    var e' := DoDecode(e, t);
    PO.RunningTask(e.pool, t);
    RunningBuffer(e, e.pool.pcs[t].act);
    assert BufferOk(e, e.pool.pcs[t].task.buffer);
    forall z: Thread ensures ThreadOk(e', z) { assert ThreadOk(e, z); }
  }

  lemma StepDecode(e: Engine, t: Thread)
    requires Inv(e) && CanDecode(e, t)
    ensures Inv(DoDecode(e, t))
  {
    var e' := DoDecode(e, t);
    DecodeShape(e, t);
    forall b: BufferId ensures BufferOk(e', b) { DecodeBuffers(e, t, b); }
    forall c: ConnId, k: nat ensures TaskOk(e', c, k) { DecodeTasks(e, t, c, k); }
    forall c: ConnId ensures ConnOk(e', c) { DecodeConn(e, t, c); }
  }

  // ---------------------------------------------------------------- taking and ending a task

  /** A connection whose task is run by another worker, or by none, has consumed what it had. */
  lemma OtherConsumed(e: Engine, e': Engine, t: Thread, c: ConnId)
    requires PI.Inv(e.pool) && PO.SameFor(e.pool, e'.pool, c) && PO.Runner(e.pool, c) != Some(t)
    requires e'.buffers == e.buffers && |e'.jobs| == |e.jobs| && |e'.pool.pcs| == |e.pool.pcs|
    requires forall z :: 0 <= z < |e.jobs| && z != t ==> e'.jobs[z] == e.jobs[z]
    requires forall z :: 0 <= z < |e.pool.pcs| && z != t ==> e'.pool.pcs[z] == e.pool.pcs[z]
    ensures Consumed(e', c) == Consumed(e, c)
  {
    if PO.Runner(e.pool, c).Some? { PO.RunnerRuns(e.pool, c); }
  }

  lemma TakeConsumed(e: Engine, t: Thread, k: P.Ticket, c: ConnId)
    requires Inv(e) && CanTake(e, t, k)
    ensures Consumed(DoTake(e, t, k), c) == Consumed(e, c)
  {
    var e' := DoTake(e, t, k);
    PO.TakeStep(e.pool, t, k, c);
    if c == e'.pool.pcs[t].act {
      assert TaskOk(e, c, |P.Finished(e.pool, c)|);
    } else {
      if PO.Runner(e.pool, c).Some? { PO.RunnerRuns(e.pool, c); }
      OtherConsumed(e, e', t, c);
    }
  }

  lemma TakeTasks(e: Engine, t: Thread, k: P.Ticket, c: ConnId, i: nat)
    requires Inv(e) && CanTake(e, t, k)
    ensures TaskOk(DoTake(e, t, k), c, i)
  {
    assert TaskOk(e, c, i);
    PO.TakeStep(e.pool, t, k, c);
    if PO.Runner(e.pool, c).Some? { RunningBuffer(e, c); }
  }

  lemma TakeBuffers(e: Engine, t: Thread, k: P.Ticket, b: BufferId)
    requires Inv(e) && CanTake(e, t, k)
    ensures BufferOk(DoTake(e, t, k), b)
  {
    assert BufferOk(e, b);
    PO.TakeStep(e.pool, t, k, 0);
    if b < |e.owner| && e.owner[b].Lent? {
      PO.TakeStep(e.pool, t, k, e.owner[b].conn);
      if PO.Runner(e.pool, e.owner[b].conn).Some? { RunningBuffer(e, e.owner[b].conn); }
    }
  }

  lemma StepTake(e: Engine, t: Thread, k: P.Ticket)
    requires Inv(e) && CanTake(e, t, k)
    ensures Inv(DoTake(e, t, k))
  {
    var e' := DoTake(e, t, k);
    PO.TakeStep(e.pool, t, k, 0);
    forall z: Thread ensures ThreadOk(e', z) { assert ThreadOk(e, z); }
    forall b: BufferId ensures BufferOk(e', b) { TakeBuffers(e, t, k, b); }
    forall c: ConnId, i: nat ensures TaskOk(e', c, i) { TakeTasks(e, t, k, c, i); }
    forall c: ConnId ensures ConnOk(e', c) {
      assert ConnOk(e, c);
      PO.TakeStep(e.pool, t, k, c);
      TakeConsumed(e, t, k, c);
      ConnKept(e, e', c);
    }
  }

  lemma ReleaseConsumed(e: Engine, t: Thread, c: ConnId)
    requires Inv(e) && CanRelease(e, t)
    ensures Consumed(DoRelease(e, t), c) == Consumed(e, c)
  {
    if PO.Runner(e.pool, c).Some? { RunningBuffer(e, c); }
  }

  lemma ReleaseTasks(e: Engine, t: Thread, c: ConnId, k: nat)
    requires Inv(e) && CanRelease(e, t)
    ensures TaskOk(DoRelease(e, t), c, k)
  {
    PO.RunningTask(e.pool, t);
    RunningBuffer(e, e.pool.pcs[t].act);
    assert TaskOk(e, c, k);
    if PO.Runner(e.pool, c).Some? { PO.RunnerRuns(e.pool, c); }
  }

  /** Only the task of thread t gives its buffer back. */
  lemma ReleaseOutstanding(e: Engine, t: Thread, c: ConnId, k: nat)
    requires Inv(e) && CanRelease(e, t) && Outstanding(e, c, k)
    requires P.Submitted(e.pool, c)[k].buffer != e.pool.pcs[t].task.buffer
    ensures Outstanding(DoRelease(e, t), c, k)
  {
    if PO.Runner(e.pool, c) == Some(t) { RunningBuffer(e, c); }
  }

  lemma ReleaseBuffers(e: Engine, t: Thread, b: BufferId)
    requires Inv(e) && CanRelease(e, t)
    ensures BufferOk(DoRelease(e, t), b)
  {
    PO.RunningTask(e.pool, t);
    RunningBuffer(e, e.pool.pcs[t].act);
    assert BufferOk(e, e.pool.pcs[t].task.buffer) && BufferOk(e, b);
    if b < |e.owner| && e.owner[b].Lent? && b != e.pool.pcs[t].task.buffer {
      ReleaseOutstanding(e, t, e.owner[b].conn, e.owner[b].index);
    }
  }

  lemma StepRelease(e: Engine, t: Thread)
    requires Inv(e) && CanRelease(e, t)
    ensures Inv(DoRelease(e, t))
  {
    var e' := DoRelease(e, t);
    PO.RunningTask(e.pool, t);
    RunningBuffer(e, e.pool.pcs[t].act);
    assert BufferOk(e, e.pool.pcs[t].task.buffer);
    forall z: Thread ensures ThreadOk(e', z) { assert ThreadOk(e, z); }
    forall b: BufferId ensures BufferOk(e', b) { ReleaseBuffers(e, t, b); }
    forall c: ConnId, k: nat ensures TaskOk(e', c, k) { ReleaseTasks(e, t, c, k); }
    forall c: ConnId ensures ConnOk(e', c) {
      assert ConnOk(e, c);
      ReleaseConsumed(e, t, c);
      ConnKept(e, e', c);
    }
  }

  lemma EndOwn(e: Engine, t: Thread)
    requires PI.Inv(e.pool) && e.pool.callers == 1 && CanEndTask(e, t)
    ensures Consumed(DoEndTask(e, t), e.pool.pcs[t].act) == Consumed(e, e.pool.pcs[t].act)
  {
    var c := e.pool.pcs[t].act;
    PO.EndStep(e.pool, t, c);
    PO.RunningTask(e.pool, t);
    ChunksSnoc(P.Finished(e.pool, c), e.pool.pcs[t].task);
  }

  lemma EndOthers(e: Engine, t: Thread, c: ConnId)
    requires Inv(e) && CanEndTask(e, t) && c != e.pool.pcs[t].act
    ensures Consumed(DoEndTask(e, t), c) == Consumed(e, c)
  {
    PO.EndStep(e.pool, t, c);
    PO.RunningTask(e.pool, t);
    OtherConsumed(e, DoEndTask(e, t), t, c);
  }

  lemma EndTasks(e: Engine, t: Thread, c: ConnId, k: nat)
    requires Inv(e) && CanEndTask(e, t)
    ensures TaskOk(DoEndTask(e, t), c, k)
  {
    assert TaskOk(e, c, k);
    PO.EndStep(e.pool, t, c);
    PO.RunningTask(e.pool, t);
    if PO.Runner(e.pool, c).Some? { RunningBuffer(e, c); }
  }

  /** The task that ends has already given its buffer back; the others stay outstanding. */
  lemma EndOutstanding(e: Engine, t: Thread, c: ConnId, k: nat)
    requires Inv(e) && CanEndTask(e, t) && Outstanding(e, c, k)
    ensures Outstanding(DoEndTask(e, t), c, k)
    ensures P.Submitted(DoEndTask(e, t).pool, c) == P.Submitted(e.pool, c)
  {
    PO.EndStep(e.pool, t, c);
    PO.RunningTask(e.pool, t);
    if PO.Runner(e.pool, c).Some? { PO.RunnerRuns(e.pool, c); }
  }

  lemma EndBuffers(e: Engine, t: Thread, b: BufferId)
    requires Inv(e) && CanEndTask(e, t)
    ensures BufferOk(DoEndTask(e, t), b)
  {
    assert BufferOk(e, b);
    PO.EndStep(e.pool, t, 0);
    if b < |e.owner| && e.owner[b].Lent? { EndOutstanding(e, t, e.owner[b].conn, e.owner[b].index); }
  }

  lemma EndShape(e: Engine, t: Thread)
    requires Inv(e) && CanEndTask(e, t)
    ensures Shape(DoEndTask(e, t)) && HandOk(DoEndTask(e, t))
    ensures forall z: Thread :: ThreadOk(DoEndTask(e, t), z)
  {
    var e' := DoEndTask(e, t);
    PO.EndStep(e.pool, t, 0);
    forall z: Thread ensures ThreadOk(e', z) { assert ThreadOk(e, z); }
  }

  lemma EndInput(e: Engine, t: Thread, c: ConnId)
    requires PI.Inv(e.pool) && e.pool.callers == 1 && CanEndTask(e, t)
    ensures var e' := DoEndTask(e, t);
            P.Submitted(e'.pool, c) == P.Submitted(e.pool, c) && InHand(e', c) == InHand(e, c)
  {
    PO.EndStep(e.pool, t, c);
  }

  lemma EndConn(e: Engine, e': Engine, t: Thread, c: ConnId)
    requires Inv(e) && CanEndTask(e, t) && e' == DoEndTask(e, t)
    ensures ConnOk(e', c)
  {
    assert ConnOk(e, c);
    EndInput(e, t, c);
    if c == e.pool.pcs[t].act { EndOwn(e, t); } else { EndOthers(e, t, c); }
    ConnKept(e, e', c);
  }

  lemma StepEndTask(e: Engine, t: Thread)
    requires Inv(e) && CanEndTask(e, t)
    ensures Inv(DoEndTask(e, t))
  {
    var e' := DoEndTask(e, t);
    EndShape(e, t);
    forall b: BufferId ensures BufferOk(e', b) { EndBuffers(e, t, b); }
    forall c: ConnId, k: nat ensures TaskOk(e', c, k) { EndTasks(e, t, c, k); }
    forall c: ConnId ensures ConnOk(e', c) { EndConn(e, e', t, c); }
  }

  lemma StepInv(e: Engine, x: Action)
    requires Inv(e) && Enabled(e, x)
    ensures Inv(Apply(e, x))
  {
    match x
    case Lease(b) => StepLease(e, b);
    case Allocate => StepAllocate(e);
    case Fill(chunk) => StepFill(e, chunk);
    case Eof => StepEof(e);
    case Submit => StepSubmit(e);
    case FinishRead => StepFinishRead(e);
    case NetStep(n) => StepNet(e, n);
    case PoolStep(p) => StepPool(e, p);
    case Commit(p) => StepCommit(e, p);
    case Take(t, k) => StepTake(e, t, k);
    case Decode(t) => StepDecode(e, t);
    case EndProcess(t) => StepEndProcess(e, t);
    case Throw(t) => StepThrow(e, t);
    case EndChunk(t) => StepEndChunk(e, t);
    case Release(t) => StepRelease(e, t);
    case EndTask(t) => StepEndTask(e, t);
  }
}
