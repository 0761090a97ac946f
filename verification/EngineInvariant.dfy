/** The invariant of the whole reactor: buffers have one owner each, and every connection has decoded
    exactly the bytes its tasks have consumed. */
module EngineInvariant {
  import opened Options
  import opened Framing
  import opened ReactorEngine
  import P = ActorPool
  import PI = PoolInvariant
  import PO = PoolObservations
  import N = ReactorWrites
  import NI = WriteInvariant

  function Chunks(ts: seq<ReadTask>): Bytes {
    if ts == [] then [] else Chunks(ts[..|ts| - 1]) + ts[|ts| - 1].chunk
  }

  /** The buffer the selector thread holds, if any. */
  function Holding(e: Engine): seq<BufferId> {
    match e.hand
    case Leased(b) => [b]
    case Filled(b, _) => [b]
    case _ =>
      if |e.pool.pcs| > 0 && |P.InSubmit(e.pool.pcs[0])| > 0 then [P.InSubmit(e.pool.pcs[0])[0].buffer] else []
  }

  /** The chunk read from `c` that is not submitted yet. */
  function InHand(e: Engine, c: ConnId): Bytes {
    if e.hand.Filled? && e.net.sel.Reading? && e.net.sel.key.Channel? && e.net.sel.key.conn == c then e.hand.chunk
    else if |e.pool.pcs| > 0 && !e.pool.pcs[0].Idle? && e.pool.pcs[0].act == c && |P.InSubmit(e.pool.pcs[0])| > 0
    then P.InSubmit(e.pool.pcs[0])[0].chunk
    else []
  }

  function Front(b: ReadBuffer): Bytes { if b.pos <= |b.data| then b.data[..b.pos] else [] }

  /** The part of the running task's chunk that has been decoded. */
  function Partial(e: Engine, c: ConnId): Bytes {
    match PO.Runner(e.pool, c)
    case None => []
    case Some(t) =>
      var task := e.pool.pcs[t].task;
      if t < |e.jobs| && (e.jobs[t].Releasing? || e.jobs[t].Released?) then task.chunk
      else if task.buffer < |e.buffers| then Front(e.buffers[task.buffer])
      else []
  }

  /** The bytes of `c` that the tasks have consumed. */
  function Consumed(e: Engine, c: ConnId): Bytes {
    Chunks(P.Finished(e.pool, c)) + Partial(e, c)
  }

  /** The k-th task of `c` has already given its buffer back. */
  predicate GaveBack(e: Engine, c: ConnId, k: nat) {
    && k == |P.Finished(e.pool, c)|
    && PO.Runner(e.pool, c).Some? && PO.Runner(e.pool, c).value < |e.jobs|
    && e.jobs[PO.Runner(e.pool, c).value].Released?
  }

  predicate Outstanding(e: Engine, c: ConnId, k: nat) {
    |P.Finished(e.pool, c)| <= k < |P.Submitted(e.pool, c)| && !GaveBack(e, c, k)
  }

  ghost predicate Shape(e: Engine) {
    && PI.Inv(e.pool) && NI.Inv(e.net)
    && e.pool.callers == 1 && 0 < |e.pool.pcs| == |e.jobs| == |e.net.senders|
    && |e.owner| == |e.buffers|
  }

  ghost predicate ThreadOk(e: Engine, t: Thread) {
    t < |e.jobs| && t < |e.pool.pcs| && t < |e.net.senders| ==>
      && (e.jobs[t].Off? <==> !e.pool.pcs[t].Running?)
      && (!e.net.senders[t].Quiet? ==> e.jobs[t].Processing?)
  }

  ghost predicate HandOk(e: Engine)
    requires |e.pool.pcs| > 0
  {
    && (!e.hand.Empty? ==> e.net.sel.Reading? && e.net.sel.key.Channel? && e.net.sel.key.readable)
    && (e.hand.Filled? ==> e.hand.buffer < |e.buffers| && e.buffers[e.hand.buffer] == ReadBuffer(e.hand.chunk, 0))
    && (!e.pool.pcs[0].Idle? ==>
          && e.hand.Finished? && |P.InSubmit(e.pool.pcs[0])| == 1 && e.pool.pcs[0].act == e.net.sel.key.conn
          && var task := P.InSubmit(e.pool.pcs[0])[0];
             task.buffer < |e.buffers| && e.buffers[task.buffer] == ReadBuffer(task.chunk, 0))
  }

  /** The bytes of an outstanding task are untouched in its buffer. */
  ghost predicate TaskOk(e: Engine, c: ConnId, k: nat) {
    Outstanding(e, c, k) ==>
      var task := P.Submitted(e.pool, c)[k];
      && task.buffer < |e.buffers| && task.buffer < |e.owner| && e.owner[task.buffer] == Lent(c, k)
      && e.buffers[task.buffer].data == task.chunk && e.buffers[task.buffer].pos <= |task.chunk|
      && (e.buffers[task.buffer].pos == 0 || (k == |P.Finished(e.pool, c)| && PO.Runner(e.pool, c).Some?))
  }

  ghost predicate BufferOk(e: Engine, b: BufferId) {
    if b < |e.owner| then
      && e.free[b] == (if e.owner[b].Pooled? then 1 else 0)
      && (e.owner[b].Held? <==> Holding(e) == [b])
      && (e.owner[b].Lent? ==>
            var c, k := e.owner[b].conn, e.owner[b].index;
            Outstanding(e, c, k) && P.Submitted(e.pool, c)[k].buffer == b)
    else e.free[b] == 0 && Holding(e) != [b]
  }

  /** The decoder was fed what the tasks consumed, unless an exception made it miss something. */
  ghost predicate FedOk(e: Engine, c: ConnId) {
    if c in e.lossy then |Fed(e, c)| < |Consumed(e, c)| else Fed(e, c) == Consumed(e, c)
  }

  ghost predicate ConnOk(e: Engine, c: ConnId) {
    && Stream(e, c) == Chunks(P.Submitted(e.pool, c)) + InHand(e, c)
    && Processed(e, c) == Frames(Fed(e, c)) && Decoder(e, c) == Rest(Fed(e, c))
    && FedOk(e, c)
  }

  ghost predicate Inv(e: Engine) {
    && Shape(e) && HandOk(e)
    && (forall t: Thread :: ThreadOk(e, t))
    && (forall b: BufferId :: BufferOk(e, b))
    && (forall c: ConnId, k: nat :: TaskOk(e, c, k))
    && (forall c: ConnId :: ConnOk(e, c))
  }

  /** A connection stays sound when the bytes read, submitted and consumed are the same. */
  lemma ConnKept(e: Engine, e': Engine, c: ConnId)
    requires ConnOk(e, c)
    requires Stream(e', c) == Stream(e, c) && P.Submitted(e'.pool, c) == P.Submitted(e.pool, c)
    requires InHand(e', c) == InHand(e, c)
    requires (c in e'.lossy <==> c in e.lossy) && Consumed(e', c) == Consumed(e, c) && Fed(e', c) == Fed(e, c)
    requires Processed(e', c) == Processed(e, c) && Decoder(e', c) == Decoder(e, c)
    ensures ConnOk(e', c)
  {
  }

  /** The buffer of a running task belongs to it until it is given back. */
  lemma RunningBuffer(e: Engine, c: ConnId)
    requires Inv(e) && PO.Runner(e.pool, c).Some?
    ensures var t, k := PO.Runner(e.pool, c).value, |P.Finished(e.pool, c)|;
            && t < |e.jobs| && e.pool.pcs[t].Running? && e.pool.pcs[t].act == c && !e.jobs[t].Off?
            && k < |P.Submitted(e.pool, c)| && P.Submitted(e.pool, c)[k] == e.pool.pcs[t].task
            && (!e.jobs[t].Released? ==> Outstanding(e, c, k) && TaskOk(e, c, k))
  {
    PO.RunnerRuns(e.pool, c);
    PO.RunningTask(e.pool, PO.Runner(e.pool, c).value);
    assert ThreadOk(e, PO.Runner(e.pool, c).value);
    assert TaskOk(e, c, |P.Finished(e.pool, c)|);
  }

  /** A step that leaves the scheduler and the lent buffers alone changes nothing for the tasks. */
  lemma LentKept(e: Engine, e': Engine)
    requires Inv(e) && e'.pool == e.pool && e'.jobs == e.jobs
    requires |e.owner| <= |e'.owner| && |e.buffers| <= |e'.buffers|
    requires forall b :: 0 <= b < |e.owner| && e.owner[b].Lent? ==>
               e'.owner[b] == e.owner[b] && e'.buffers[b] == e.buffers[b]
    ensures forall c: ConnId, k: nat :: TaskOk(e', c, k)
    ensures forall c: ConnId :: Consumed(e', c) == Consumed(e, c)
  {
    forall c: ConnId, k: nat ensures TaskOk(e', c, k) {
      assert TaskOk(e, c, k);
    }
    forall c: ConnId ensures Consumed(e', c) == Consumed(e, c) {
      if PO.Runner(e.pool, c).Some? { RunningBuffer(e, c); }
    }
  }

  // ---------------------------------------------------------------- the selector thread reads

  lemma LeaseBuffers(e: Engine, b: BufferId, z: BufferId)
    requires Inv(e) && CanLease(e, b)
    ensures BufferOk(DoLease(e, b), z)
  {
    assert BufferOk(e, b) && BufferOk(e, z);
  }

  lemma LeaseConn(e: Engine, b: BufferId, c: ConnId)
    requires Inv(e) && CanLease(e, b) && Consumed(DoLease(e, b), c) == Consumed(e, c)
    ensures ConnOk(DoLease(e, b), c)
  {
    assert ConnOk(e, c);
    ConnKept(e, DoLease(e, b), c);
  }

  lemma StepLease(e: Engine, b: BufferId)
    requires Inv(e) && CanLease(e, b)
    ensures Inv(DoLease(e, b))
  {
    var e' := DoLease(e, b);
    assert BufferOk(e, b);
    LentKept(e, e');
    forall t: Thread ensures ThreadOk(e', t) { assert ThreadOk(e, t); }
    forall z: BufferId ensures BufferOk(e', z) { LeaseBuffers(e, b, z); }
    forall c: ConnId ensures ConnOk(e', c) { LeaseConn(e, b, c); }
  }

  lemma StepAllocate(e: Engine)
    requires Inv(e) && CanAllocate(e)
    ensures Inv(DoAllocate(e))
  {
    var e' := DoAllocate(e);
    LentKept(e, e');
    forall t: Thread ensures ThreadOk(e', t) { assert ThreadOk(e, t); }
    forall z: BufferId ensures BufferOk(e', z) { assert BufferOk(e, z); }
    forall c: ConnId ensures ConnOk(e', c) { assert ConnOk(e, c); }
  }

  lemma StepFill(e: Engine, chunk: Bytes)
    requires Inv(e) && CanFill(e, chunk)
    ensures Inv(DoFill(e, chunk))
  {
    var e' := DoFill(e, chunk);
    assert BufferOk(e, e.hand.buffer);
    LentKept(e, e');
    forall t: Thread ensures ThreadOk(e', t) { assert ThreadOk(e, t); }
    forall z: BufferId ensures BufferOk(e', z) { assert BufferOk(e, z); }
    forall c: ConnId ensures ConnOk(e', c) { assert ConnOk(e, c); }
  }

  lemma StepEof(e: Engine)
    requires Inv(e) && CanEof(e)
    ensures Inv(DoEof(e))
  {
    var e' := DoEof(e);
    NI.StepInv(e.net, N.EndOfStream);
    assert BufferOk(e, e.hand.buffer);
    LentKept(e, e');
    forall t: Thread ensures ThreadOk(e', t) { assert ThreadOk(e, t); }
    forall z: BufferId ensures BufferOk(e', z) { assert BufferOk(e, z); }
    forall c: ConnId ensures ConnOk(e', c) { assert ConnOk(e, c); }
  }

  /** A step of the scheduler that starts and ends no task and moves none in or out of submit. */
  lemma PoolFrame(e: Engine, e': Engine)
    requires Inv(e) && PI.Inv(e'.pool) && PO.SameTasks(e.pool, e'.pool)
    requires e'.jobs == e.jobs && e'.owner == e.owner && e'.buffers == e.buffers && e'.net == e.net
    requires forall c: ConnId :: PO.SameFor(e.pool, e'.pool, c)
    ensures forall t: Thread :: ThreadOk(e', t)
    ensures forall c: ConnId, k: nat :: TaskOk(e', c, k)
    ensures forall c: ConnId :: Consumed(e', c) == Consumed(e, c)
    ensures forall b: BufferId :: e'.free == e.free && Holding(e') == Holding(e) ==> BufferOk(e', b)
  {
    forall t: Thread ensures ThreadOk(e', t) { assert ThreadOk(e, t); }
    forall c: ConnId, k: nat ensures TaskOk(e', c, k) {
      assert PO.SameFor(e.pool, e'.pool, c);
      assert TaskOk(e, c, k);
    }
    forall c: ConnId ensures Consumed(e', c) == Consumed(e, c) {
      assert PO.SameFor(e.pool, e'.pool, c);
      if PO.Runner(e.pool, c).Some? { RunningBuffer(e, c); }
    }
    forall b: BufferId | e'.free == e.free && Holding(e') == Holding(e) ensures BufferOk(e', b) {
      assert BufferOk(e, b);
      if b < |e.owner| && e.owner[b].Lent? { assert PO.SameFor(e.pool, e'.pool, e.owner[b].conn); }
    }
  }

  lemma StepSubmit(e: Engine)
    requires Inv(e) && CanSubmit(e)
    ensures Inv(DoSubmit(e))
  {
    var e' := DoSubmit(e);
    var c0, r := e.net.sel.key.conn, ReadTask(e.hand.buffer, e.hand.chunk);
    forall c: ConnId ensures PO.SameFor(e.pool, e'.pool, c) { PO.CallStep(e.pool, 0, c0, r, c); }
    PO.CallStep(e.pool, 0, c0, r, c0);
    PoolFrame(e, e');
    forall c: ConnId ensures ConnOk(e', c) { assert PO.SameFor(e.pool, e'.pool, c); assert ConnOk(e, c); }
  }

  lemma PoolConn(e: Engine, x: P.Action<ReadTask>, c: ConnId)
    requires Inv(e) && CanPoolStep(e, x) && Consumed(DoPoolStep(e, x), c) == Consumed(e, c)
    ensures ConnOk(DoPoolStep(e, x), c)
  {
    PO.InternalStep(e.pool, x, c);
    assert ConnOk(e, c);
    ConnKept(e, DoPoolStep(e, x), c);
  }

  lemma PoolShape(e: Engine, x: P.Action<ReadTask>)
    requires Inv(e) && CanPoolStep(e, x)
    ensures Shape(DoPoolStep(e, x)) && HandOk(DoPoolStep(e, x)) && Holding(DoPoolStep(e, x)) == Holding(e)
  {
    PO.InternalStep(e.pool, x, 0);
  }

  lemma StepPool(e: Engine, x: P.Action<ReadTask>)
    requires Inv(e) && CanPoolStep(e, x)
    ensures Inv(DoPoolStep(e, x))
  {
    var e' := DoPoolStep(e, x);
    PoolShape(e, x);
    forall c: ConnId ensures PO.SameFor(e.pool, e'.pool, c) { PO.InternalStep(e.pool, x, c); }
    PO.InternalStep(e.pool, x, 0);
    PoolFrame(e, e');
    forall c: ConnId ensures ConnOk(e', c) { PoolConn(e, x, c); }
  }

  lemma StepFinishRead(e: Engine)
    requires Inv(e) && CanFinishRead(e)
    ensures Inv(DoFinishRead(e))
  {
    var e' := DoFinishRead(e);
    NI.StepInv(e.net, N.FinishRead);
    LentKept(e, e');
    forall t: Thread ensures ThreadOk(e', t) { assert ThreadOk(e, t); }
    forall z: BufferId ensures BufferOk(e', z) { assert BufferOk(e, z); }
    forall c: ConnId ensures ConnOk(e', c) { assert ConnOk(e, c); }
  }

  /** What the write side may do to the parts the reading side looks at. */
  lemma NetFrame(e: Engine, x: N.Action)
    requires Inv(e) && CanNetStep(e, x)
    ensures var net' := N.Apply(e.net, x);
            && NI.Inv(net') && |net'.senders| == |e.net.senders|
            && (e.net.sel.Reading? ==> net'.sel == e.net.sel)
            && (forall t :: 0 <= t < |e.net.senders| && !net'.senders[t].Quiet? ==> e.jobs[t].Processing?)
  {
    NI.StepInv(e.net, x);
    forall t | 0 <= t < |e.net.senders| && !N.Apply(e.net, x).senders[t].Quiet? ensures e.jobs[t].Processing? {
      assert ThreadOk(e, t);
    }
  }

  lemma NetBuffers(e: Engine, x: N.Action, b: BufferId)
    requires Inv(e) && CanNetStep(e, x)
    ensures BufferOk(DoNetStep(e, x), b)
  {
    assert BufferOk(e, b);
  }

  lemma NetConn(e: Engine, x: N.Action, c: ConnId)
    requires Inv(e) && CanNetStep(e, x)
    ensures ConnOk(DoNetStep(e, x), c)
  {
    NetFrame(e, x);
    LentKept(e, DoNetStep(e, x));
    assert ConnOk(e, c);
    ConnKept(e, DoNetStep(e, x), c);
  }

  lemma StepNet(e: Engine, x: N.Action)
    requires Inv(e) && CanNetStep(e, x)
    ensures Inv(DoNetStep(e, x))
  {
    var e' := DoNetStep(e, x);
    NetFrame(e, x);
    LentKept(e, e');
    forall t: Thread ensures ThreadOk(e', t) { assert ThreadOk(e, t); }
    forall b: BufferId ensures BufferOk(e', b) { NetBuffers(e, x, b); }
    forall c: ConnId ensures ConnOk(e', c) { NetConn(e, x, c); }
  }

  // ---------------------------------------------------------------- submit takes effect

  lemma ChunksSnoc(ts: seq<ReadTask>, t: ReadTask)
    ensures Chunks(ts + [t]) == Chunks(ts) + t.chunk
  {
    assert (ts + [t])[..|ts|] == ts;
  }

  lemma CommitTasks(e: Engine, x: P.Action<ReadTask>, c: ConnId, k: nat)
    requires Inv(e) && CanCommit(e, x)
    ensures TaskOk(DoCommit(e, x), c, k)
  {
    var e' := DoCommit(e, x);
    PO.CommitStep(e.pool, x, c);
    assert TaskOk(e, c, k);
    PO.FinishedAreSubmitted(e.pool, c);
    assert BufferOk(e, P.InSubmit(e.pool.pcs[0])[0].buffer);
  }

  lemma CommitBuffers(e: Engine, x: P.Action<ReadTask>, b: BufferId)
    requires Inv(e) && CanCommit(e, x)
    ensures BufferOk(DoCommit(e, x), b)
  {
    var e' := DoCommit(e, x);
    assert BufferOk(e, b);
    PO.CommitStep(e.pool, x, e.pool.pcs[0].act);
    PO.FinishedAreSubmitted(e.pool, e.pool.pcs[0].act);
    if PO.Runner(e.pool, e.pool.pcs[0].act).Some? { RunningBuffer(e, e.pool.pcs[0].act); }
    if b < |e.owner| && e.owner[b].Lent? { PO.CommitStep(e.pool, x, e.owner[b].conn); }
  }

  lemma CommitConsumed(e: Engine, x: P.Action<ReadTask>, c: ConnId)
    requires Inv(e) && CanCommit(e, x)
    ensures Consumed(DoCommit(e, x), c) == Consumed(e, c)
  {
    PO.CommitStep(e.pool, x, c);
    if PO.Runner(e.pool, c).Some? { RunningBuffer(e, c); }
  }

  lemma CommitStream(e: Engine, x: P.Action<ReadTask>, c: ConnId)
    requires Inv(e) && CanCommit(e, x)
    ensures Chunks(P.Submitted(DoCommit(e, x).pool, c)) + InHand(DoCommit(e, x), c) ==
            Chunks(P.Submitted(e.pool, c)) + InHand(e, c)
  {
    PO.CommitStep(e.pool, x, c);
    ChunksSnoc(P.Submitted(e.pool, c), P.InSubmit(e.pool.pcs[0])[0]);
  }

  lemma CommitConn(e: Engine, x: P.Action<ReadTask>, c: ConnId)
    requires Inv(e) && CanCommit(e, x)
    ensures ConnOk(DoCommit(e, x), c)
  {
    assert ConnOk(e, c);
    CommitConsumed(e, x, c);
    CommitStream(e, x, c);
  }

  lemma StepCommit(e: Engine, x: P.Action<ReadTask>)
    requires Inv(e) && CanCommit(e, x)
    ensures Inv(DoCommit(e, x))
  {
    var e' := DoCommit(e, x);
    PO.CommitStep(e.pool, x, 0);
    forall t: Thread ensures ThreadOk(e', t) { assert ThreadOk(e, t); }
    forall b: BufferId ensures BufferOk(e', b) { CommitBuffers(e, x, b); }
    forall c: ConnId, k: nat ensures TaskOk(e', c, k) { CommitTasks(e, x, c, k); }
    forall c: ConnId ensures ConnOk(e', c) { CommitConn(e, x, c); }
  }
}
