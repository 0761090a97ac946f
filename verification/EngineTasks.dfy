/** What a step of the reactor leaves alone: the task of a worker that is in process, and who runs the tasks of a
    connection. */
module EngineTasks {
  import opened Options
  import opened Framing
  import opened ReactorEngine
  import opened EngineInvariant
  import EW = EngineWorkers
  import P = ActorPool
  import PO = PoolObservations

  predicate IsStep(e: Engine, x: Action, f: Engine) { Enabled(e, x) && f == Apply(e, x) }

  /** The worker is inside process. */
  predicate InProcess(e: Engine, t: Thread) { t < |e.jobs| && e.jobs[t].Processing? }

  /** A worker enters process with the last byte of a message. */
  lemma EntersWith(e: Engine, x: Action, f: Engine, t: Thread)
    requires IsStep(e, x, f) && !InProcess(e, t) && InProcess(f, t)
    ensures x == Decode(t) && EW.NextByte(e, t) == END
  {
  }

  /** It leaves process by returning or throwing. */
  lemma StaysIn(e: Engine, x: Action, f: Engine, t: Thread)
    requires IsStep(e, x, f) && InProcess(e, t) && ThreadOk(e, t) && |e.jobs| == |e.pool.pcs| == |e.net.senders|
    requires x != EndProcess(t) && x != Throw(t)
    ensures InProcess(f, t)
  {
  }

  /** The worker runs a task whose buffer is its own. */
  lemma HasTask(e: Engine, t: Thread)
    requires Inv(e) && InProcess(e, t)
    ensures EW.HasRunning(e, t) && PO.Runner(e.pool, e.pool.pcs[t].act) == Some(t)
    ensures var id := e.pool.pcs[t].task.buffer;
            && id < |e.buffers| && id < |e.owner| && e.buffers[id].pos <= |e.buffers[id].data|
            && e.owner[id] == Lent(e.pool.pcs[t].act, |P.Finished(e.pool, e.pool.pcs[t].act)|)
  {
    assert ThreadOk(e, t);
    PO.RunningTask(e.pool, t);
    RunningBuffer(e, e.pool.pcs[t].act);
  }

  lemma PoolKeeps(e: Engine, x: Action, f: Engine)
    requires Inv(e) && IsStep(e, x, f) && (x.Submit? || x.PoolStep? || x.Commit?)
    ensures PO.SameTasks(e.pool, f.pool) && f.buffers == e.buffers
  {
    match x
    case Submit => PO.CallStep(e.pool, 0, e.net.sel.key.conn, ReadTask(e.hand.buffer, e.hand.chunk), 0);
    case PoolStep(p) => PO.InternalStep(e.pool, p, 0);
    case Commit(p) => PO.CommitStep(e.pool, p, 0);
  }

  /** Only the pool's own steps, the start and the end of a task touch the pool. */
  lemma ElsePool(e: Engine, x: Action, f: Engine)
    requires IsStep(e, x, f) && !x.Submit? && !x.PoolStep? && !x.Commit? && !x.Take? && !x.EndTask?
    ensures f.pool == e.pool
  {
  }

  lemma PcStays(e: Engine, x: Action, f: Engine, t: Thread)
    requires Inv(e) && IsStep(e, x, f) && EW.HasRunning(e, t) && x != EndTask(t)
    ensures EW.HasRunning(f, t) && f.pool.pcs[t] == e.pool.pcs[t]
  {
    if x.Submit? || x.PoolStep? || x.Commit? {
      PoolKeeps(e, x, f);
    } else if !x.Take? && !x.EndTask? {
      ElsePool(e, x, f);
    }
  }

  /** Only Fill and Decode write into a buffer. */
  lemma BufferWritten(e: Engine, x: Action, f: Engine, id: BufferId)
    requires IsStep(e, x, f) && id < |e.buffers|
    ensures id < |f.buffers|
    ensures f.buffers[id] == e.buffers[id] || (x.Fill? && id == e.hand.buffer)
            || (x.Decode? && id == e.pool.pcs[x.thread].task.buffer)
  {
  }

  /** The buffers of two workers are different. */
  lemma OwnBuffers(e: Engine, t: Thread, z: Thread)
    requires Inv(e) && InProcess(e, t) && CanDecode(e, z)
    ensures EW.HasRunning(e, t) && e.pool.pcs[t].task.buffer != e.pool.pcs[z].task.buffer
  {
    HasTask(e, t);
    PO.RunningTask(e.pool, z);
    RunningBuffer(e, e.pool.pcs[z].act);
  }

  predicate SameBuffer(e: Engine, f: Engine, id: BufferId) {
    id < |e.buffers| && id < |f.buffers| && f.buffers[id] == e.buffers[id]
  }

  lemma BufferStays(e: Engine, x: Action, f: Engine, t: Thread)
    requires Inv(e) && IsStep(e, x, f) && InProcess(e, t)
    ensures EW.HasRunning(e, t) && SameBuffer(e, f, e.pool.pcs[t].task.buffer)
  {
    HasTask(e, t);
    BufferWritten(e, x, f, e.pool.pcs[t].task.buffer);
    if x.Fill? { assert BufferOk(e, e.hand.buffer); }
    if x.Decode? { OwnBuffers(e, t, x.thread); }
  }

  /** While a worker is in process, nobody else touches its task, its buffer or its place. */
  lemma TaskStays(e: Engine, x: Action, f: Engine, t: Thread)
    requires Inv(e) && IsStep(e, x, f) && InProcess(e, t) && x != EndProcess(t) && x != Throw(t)
    ensures InProcess(f, t) && EW.HasRunning(e, t) && EW.HasRunning(f, t) && f.pool.pcs[t] == e.pool.pcs[t]
    ensures SameBuffer(e, f, e.pool.pcs[t].task.buffer)
  {
    HasTask(e, t);
    assert ThreadOk(e, t);
    StaysIn(e, x, f, t);
    PcStays(e, x, f, t);
    BufferStays(e, x, f, t);
  }

  // ---------------------------------------------------------------- who runs the tasks of a connection

  /** The runner of a connection stays, or starts or ends a task outside process. */
  predicate RunnerMoves(e: Engine, f: Engine, c: ConnId) {
    var r, q := PO.Runner(e.pool, c), PO.Runner(f.pool, c);
    q == r || (r == None && !InProcess(f, q.value)) || (q == None && !InProcess(e, r.value))
  }

  lemma PoolRunner(e: Engine, x: Action, f: Engine, c: ConnId)
    requires Inv(e) && IsStep(e, x, f) && (x.Submit? || x.PoolStep? || x.Commit?)
    ensures PO.Runner(f.pool, c) == PO.Runner(e.pool, c)
  {
    match x
    case Submit => PO.CallStep(e.pool, 0, e.net.sel.key.conn, ReadTask(e.hand.buffer, e.hand.chunk), c);
    case PoolStep(p) => PO.InternalStep(e.pool, p, c);
    case Commit(p) => PO.CommitStep(e.pool, p, c);
  }

  lemma RunnerStep(e: Engine, x: Action, f: Engine, c: ConnId)
    requires Inv(e) && IsStep(e, x, f)
    ensures RunnerMoves(e, f, c)
  {
    match x
    case Submit => PoolRunner(e, x, f, c);
    case PoolStep(_) => PoolRunner(e, x, f, c);
    case Commit(_) => PoolRunner(e, x, f, c);
    case Take(t, k) => PO.TakeStep(e.pool, t, k, c);
    case EndTask(t) =>
      PO.EndStep(e.pool, t, c);
      PO.RunningTask(e.pool, t);
    case _ => ElsePool(e, x, f);
  }
}
