/** The reactor as a whole: the selector thread reads chunks into pooled buffers and submits one task
    per chunk, the scheduler runs the tasks, each task decodes its chunk byte by byte and hands every
    complete message to `process`, which may send to any connection.

    The machine composes the scheduler and the write side.  Thread 0 is the selector, every other
    thread is a worker.  Chunk sizes, messages sent and exceptions are up to the environment. */
module ReactorEngine {
  import opened Framing
  import P = ActorPool
  import N = ReactorWrites

  type ConnId = nat
  type Thread = nat
  type BufferId = nat

  const BUFFER_ALLOCATION_SIZE: nat := 8192

  /** The task `continueRead` returns.  It captures the buffer; `chunk` is history, the bytes read. */
  datatype ReadTask = ReadTask(buffer: BufferId, chunk: Bytes)

  /** A buffer after flip: its bytes and the position of the next get. */
  datatype ReadBuffer = ReadBuffer(data: Bytes, pos: nat)

  /** What the selector thread has done of `continueRead` for the current key. */
  datatype Hand = Empty | Leased(buffer: BufferId) | Filled(buffer: BufferId, chunk: Bytes) | Finished

  /** What a worker is doing inside a task. */
  datatype Job = Off | Decoding | Processing | Releasing | Released

  /** History: who a buffer belongs to.  `Lent(c, k)` is the k-th task of connection c. */
  datatype Owner = Pooled | Held | Lent(conn: ConnId, index: nat)

  datatype Engine = Engine(
    pool: P.Pool<ReadTask>,
    net: N.Net,
    jobs: seq<Job>,
    hand: Hand,
    buffers: seq<ReadBuffer>,
    free: multiset<BufferId>,           // BUFFER_POOL
    decoders: map<ConnId, Bytes>,       // the bytes each connection's decoder holds
    processed: map<ConnId, seq<Bytes>>, // the messages given to each connection's process
    stream: map<ConnId, Bytes>,         // the bytes read so far from each channel
    fed: map<ConnId, Bytes>,            // history: the bytes given to each decoder
    lossy: set<ConnId>,                 // history: connections that lost the rest of a chunk to an exception
    owner: seq<Owner>)

  function Decoder(e: Engine, c: ConnId): Bytes { if c in e.decoders then e.decoders[c] else [] }

  function Processed(e: Engine, c: ConnId): seq<Bytes> { if c in e.processed then e.processed[c] else [] }

  function Stream(e: Engine, c: ConnId): Bytes { if c in e.stream then e.stream[c] else [] }

  function Fed(e: Engine, c: ConnId): Bytes { if c in e.fed then e.fed[c] else [] }

  datatype Action =
    | Lease(buffer: BufferId)
    | Allocate
    | Fill(chunk: Bytes)
    | Eof
    | Submit
    | FinishRead
    | NetStep(n: N.Action)
    | PoolStep(p: P.Action<ReadTask>)
    | Commit(p: P.Action<ReadTask>)
    | Take(thread: Thread, ticket: P.Ticket)
    | Decode(thread: Thread)
    | EndProcess(thread: Thread)
    | Throw(thread: Thread)
    | EndChunk(thread: Thread)
    | Release(thread: Thread)
    | EndTask(thread: Thread)

  /** The selector is inside handleReadWrite for a readable key and not inside submit. */
  predicate InRead(e: Engine) {
    e.net.sel.Reading? && e.net.sel.key.Channel? && e.net.sel.key.readable && |e.pool.pcs| > 0 && e.pool.pcs[0].Idle?
  }

  function SetOwner(e: Engine, b: BufferId, o: Owner): Engine
    requires b < |e.owner|
  {
    e.(owner := e.owner[b := o])
  }

  /** leaseBuffer polls a buffer of the pool, in any order. */
  predicate CanLease(e: Engine, b: BufferId) { InRead(e) && e.hand.Empty? && b in e.free && b < |e.owner| }

  function DoLease(e: Engine, b: BufferId): Engine
    requires CanLease(e, b)
  {
    SetOwner(e, b, Held).(free := e.free - multiset{b}, hand := Leased(b))
  }

  /** leaseBuffer allocates when the pool is empty. */
  predicate CanAllocate(e: Engine) { InRead(e) && e.hand.Empty? && e.free == multiset{} }

  function DoAllocate(e: Engine): Engine
    requires CanAllocate(e)
  {
    e.(buffers := e.buffers + [ReadBuffer([], 0)], owner := e.owner + [Held], hand := Leased(|e.buffers|))
  }

  /** chan.read fills the buffer with the next bytes of the stream; flip. */
  predicate CanFill(e: Engine, chunk: Bytes) {
    InRead(e) && e.hand.Leased? && e.hand.buffer < |e.buffers| && |chunk| <= BUFFER_ALLOCATION_SIZE
  }

  function DoFill(e: Engine, chunk: Bytes): Engine
    requires CanFill(e, chunk)
  {
    var c, b := e.net.sel.key.conn, e.hand.buffer;
    e.(stream := e.stream[c := Stream(e, c) + chunk],
       buffers := e.buffers[b := ReadBuffer(chunk, 0)],
       hand := Filled(b, chunk))
  }

  /** chan.read reports the end of the stream: release the buffer and close. */
  predicate CanEof(e: Engine) {
    InRead(e) && e.hand.Leased? && e.hand.buffer < |e.owner| && N.CanEndOfStream(e.net)
  }

  function DoEof(e: Engine): Engine
    requires CanEof(e)
  {
    var b := e.hand.buffer;
    SetOwner(e, b, Pooled).(free := e.free + multiset{b}, hand := Finished, net := N.DoEndOfStream(e.net))
  }

  /** handleReadWrite calls pool.submit with the task. */
  predicate CanSubmit(e: Engine) {
    && InRead(e) && e.hand.Filled?
    && P.CanCallSubmit(e.pool, 0, e.net.sel.key.conn, ReadTask(e.hand.buffer, e.hand.chunk))
  }

  function DoSubmit(e: Engine): Engine
    requires CanSubmit(e)
  {
    e.(pool := P.DoCallSubmit(e.pool, 0, e.net.sel.key.conn, ReadTask(e.hand.buffer, e.hand.chunk)),
       hand := Finished)
  }

  /** The read part of handleReadWrite is over. */
  predicate CanFinishRead(e: Engine) {
    && N.CanFinishRead(e.net) && |e.pool.pcs| > 0 && e.pool.pcs[0].Idle?
    && (e.hand.Finished? || (e.hand.Empty? && !e.net.sel.key.readable))
  }

  function DoFinishRead(e: Engine): Engine
    requires CanFinishRead(e)
  {
    e.(net := N.DoFinishRead(e.net), hand := Empty)
  }

  /** All other steps of the write side; a worker sends only from inside process. */
  predicate CanNetStep(e: Engine, x: N.Action) {
    && N.Enabled(e.net, x) && !x.EndOfStream? && !x.FinishRead?
    && (x.BeginSend? ==> x.worker < |e.jobs| && e.jobs[x.worker].Processing?)
  }

  function DoNetStep(e: Engine, x: N.Action): Engine
    requires CanNetStep(e, x)
  {
    e.(net := N.Apply(e.net, x))
  }

  /** The internal steps of the scheduler. */
  predicate CanPoolStep(e: Engine, x: P.Action<ReadTask>) {
    && P.Enabled(e.pool, x)
    && (x.Acquire? || x.Check? || x.Mark? || x.GetQueue? || x.PutQueue? || x.Retire? || x.RunNext? || x.Collect?)
  }

  function DoPoolStep(e: Engine, x: P.Action<ReadTask>): Engine
    requires CanPoolStep(e, x)
  {
    e.(pool := P.Apply(e.pool, x))
  }

  /** The step at which submit takes effect: the buffer now belongs to the task. */
  predicate CanCommit(e: Engine, x: P.Action<ReadTask>) {
    && P.Enabled(e.pool, x) && (x.Execute? || x.AddPending?) && x.thread == 0
    && |P.InSubmit(e.pool.pcs[0])| == 1 && P.InSubmit(e.pool.pcs[0])[0].buffer < |e.owner|
  }

  function DoCommit(e: Engine, x: P.Action<ReadTask>): Engine
    requires CanCommit(e, x)
  {
    var c := e.pool.pcs[0].act;
    SetOwner(e, P.InSubmit(e.pool.pcs[0])[0].buffer, Lent(c, |P.Submitted(e.pool, c)|)).(pool := P.Apply(e.pool, x))
  }

  predicate CanTake(e: Engine, t: Thread, k: P.Ticket) { P.CanTake(e.pool, t, k) && t < |e.jobs| }

  function DoTake(e: Engine, t: Thread, k: P.Ticket): Engine
    requires CanTake(e, t, k)
  {
    e.(pool := P.DoTake(e.pool, t, k), jobs := e.jobs[t := Decoding])
  }

  predicate InJob(e: Engine, t: Thread, j: Job) {
    && t < |e.pool.pcs| && t < |e.jobs| && e.pool.pcs[t].Running? && e.jobs[t] == j
    && e.pool.pcs[t].task.buffer < |e.buffers| && e.pool.pcs[t].task.buffer < |e.owner|
  }

  /** `decodeNextByte(buf.get())`: a delimiter completes a message, which goes to process. */
  predicate CanDecode(e: Engine, t: Thread) {
    InJob(e, t, Decoding) && var b := e.buffers[e.pool.pcs[t].task.buffer]; b.pos < |b.data|
  }

  function DoDecode(e: Engine, t: Thread): Engine
    requires CanDecode(e, t)
  {
    var c, id := e.pool.pcs[t].act, e.pool.pcs[t].task.buffer;
    var b := e.buffers[id];
    var next := b.data[b.pos];
    var decoder := Decoder(e, c);
    e.(buffers := e.buffers[id := b.(pos := b.pos + 1)],
       decoders := e.decoders[c := if next == END then [] else decoder + [next]],
       processed := e.processed[c := Processed(e, c) + if next == END then [decoder] else []],
       fed := e.fed[c := Fed(e, c) + [next]],
       jobs := e.jobs[t := if next == END then Processing else Decoding])
  }

  predicate QuietSender(e: Engine, t: Thread) { t < |e.net.senders| && e.net.senders[t].Quiet? }

  predicate CanEndProcess(e: Engine, t: Thread) { InJob(e, t, Processing) && QuietSender(e, t) }

  function DoEndProcess(e: Engine, t: Thread): Engine
    requires CanEndProcess(e, t)
  {
    e.(jobs := e.jobs[t := Decoding])
  }

  /** process throws: the rest of the chunk is dropped. */
  predicate CanThrow(e: Engine, t: Thread) { InJob(e, t, Processing) && QuietSender(e, t) }

  function DoThrow(e: Engine, t: Thread): Engine
    requires CanThrow(e, t)
  {
    var b := e.buffers[e.pool.pcs[t].task.buffer];
    e.(jobs := e.jobs[t := Releasing], lossy := if b.pos < |b.data| then e.lossy + {e.pool.pcs[t].act} else e.lossy)
  }

  predicate CanEndChunk(e: Engine, t: Thread) {
    InJob(e, t, Decoding) && var b := e.buffers[e.pool.pcs[t].task.buffer]; b.pos >= |b.data|
  }

  function DoEndChunk(e: Engine, t: Thread): Engine
    requires CanEndChunk(e, t)
  {
    e.(jobs := e.jobs[t := Releasing])
  }

  /** releaseBuffer, in a finally block. */
  predicate CanRelease(e: Engine, t: Thread) { InJob(e, t, Releasing) }

  function DoRelease(e: Engine, t: Thread): Engine
    requires CanRelease(e, t)
  {
    var b := e.pool.pcs[t].task.buffer;
    SetOwner(e, b, Pooled).(free := e.free + multiset{b}, jobs := e.jobs[t := Released])
  }

  predicate CanEndTask(e: Engine, t: Thread) {
    t < |e.pool.pcs| && t < |e.jobs| && e.pool.pcs[t].Running? && e.jobs[t].Released?
  }

  function DoEndTask(e: Engine, t: Thread): Engine
    requires CanEndTask(e, t)
  {
    e.(pool := P.DoEndTask(e.pool, t), jobs := e.jobs[t := Off])
  }

  predicate Enabled(e: Engine, x: Action) {
    match x
    case Lease(b) => CanLease(e, b)
    case Allocate => CanAllocate(e)
    case Fill(chunk) => CanFill(e, chunk)
    case Eof => CanEof(e)
    case Submit => CanSubmit(e)
    case FinishRead => CanFinishRead(e)
    case NetStep(n) => CanNetStep(e, n)
    case PoolStep(p) => CanPoolStep(e, p)
    case Commit(p) => CanCommit(e, p)
    case Take(t, k) => CanTake(e, t, k)
    case Decode(t) => CanDecode(e, t)
    case EndProcess(t) => CanEndProcess(e, t)
    case Throw(t) => CanThrow(e, t)
    case EndChunk(t) => CanEndChunk(e, t)
    case Release(t) => CanRelease(e, t)
    case EndTask(t) => CanEndTask(e, t)
  }

  function Apply(e: Engine, x: Action): Engine
    requires Enabled(e, x)
  {
    match x
    case Lease(b) => DoLease(e, b)
    case Allocate => DoAllocate(e)
    case Fill(chunk) => DoFill(e, chunk)
    case Eof => DoEof(e)
    case Submit => DoSubmit(e)
    case FinishRead => DoFinishRead(e)
    case NetStep(n) => DoNetStep(e, n)
    case PoolStep(p) => DoPoolStep(e, p)
    case Commit(p) => DoCommit(e, p)
    case Take(t, k) => DoTake(e, t, k)
    case Decode(t) => DoDecode(e, t)
    case EndProcess(t) => DoEndProcess(e, t)
    case Throw(t) => DoThrow(e, t)
    case EndChunk(t) => DoEndChunk(e, t)
    case Release(t) => DoRelease(e, t)
    case EndTask(t) => DoEndTask(e, t)
  }
}
