/** `NonBlockingConnectionHandler` in its own form, for one thread inside it at a time: the write queue
    with its buffers, the shared buffer pool, and the task that decodes a chunk.  The step machines of
    `ReactorWrites` and `ReactorEngine` interleave the same steps. */
module NonBlockingConnectionHandler {
  import opened Framing
  import opened MessageEncoderDecoder
  import opened Options

  /** A `ByteBuffer` ready for reading: its bytes and the position of the next get. */
  class ByteBuffer {
    var data: Bytes
    var position: nat

    constructor (data: Bytes)
      ensures this.data == data && position == 0
    {
      this.data, position := data, 0;
    }

    predicate HasRemaining()
      reads this
    {
      position < |data|
    }

    function Left(): Bytes
      reads this
    {
      if position <= |data| then data[position..] else []
    }

    /** The channel takes the next `n` bytes. */
    method Take(n: nat) returns (chunk: Bytes)
      requires position + n <= |data|
      modifies this`position
      ensures position == old(position) + n && |chunk| == n && old(Left()) == chunk + Left()
    {
      chunk := data[position..position + n];
      position := position + n;
    }
  }

  /** The bytes of the queued buffers that are still to be written. */
  ghost function LeftIn(queue: seq<ByteBuffer>): Bytes
    reads queue
  {
    if queue == [] then [] else queue[0].Left() + LeftIn(queue[1..])
  }

  lemma Regroup(x: Bytes, y: Bytes, z: Bytes)
    ensures x + (y + z) == x + y + z
  {
  }

  lemma {:induction false} LeftSnoc(queue: seq<ByteBuffer>, b: ByteBuffer)
    ensures LeftIn(queue + [b]) == LeftIn(queue) + b.Left()
  {
    if queue == [] {
      assert queue + [b] == [b] && [b][1..] == [];
    } else {
      LeftSnoc(queue[1..], b);
      assert (queue + [b])[1..] == queue[1..] + [b];
      Regroup(queue[0].Left(), LeftIn(queue[1..]), b.Left());
    }
  }

  class BufferPool {
    var free: seq<ByteBuffer>

    ghost predicate Valid()
      reads this
    {
      forall i, j :: 0 <= i < j < |free| ==> free[i] != free[j]
    }

    constructor ()
      ensures Valid() && free == []
    {
      free := [];
    }

    /** leaseBuffer: a pooled buffer, which leaves the pool, or a new one. */
    method LeaseBuffer() returns (buff: ByteBuffer)
      requires Valid()
      modifies this, free
      ensures Valid() && buff !in free
      ensures if old(free) == [] then fresh(buff) && free == [] else old(free) == [buff] + free
      ensures buff.data == [] && buff.position == 0
      ensures forall b :: b in free && b in old(free) ==> b.data == old(b.data) && b.position == old(b.position)
    {
      if free == [] {
        buff := new ByteBuffer([]);
      } else {
        buff := free[0];
        free := free[1..];
        buff.data, buff.position := [], 0;
      }
    }

    /** releaseBuffer: whoever gives a buffer back must be the one who leased it. */
    method ReleaseBuffer(buff: ByteBuffer)
      requires Valid() && buff !in free
      modifies this
      ensures Valid() && free == old(free) + [buff]
    {
      free := free + [buff];
    }
  }

  datatype Ops = Read | ReadWrite

  class ConnectionHandler {
    const encdec: MessageEncoderDecoderImpl
    var writeQueue: seq<ByteBuffer>
    var wrote: Bytes         // what the channel has taken
    var interest: Ops        // the operations the reactor was told last
    var open: bool
    ghost var enqueued: Bytes // all messages given to send, concatenated

    ghost predicate Valid()
      reads this, writeQueue
    {
      && (forall i, j :: 0 <= i < j < |writeQueue| ==> writeQueue[i] != writeQueue[j])
      && (forall i :: 0 <= i < |writeQueue| ==> writeQueue[i].position <= |writeQueue[i].data|)
      && wrote + LeftIn(writeQueue) == enqueued
    }

    constructor (encdec: MessageEncoderDecoderImpl)
      ensures Valid() && writeQueue == [] && enqueued == [] && this.encdec == encdec && interest == Read && open
    {
      this.encdec := encdec;
      writeQueue, wrote, interest, enqueued, open := [], [], Read, [], true;
    }

    /** send: the message goes to the end of the queue and write interest is asked for. */
    method Send(msg: Bytes)
      requires Valid()
      modifies this`writeQueue, this`enqueued, this`interest
      ensures Valid() && enqueued == old(enqueued) + msg && wrote == old(wrote) && interest == ReadWrite
      ensures |writeQueue| == |old(writeQueue)| + 1
    {
      var buffer := new ByteBuffer(msg);
      LeftSnoc(writeQueue, buffer);
      Regroup(wrote, LeftIn(writeQueue), msg);
      writeQueue := writeQueue + [buffer];
      enqueued := enqueued + msg;
      interest := ReadWrite;
    }

    /** `chan.write(top)`: the channel takes some of the remaining bytes, at most `accept`. */
    method WriteTop(accept: nat)
      requires Valid() && writeQueue != []
      modifies this`wrote, writeQueue[0]
      ensures Valid() && old(wrote) <= wrote
      ensures writeQueue[0].position == old(writeQueue[0].position) +
                if accept < |old(writeQueue[0].Left())| then accept else |old(writeQueue[0].Left())|
      ensures writeQueue[0].data == old(writeQueue[0].data)
    {
      var top := writeQueue[0];
      var n := if accept < |top.data| - top.position then accept else |top.data| - top.position;
      ghost var others := LeftIn(writeQueue[1..]);
      RestUntouched(writeQueue);
      var chunk := top.Take(n);
      assert LeftIn(writeQueue[1..]) == others;
      Move(wrote, chunk, top.Left(), others);
      wrote := wrote + chunk;
    }

    /** The bytes taken go from the front of what is left to the end of what was written. */
    static lemma Move(written: Bytes, chunk: Bytes, top: Bytes, others: Bytes)
      ensures written + (chunk + top + others) == written + chunk + (top + others)
    {
    }

    lemma RestUntouched(queue: seq<ByteBuffer>)
      requires queue != [] && forall i, j :: 0 <= i < j < |queue| ==> queue[i] != queue[j]
      ensures queue[0] !in queue[1..]
    {
    }

    /** One round of the loop: the first buffer is removed once all of it has been taken. */
    method WriteOne(accept: nat) returns (removed: bool)
      requires Valid() && writeQueue != []
      modifies this`wrote, this`writeQueue, writeQueue[0]
      ensures Valid() && old(wrote) <= wrote
      ensures removed ==> writeQueue == old(writeQueue)[1..]
      ensures !removed ==> writeQueue == old(writeQueue) && writeQueue[0].HasRemaining()
    {
      WriteTop(accept);
      if writeQueue[0].HasRemaining() { return false; }
      assert LeftIn(writeQueue) == LeftIn(writeQueue[1..]);
      writeQueue := writeQueue[1..];
      return true;
    }

    /** continueWrite: writes buffers from the front until the channel takes only a part of one or the
        queue is empty; only then is write interest dropped.  `accepts(k)` is what the channel can take
        at its k-th write.  Nothing is lost, repeated or reordered. */
    method ContinueWrite(accepts: nat -> nat)
      requires Valid()
      modifies this`wrote, this`writeQueue, this`interest, writeQueue
      ensures Valid() && old(wrote) <= wrote && enqueued == old(enqueued)
      ensures writeQueue == [] ==> wrote == enqueued && interest == Read
      ensures writeQueue != [] ==> interest == old(interest) && writeQueue[0].HasRemaining()
      ensures exists k :: 0 <= k <= |old(writeQueue)| && writeQueue == old(writeQueue)[k..]
    {
      var calls := 0;
      while writeQueue != []
        invariant calls <= |old(writeQueue)| && writeQueue == old(writeQueue)[calls..]
        invariant Valid() && old(wrote) <= wrote && interest == old(interest)
        decreases |writeQueue|
      {
        var removed := WriteOne(accepts(calls));
        if !removed { return; }
        calls := calls + 1;
      }
      interest := Read;
    }

    method Close()
      modifies this`open
      ensures !open
    {
      open := false;
    }

    /** continueRead: a leased buffer takes what the channel delivers and goes to the task; when the channel is at
        its end, or reading throws, the buffer goes back to the pool, the channel is closed and there is no task. */
    method ContinueRead(pool: BufferPool, delivered: Option<Bytes>) returns (buf: Option<ByteBuffer>)
      requires pool.Valid()
      modifies this`open, pool, pool.free
      ensures pool.Valid() && (buf.Some? <==> delivered.Some?) && open == (old(open) && delivered.Some?)
      ensures delivered.Some? ==> buf.value.data == delivered.value && buf.value.position == 0
      ensures delivered.Some? ==>
                if old(pool.free) == [] then fresh(buf.value) && pool.free == []
                else old(pool.free) == [buf.value] + pool.free && buf.value !in pool.free
      ensures delivered.None? ==>
                if old(pool.free) == [] then |pool.free| == 1 && fresh(pool.free[0])
                else pool.free == old(pool.free)[1..] + [old(pool.free)[0]]
    {
      var leased := pool.LeaseBuffer();
      assert old(pool.free) != [] ==> old(pool.free)[0] == leased;
      match delivered
      case Some(chunk) =>
        leased.data := chunk;
        buf := Some(leased);
      case None =>
        pool.ReleaseBuffer(leased);
        Close();
        buf := None;
    }

    /** The task that continueRead returns: decode what is left of the buffer, collecting the messages for
        process, and give the buffer back. */
    method RunTask(buf: ByteBuffer, pool: BufferPool) returns (messages: seq<Bytes>)
      requires encdec.Valid() && pool.Valid() && buf !in pool.free && buf.position <= |buf.data|
      modifies buf, pool, encdec, encdec.bytes
      ensures encdec.Valid() && pool.Valid() && pool.free == old(pool.free) + [buf]
      ensures encdec.fed == old(encdec.fed) + old(buf.Left())
      ensures Frames(encdec.fed) == Frames(old(encdec.fed)) + messages
    {
      messages := [];
      ghost var bytes := buf.data;
      while buf.HasRemaining()
        invariant buf.data == bytes && old(buf.position) <= buf.position <= |bytes|
        invariant encdec.Valid() && (encdec.bytes == old(encdec.bytes) || fresh(encdec.bytes))
        invariant pool.free == old(pool.free) && pool.Valid()
        invariant encdec.fed == old(encdec.fed) + bytes[old(buf.position)..buf.position]
        invariant Frames(encdec.fed) == Frames(old(encdec.fed)) + messages
        decreases |bytes| - buf.position
      {
        var next := buf.data[buf.position];
        buf.position := buf.position + 1;
        assert bytes[old(buf.position)..buf.position] == bytes[old(buf.position)..buf.position - 1] + [next];
        var message := encdec.DecodeNextByte(next);
        if message.Some? {
          messages := messages + [message.value];
        }
      }
      pool.ReleaseBuffer(buf);
    }
  }
}
