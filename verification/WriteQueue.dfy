/** The bytes of a connection's outgoing buffers: written, still to be written, and all together. */
module WriteQueue {
  import opened Framing

  /** A `ByteBuffer` wrapped around an encoded message, with its position. */
  datatype WriteBuffer = WriteBuffer(data: Bytes, pos: nat)

  predicate InBounds(b: WriteBuffer) { b.pos <= |b.data| }

  function Taken(b: WriteBuffer): Bytes {
    if InBounds(b) then b.data[..b.pos] else []
  }

  function Remaining(b: WriteBuffer): Bytes {
    if InBounds(b) then b.data[b.pos..] else []
  }

  function Written(bs: seq<WriteBuffer>): Bytes {
    if bs == [] then [] else Written(bs[..|bs| - 1]) + Taken(bs[|bs| - 1])
  }

  function Unwritten(bs: seq<WriteBuffer>): Bytes {
    if bs == [] then [] else Unwritten(bs[..|bs| - 1]) + Remaining(bs[|bs| - 1])
  }

  function Concat(ms: seq<Bytes>): Bytes {
    if ms == [] then [] else Concat(ms[..|ms| - 1]) + ms[|ms| - 1]
  }

  function Messages(bs: seq<WriteBuffer>): seq<Bytes> {
    if bs == [] then [] else Messages(bs[..|bs| - 1]) + [bs[|bs| - 1].data]
  }

  predicate BufferOk(b: WriteBuffer, i: int, head: int) {
    && InBounds(b)
    && (i < head ==> b.pos == |b.data|)
    && (head < i ==> b.pos == 0)
  }

  /** Everything before `head` has been written, nothing after it has. */
  predicate WrittenUpTo(bs: seq<WriteBuffer>, head: int) {
    forall i :: 0 <= i < |bs| ==> BufferOk(bs[i], i, head)
  }

  lemma {:induction false} NothingLeft(bs: seq<WriteBuffer>)
    requires WrittenUpTo(bs, |bs|)
    ensures Unwritten(bs) == []
  {
    if bs != [] { NothingLeft(bs[..|bs| - 1]); }
  }

  lemma Regroup(w: Bytes, t: Bytes, u: Bytes, r: Bytes)
    requires u == [] || t == []
    ensures (w + t) + (u + r) == (w + u) + (t + r)
  {
  }

  lemma MessagesSnoc(bs: seq<WriteBuffer>, b: WriteBuffer)
    ensures Messages(bs + [b]) == Messages(bs) + [b.data]
    ensures Concat(Messages(bs + [b])) == Concat(Messages(bs)) + b.data
  {
    assert (bs + [b])[..|bs|] == bs;
    assert (Messages(bs) + [b.data])[..|Messages(bs)|] == Messages(bs);
  }

  /** One buffer more, written only when nothing before it is left. */
  lemma LastBuffer(bs: seq<WriteBuffer>, b: WriteBuffer)
    requires InBounds(b) && (Unwritten(bs) == [] || Taken(b) == [])
    requires Written(bs) + Unwritten(bs) == Concat(Messages(bs))
    ensures Written(bs + [b]) + Unwritten(bs + [b]) == Concat(Messages(bs + [b]))
  {
    assert (bs + [b])[..|bs|] == bs;
    MessagesSnoc(bs, b);
    Regroup(Written(bs), Taken(b), Unwritten(bs), Remaining(b));
    assert Taken(b) + Remaining(b) == b.data;
  }

  /** Conservation: what was written, followed by what is left, is the concatenation of all messages. */
  lemma {:induction false} NothingLost(bs: seq<WriteBuffer>, head: int)
    requires WrittenUpTo(bs, head)
    ensures Written(bs) + Unwritten(bs) == Concat(Messages(bs))
  {
    if bs != [] {
      var init, last := bs[..|bs| - 1], bs[|bs| - 1];
      NothingLost(init, head);
      assert BufferOk(last, |bs| - 1, head);
      if head >= |bs| - 1 { NothingLeft(init); }
      LastBuffer(init, last);
      assert bs == init + [last];
    }
  }

  lemma Join(w: Bytes, t: Bytes, chunk: Bytes)
    ensures w + (t + chunk) == (w + t) + chunk
  {
  }

  lemma TakenMore(b: WriteBuffer, n: nat)
    requires b.pos + n <= |b.data|
    ensures Taken(b.(pos := b.pos + n)) == Taken(b) + b.data[b.pos..b.pos + n]
  {
  }

  lemma NoneTaken(bs: seq<WriteBuffer>)
    requires bs != [] && bs[|bs| - 1].pos == 0
    ensures Written(bs) == Written(bs[..|bs| - 1])
  {
    assert Taken(bs[|bs| - 1]) == [];
  }

  /** Where nothing is written behind a buffer, what is written grows with it. */
  lemma {:induction false} Advance(bs: seq<WriteBuffer>, head: nat, b: WriteBuffer, chunk: Bytes)
    requires head < |bs| && Taken(b) == Taken(bs[head]) + chunk
    requires forall i :: head < i < |bs| ==> bs[i].pos == 0
    ensures Written(bs[head := b]) == Written(bs) + chunk
  {
    if head == |bs| - 1 {
      assert bs[head := b][..|bs| - 1] == bs[..|bs| - 1];
      Join(Written(bs[..|bs| - 1]), Taken(bs[head]), chunk);
    } else {
      Advance(bs[..|bs| - 1], head, b, chunk);
      assert bs[head := b][..|bs| - 1] == bs[..|bs| - 1][head := b];
      NoneTaken(bs);
      NoneTaken(bs[head := b]);
    }
  }

  lemma HeadKeeps(bs: seq<WriteBuffer>, head: nat, b: WriteBuffer)
    requires head < |bs| && WrittenUpTo(bs, head) && InBounds(b)
    ensures WrittenUpTo(bs[head := b], head)
    ensures forall i :: head < i < |bs| ==> bs[i].pos == 0
  {
    forall i | head < i < |bs| ensures bs[i].pos == 0 { assert BufferOk(bs[i], i, head); }
  }

  /** Writing `n` more bytes of the head appends exactly those bytes to what was written. */
  lemma WriteHead(bs: seq<WriteBuffer>, head: int, n: nat)
    requires 0 <= head < |bs| && WrittenUpTo(bs, head) && bs[head].pos + n <= |bs[head].data|
    ensures WrittenUpTo(bs[head := bs[head].(pos := bs[head].pos + n)], head)
    ensures Written(bs[head := bs[head].(pos := bs[head].pos + n)]) ==
            Written(bs) + bs[head].data[bs[head].pos..bs[head].pos + n]
  {
    TakenMore(bs[head], n);
    HeadKeeps(bs, head, bs[head].(pos := bs[head].pos + n));
    Advance(bs, head, bs[head].(pos := bs[head].pos + n), bs[head].data[bs[head].pos..bs[head].pos + n]);
  }

  lemma Enqueue(bs: seq<WriteBuffer>, head: int, m: Bytes)
    requires head <= |bs| && WrittenUpTo(bs, head)
    ensures WrittenUpTo(bs + [WriteBuffer(m, 0)], head)
    ensures Written(bs + [WriteBuffer(m, 0)]) == Written(bs)
    ensures Messages(bs + [WriteBuffer(m, 0)]) == Messages(bs) + [m]
  {
    var b := WriteBuffer(m, 0);
    assert (bs + [b])[..|bs|] == bs;
    assert Taken(b) == [];
  }
}
