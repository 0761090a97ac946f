/** Length-prefixed framing of serialised objects: four bytes of big-endian length, then the object. */
module ObjectFraming {
  import opened Options
  import opened Text

  type byte = b: int | 0 <= b < 256

  /** What the decoder has read: part of a length, part of an object, or something it cannot get over. */
  datatype State = ReadingLength(got: seq<byte>) | ReadingObject(got: seq<byte>, size: nat) | Stuck

  /** The result of one call: null, an object, or an exception. */
  datatype Outcome<T> = Nothing | Object(value: T) | Failed

  datatype Step<T> = Step(state: State, outcome: Outcome<T>)

  const START: State := ReadingLength([])

  /** `ByteBuffer.getInt`. */
  function BigEndian(b: seq<byte>): int
    requires |b| == 4
  {
    Int32((b[0] as int) * 0x100_0000 + (b[1] as int) * 0x1_0000 + (b[2] as int) * 0x100 + b[3] as int)
  }

  /** `ByteBuffer.putInt`. */
  function LengthBytes(n: nat): (b: seq<byte>)
    ensures |b| == 4
  {
    [n / 0x100_0000 % 256, n / 0x1_0000 % 256, n / 0x100 % 256, n % 256]
  }

  /** One call of decodeNextByte.  A negative length throws and leaves the length buffer full, an empty
      object leaves an array into which no byte fits, and an object that cannot be read stays in place: the
      decoder throws from then on. */
  function Feed<T>(deserialize: seq<byte> -> Option<T>, s: State, b: byte): Step<T> {
    match s
    case ReadingLength(got) =>
      var all := got + [b];
      if |all| != 4 then Step(ReadingLength(all), Nothing)
      else if BigEndian(all) < 0 then Step(Stuck, Failed)
      else if BigEndian(all) == 0 then Step(Stuck, Nothing)
      else Step(ReadingObject([], BigEndian(all)), Nothing)
    case ReadingObject(got, size) =>
      var all := got + [b];
      if |all| != size then Step(ReadingObject(all, size), Nothing)
      else
        (match deserialize(all)
         case Some(x) => Step(START, Object(x))
         case None => Step(Stuck, Failed))
    case Stuck => Step(Stuck, Failed)
  }

  /** Feeding bytes one at a time: the state at the end and the outcome at every byte. */
  datatype Feeding<T> = Feeding(state: State, outcomes: seq<Outcome<T>>)

  function FeedAll<T>(deserialize: seq<byte> -> Option<T>, s: State, bs: seq<byte>): Feeding<T>
    decreases |bs|
  {
    if bs == [] then Feeding(s, [])
    else
      var first := Feed(deserialize, s, bs[0]);
      var rest := FeedAll(deserialize, first.state, bs[1..]);
      Feeding(rest.state, [first.outcome] + rest.outcomes)
  }

  /** The serialised form of every object can be read back, is not empty, and its length fits an int. */
  ghost predicate Invertible<T(!new)>(serialize: T -> seq<byte>, deserialize: seq<byte> -> Option<T>) {
    forall x :: 0 < |serialize(x)| < 0x8000_0000 && deserialize(serialize(x)) == Some(x)
  }

  function Encode<T>(serialize: T -> seq<byte>, x: T): seq<byte> {
    LengthBytes(|serialize(x)|) + serialize(x)
  }

  function EncodeAll<T>(serialize: T -> seq<byte>, xs: seq<T>): seq<byte> {
    if xs == [] then [] else Encode(serialize, xs[0]) + EncodeAll(serialize, xs[1..])
  }

  /** Null at every byte but the last of each object. */
  function Expected<T>(serialize: T -> seq<byte>, xs: seq<T>): seq<Outcome<T>> {
    if xs == [] then []
    else Nulls(3 + |serialize(xs[0])|) + [Object(xs[0])] + Expected(serialize, xs[1..])
  }

  function Nulls<T>(n: nat): (r: seq<Outcome<T>>)
    ensures |r| == n && forall i :: 0 <= i < n ==> r[i] == Nothing
  {
    if n == 0 then [] else Nulls(n - 1) + [Nothing]
  }

  // ---------------------------------------------------------------- proofs

  lemma LengthRoundTrip(n: nat)
    requires n < 0x8000_0000
    ensures BigEndian(LengthBytes(n)) == n
  {
    var h := n / 0x100;
    var m := n / 0x1_0000;
    assert n == h * 0x100 + n % 256;
    assert h / 0x100 == m && h == m * 0x100 + h % 256;
    assert m / 0x100 == n / 0x100_0000;
  }

  /** One feeding after the other. */
  function Then<T>(f: Feeding<T>, g: Feeding<T>): Feeding<T> { Feeding(g.state, f.outcomes + g.outcomes) }

  lemma FirstThen<T>(x: Outcome<T>, f: Feeding<T>, g: Feeding<T>)
    ensures Then(Feeding(f.state, [x] + f.outcomes), g) == Feeding(g.state, [x] + Then(f, g).outcomes)
  {
  }

  lemma {:induction false} FeedAppend<T>(de: seq<byte> -> Option<T>, s: State, a: seq<byte>, b: seq<byte>)
    ensures FeedAll(de, s, a + b) == Then(FeedAll(de, s, a), FeedAll(de, FeedAll(de, s, a).state, b))
    decreases |a|
  {
    if a == [] {
      assert a + b == b;
    } else {
      var first := Feed(de, s, a[0]);
      var f := FeedAll(de, first.state, a[1..]);
      FeedAppend(de, first.state, a[1..], b);
      assert (a + b)[0] == a[0] && (a + b)[1..] == a[1..] + b;
      FirstThen(first.outcome, f, FeedAll(de, f.state, b));
    }
  }

  lemma NullsFirst<T>(n: nat)
    ensures Nulls<T>(n + 1) == [Nothing] + Nulls(n)
  {
  }

  /** Three length bytes are read without a result, the fourth decides. */
  lemma FeedFour<T>(de: seq<byte> -> Option<T>, b: seq<byte>)
    requires |b| == 4
    ensures var last := Feed(de, ReadingLength(b[..3]), b[3]);
            FeedAll(de, START, b) == Feeding(last.state, [Nothing, Nothing, Nothing, last.outcome])
  {
    assert b[1..][1..] == b[2..] && b[2..][1..] == b[3..] && b[3..][1..] == [];
    assert [] + [b[0]] == [b[0]] && [b[0]] + [b[1]] == [b[0], b[1]] && [b[0], b[1]] + [b[2]] == [b[0], b[1], b[2]];
    assert Feed(de, START, b[0]) == Step(ReadingLength([b[0]]), Nothing);
    assert Feed(de, ReadingLength([b[0]]), b[1]) == Step(ReadingLength([b[0], b[1]]), Nothing);
    assert Feed(de, ReadingLength([b[0], b[1]]), b[2]) == Step(ReadingLength([b[0], b[1], b[2]]), Nothing);
    var last := Feed(de, ReadingLength(b[..3]), b[3]);
    assert b[..3] == [b[0], b[1], b[2]];
    assert FeedAll(de, ReadingLength(b[..3]), b[3..]) == Feeding(last.state, [last.outcome]);
    assert FeedAll(de, ReadingLength([b[0], b[1]]), b[2..]) == Feeding(last.state, [Nothing, last.outcome]);
  }

  lemma FeedLength<T>(de: seq<byte> -> Option<T>, b: seq<byte>)
    requires |b| == 4 && BigEndian(b) > 0
    ensures FeedAll(de, START, b) == Feeding(ReadingObject([], BigEndian(b)), [Nothing, Nothing, Nothing, Nothing])
  {
    FeedFour(de, b);
    assert b[..3] + [b[3]] == b;
  }

  /** The bytes of an object are collected; the last one delivers it. */
  lemma {:induction false} FeedBody<T>(de: seq<byte> -> Option<T>, got: seq<byte>, rest: seq<byte>, x: T)
    requires rest != [] && de(got + rest) == Some(x)
    ensures FeedAll(de, ReadingObject(got, |got| + |rest|), rest) == Feeding(START, Nulls(|rest| - 1) + [Object(x)])
    decreases |rest|
  {
    if |rest| == 1 {
      assert got + [rest[0]] == got + rest && rest[1..] == [];
    } else {
      assert got + [rest[0]] + rest[1..] == got + rest;
      FeedBody(de, got + [rest[0]], rest[1..], x);
      NullsFirst<T>(|rest| - 2);
    }
  }

  lemma FourNulls<T>(n: nat)
    ensures [Nothing, Nothing, Nothing, Nothing] + Nulls<T>(n) == Nulls(n + 4)
  {
  }

  lemma FeedOne<T(!new)>(ser: T -> seq<byte>, de: seq<byte> -> Option<T>, x: T)
    requires Invertible(ser, de)
    ensures FeedAll(de, START, Encode(ser, x)) == Feeding(START, Nulls(3 + |ser(x)|) + [Object(x)])
  {
    var payload := ser(x);
    LengthRoundTrip(|payload|);
    FeedAppend(de, START, LengthBytes(|payload|), payload);
    FeedLength(de, LengthBytes(|payload|));
    assert [] + payload == payload;
    FeedBody(de, [], payload, x);
    FourNulls<T>(|payload| - 1);
  }

  /** For every sequence of objects, feeding the concatenated encodings byte by byte returns exactly the
      objects in order, null at every other byte, and leaves the length buffer empty. */
  lemma {:induction false} ObjectsRoundTrip<T(!new)>(ser: T -> seq<byte>, de: seq<byte> -> Option<T>, xs: seq<T>)
    requires Invertible(ser, de)
    ensures FeedAll(de, START, EncodeAll(ser, xs)) == Feeding(START, Expected(ser, xs))
  {
    if xs != [] {
      FeedOne(ser, de, xs[0]);
      ObjectsRoundTrip(ser, de, xs[1..]);
      FeedAppend(de, START, Encode(ser, xs[0]), EncodeAll(ser, xs[1..]));
    }
  }

  /** A stuck decoder never delivers anything again. */
  lemma {:induction false} StuckForever<T>(de: seq<byte> -> Option<T>, bs: seq<byte>)
    ensures FeedAll(de, Stuck, bs).state == Stuck
    ensures forall i :: 0 <= i < |FeedAll(de, Stuck, bs).outcomes| ==> FeedAll(de, Stuck, bs).outcomes[i] == Failed
  {
    if bs != [] { StuckForever(de, bs[1..]); }
  }

  /** After a length, the decoder goes on if and only if the length is positive: an empty object cannot be
      framed, whatever follows.  Only a negative length throws at once. */
  lemma LengthDecides<T>(de: seq<byte> -> Option<T>, b: seq<byte>)
    requires |b| == 4
    ensures FeedAll(de, START, b) ==
            Feeding(if BigEndian(b) > 0 then ReadingObject([], BigEndian(b)) else Stuck,
                    [Nothing, Nothing, Nothing, if BigEndian(b) < 0 then Failed else Nothing])
  {
    FeedFour(de, b);
    assert b[..3] + [b[3]] == b;
  }

  /** The bytes of something that is no object are collected; the last one throws and the decoder is stuck. */
  lemma {:induction false} BadBody<T>(de: seq<byte> -> Option<T>, got: seq<byte>, rest: seq<byte>)
    requires rest != [] && de(got + rest) == None
    ensures FeedAll(de, ReadingObject(got, |got| + |rest|), rest) == Feeding(Stuck, Nulls(|rest| - 1) + [Failed])
    decreases |rest|
  {
    if |rest| == 1 {
      assert got + [rest[0]] == got + rest && rest[1..] == [];
    } else {
      assert got + [rest[0]] + rest[1..] == got + rest;
      BadBody(de, got + [rest[0]], rest[1..]);
      NullsFirst<T>(|rest| - 2);
    }
  }

  lemma FourMore<T>(n: nat, x: Outcome<T>)
    ensures [Nothing, Nothing, Nothing, Nothing] + (Nulls(n) + [x]) == Nulls(n + 4) + [x]
  {
  }

  lemma BadContent<T>(de: seq<byte> -> Option<T>, bad: seq<byte>)
    requires bad != [] && de(bad) == None
    ensures FeedAll(de, ReadingObject([], |bad|), bad) == Feeding(Stuck, Nulls(|bad| - 1) + [Failed])
  {
    assert [] + bad == bad;
    BadBody(de, [], bad);
  }

  /** A frame whose content is no object throws at its last byte. */
  lemma BadFrame<T>(de: seq<byte> -> Option<T>, length: seq<byte>, bad: seq<byte>)
    requires 0 < |bad| < 0x8000_0000 && de(bad) == None && length == LengthBytes(|bad|)
    ensures FeedAll(de, START, length + bad) == Feeding(Stuck, Nulls(3 + |bad|) + [Failed])
  {
    LengthRoundTrip(|bad|);
    FeedLength(de, length);
    BadContent(de, bad);
    FeedAppend(de, START, length, bad);
    FourMore<T>(|bad| - 1, Failed);
  }

  /** ... and so does every byte after it, whatever follows. */
  lemma BadFrameSticks<T>(de: seq<byte> -> Option<T>, bad: seq<byte>, more: seq<byte>, i: nat)
    requires 0 < |bad| < 0x8000_0000 && de(bad) == None && i < |more|
    ensures var all := FeedAll(de, START, LengthBytes(|bad|) + bad + more).outcomes;
            |all| == 4 + |bad| + |more| && all[3 + |bad|] == Failed && all[4 + |bad| + i] == Failed
  {
    BadFrame(de, LengthBytes(|bad|), bad);
    FeedAppend(de, START, LengthBytes(|bad|) + bad, more);
    StuckForever(de, more);
    FeedLen(de, Stuck, more);
  }

  lemma {:induction false} FeedLen<T>(de: seq<byte> -> Option<T>, s: State, bs: seq<byte>)
    ensures |FeedAll(de, s, bs).outcomes| == |bs|
    decreases |bs|
  {
    if bs != [] { FeedLen(de, Feed(de, s, bs[0]).state, bs[1..]); }
  }

  /** The bytes as a number, the first one counting most. */
  function Unsigned(b: seq<byte>): int {
    if b == [] then 0 else Unsigned(b[..|b| - 1]) * 0x100 + b[|b| - 1] as int
  }

  lemma LengthIs(b: seq<byte>)
    requires |b| == 4
    ensures (BigEndian(b) - Unsigned(b)) % 0x1_0000_0000 == 0 && -0x8000_0000 <= BigEndian(b) < 0x8000_0000
    ensures BigEndian(b) < 0 <==> b[0] as int >= 0x80
  {
    assert b[..3][..2] == b[..2] && b[..2][..1] == b[..1] && b[..1][..0] == [];
    assert Unsigned(b[..1]) == b[0] as int && Unsigned(b[..2]) == b[0] as int * 0x100 + b[1] as int;
    assert Unsigned(b[..3]) == (b[0] as int * 0x100 + b[1] as int) * 0x100 + b[2] as int;
  }
}
