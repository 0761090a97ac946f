/** The answer of LOGSTAT on its way: the numbers in the text that process builds, and the bytes that encode makes
    of them, as the client's `bytesToShort` reads them. */
module RecordWire {
  import opened Options
  import opened Text
  import opened Framing
  import opened ServerMessages
  import opened ClientDecoder
  import SC = StatCodec

  lemma {:induction false} DigitsOnly(n: nat)
    ensures ' ' !in Digits(n)
  {
    if n >= 10 { DigitsOnly(n / 10); }
  }

  /** A word of the text that `Short.parseShort` reads as the number. */
  predicate Spells(word: string, n: int) { ' ' !in word && ParseInt(word) == Some(n) }

  lemma DecimalSpells(n: int)
    requires SC.IsShort(n)
    ensures Spells(Decimal(n), n)
  {
    ParseDecimal(n);
    DigitsOnly(if n < 0 then -n else n);
  }

  /** The text of a record is the opcodes and four words between spaces, which are read back as its numbers. */
  lemma RecordText(m: ServerMessage) returns (a: string, b: string, c: string, d: string)
    requires m.Stats? && Packs(m)
    ensures TextOf(m) == "1007" + a + " " + b + " " + c + " " + d
    ensures Spells(a, m.age) && Spells(b, m.following) && Spells(c, m.followers) && Spells(d, m.posts)
  {
    a, b, c, d := Decimal(m.age), Decimal(m.following), Decimal(m.followers), Decimal(m.posts);
    DecimalSpells(m.age);
    DecimalSpells(m.following);
    DecimalSpells(m.followers);
    DecimalSpells(m.posts);
  }

  /** A byte of the client's stream as a signed char. */
  function SignedChar(c: char): SC.sbyte {
    if c as int < 128 then c as int else if c as int < 256 then c as int - 256 else 0
  }

  lemma SignedByte(b: SC.sbyte)
    ensures SignedChar(Byte(b)) == b
  {
  }

  /** The number in the two bytes at position `i`. */
  function ShortAt(s: Bytes, i: nat): int
    requires i + 1 < |s|
  {
    SC.BytesToShort(SignedChar(s[i]), SignedChar(s[i + 1]))
  }

  /** The numbers of a record in the order of its bytes. */
  function Number(m: ServerMessage, f: nat): int
    requires m.Stats?
  {
    if f == 0 then m.age else if f == 1 then m.following else if f == 2 then m.followers else m.posts
  }

  lemma RecordField(m: ServerMessage, f: nat)
    requires m.Stats? && Packs(m) && f < 4
    ensures ShortAt(RecordIn(m), 2 * f) == Number(m, f)
  {
    var r := SC.Record(m.age, m.following, m.followers, m.posts);
    var b := SC.RecordBytes(r);
    SC.FieldAt(r, f);
    assert b[2 * f..2 * f + 2][0] == b[2 * f] && b[2 * f..2 * f + 2][1] == b[2 * f + 1];
    SC.ShortRoundTrip(SC.Values(r)[f]);
    SignedByte(b[2 * f]);
    SignedByte(b[2 * f + 1]);
  }

  lemma Layout(m: ServerMessage, s: Bytes)
    requires m.Stats? && Packs(m) && s == Encode(m)
    ensures |s| == SC.SIZE && s[..4] == "1007" && s[4..12] == RecordIn(m) && s[12] == END && s[13..] == Padding()
  {
    assert s == "1007" + RecordIn(m) + ([END] + Padding());
  }

  lemma FieldOnTheWire(m: ServerMessage, s: Bytes, f: nat)
    requires m.Stats? && Packs(m) && f < 4 && |s| >= 12 && s[4..12] == RecordIn(m)
    ensures ShortAt(s, 4 + 2 * f) == Number(m, f)
  {
    RecordField(m, f);
    assert s[4..12][2 * f] == s[4 + 2 * f] && s[4..12][2 * f + 1] == s[5 + 2 * f];
  }

  /** What the server sends for a record: the opcodes, age, following, followers and posts in two bytes each, and the
      delimiter; the rest of the array is zeros. */
  lemma RecordOnTheWire(m: ServerMessage, s: Bytes)
    requires m.Stats? && Packs(m) && s == Encode(m)
    ensures |s| == SC.SIZE && s[..4] == "1007" && s[12] == END
    ensures ShortAt(s, 4) == m.age && ShortAt(s, 6) == m.following
    ensures ShortAt(s, 8) == m.followers && ShortAt(s, 10) == m.posts
    ensures forall i :: 12 < i < |s| ==> s[i] == NUL
  {
    Layout(m, s);
    FieldOnTheWire(m, s, 0);
    FieldOnTheWire(m, s, 1);
    FieldOnTheWire(m, s, 2);
    FieldOnTheWire(m, s, 3);
    forall i | 12 < i < |s| ensures s[i] == NUL { assert s[i] == s[13..][i - 13]; }
  }
}
