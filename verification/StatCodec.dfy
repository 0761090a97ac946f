/** The records of LOGSTAT and STAT on the wire: `encode` packs them into a fixed array, the client reads
    them back with `bytesToShort`. */
module StatCodec {
  import opened Options
  import opened Text

  type sbyte = b: int | -128 <= b < 128
  type short = n: int | -0x8000 <= n < 0x8000

  predicate IsShort(n: int) { -0x8000 <= n < 0x8000 }

  const SIZE: nat := 0x1_0000
  const DELIMITER: sbyte := 59 // ';'

  datatype Record = Record(age: short, posts: short, followers: short, following: short)

  /** The fields in the order of the encoder. */
  function Values(r: Record): (vs: seq<short>)
    ensures |vs| == 4
  {
    [r.age, r.posts, r.followers, r.following]
  }

  /** A cast to byte. */
  function Signed(n: int): sbyte
    requires 0 <= n < 256
  {
    if n < 128 then n else n - 256
  }

  /** `(byte)((num >> 8) & 0xFF)` and `(byte)(num & 0xFF)`. */
  function ShortToBytes(n: short): (b: seq<sbyte>)
    ensures |b| == 2
  {
    [Signed(n / 256 % 256), Signed(n % 256)]
  }

  /** The client's bytesToShort, on signed chars and in short arithmetic. */
  function BytesToShort(high: sbyte, low: sbyte): int {
    Short(Short((high as int) % 256 * 256) + (low as int) % 256)
  }

  /** The high byte comes first, and every short survives, negative ones included. */
  lemma ShortRoundTrip(n: short)
    ensures n == ShortToBytes(n)[0] * 0x100 + (ShortToBytes(n)[1] as int) % 0x100
    ensures BytesToShort(ShortToBytes(n)[0], ShortToBytes(n)[1]) == n
  {
    var h := n / 256;
    assert n == h * 256 + n % 256 && -128 <= h < 128;
    assert (Signed(h % 256) as int) % 256 == h % 256;
    assert (Signed(n % 256) as int) % 256 == n % 256;
    assert Short(h % 256 * 256) == h * 256;
  }

  function RecordBytes(r: Record): (b: seq<sbyte>)
    ensures |b| == 8
  {
    ShortToBytes(r.age) + ShortToBytes(r.posts) + ShortToBytes(r.followers) + ShortToBytes(r.following)
  }

  function AllBytes(rs: seq<Record>): (b: seq<sbyte>)
    ensures |b| == 8 * |rs|
  {
    if rs == [] then [] else AllBytes(rs[..|rs| - 1]) + RecordBytes(rs[|rs| - 1])
  }

  lemma {:induction false} RecordAt(rs: seq<Record>, j: nat, i: nat)
    requires j < |rs| && i < 8
    ensures AllBytes(rs)[8 * j + i] == RecordBytes(rs[j])[i]
  {
    if j < |rs| - 1 { RecordAt(rs[..|rs| - 1], j, i); }
  }

  lemma FieldAt(r: Record, f: nat)
    requires f < 4
    ensures RecordBytes(r)[2 * f..2 * f + 2] == ShortToBytes(Values(r)[f])
  {
  }

  /** encode puts one short at position `i`. */
  method PutShort(ans: array<sbyte>, i: nat, n: short)
    requires i + 1 < ans.Length
    modifies ans
    ensures ans[i] == ShortToBytes(n)[0] && ans[i + 1] == ShortToBytes(n)[1]
    ensures forall x :: 0 <= x < ans.Length && x != i && x != i + 1 ==> ans[x] == old(ans[x])
  {
    ans[i] := ShortToBytes(n)[0];
    ans[i + 1] := ShortToBytes(n)[1];
  }

  lemma EightBytes(b: seq<sbyte>, r: Record)
    requires |b| == 8
    requires b[0] == ShortToBytes(r.age)[0] && b[1] == ShortToBytes(r.age)[1]
    requires b[2] == ShortToBytes(r.posts)[0] && b[3] == ShortToBytes(r.posts)[1]
    requires b[4] == ShortToBytes(r.followers)[0] && b[5] == ShortToBytes(r.followers)[1]
    requires b[6] == ShortToBytes(r.following)[0] && b[7] == ShortToBytes(r.following)[1]
    ensures b == RecordBytes(r)
  {
    assert b == b[0..2] + b[2..4] + b[4..6] + b[6..8];
  }

  method PutRecord(ans: array<sbyte>, i: nat, r: Record)
    requires i + 8 <= ans.Length
    modifies ans
    ensures ans[..i] == old(ans[..i]) && ans[i..i + 8] == RecordBytes(r) && ans[i + 8..] == old(ans[i + 8..])
  {
    PutShort(ans, i, r.age);
    PutShort(ans, i + 2, r.posts);
    PutShort(ans, i + 4, r.followers);
    PutShort(ans, i + 6, r.following);
    EightBytes(ans[i..i + 8], r);
  }

  /** The array before the record at position `i` is put. */
  ghost predicate PackedSoFar(ans: seq<sbyte>, i: nat, op: seq<sbyte>, records: seq<Record>) {
    && |ans| == SIZE && 4 <= i <= SIZE
    && ans[..4] == op && ans[4..i] == AllBytes(records) && forall x :: i <= x < SIZE ==> ans[x] == 0
  }

  /** The body of the loop: one record more. */
  method PutNext(ans: array<sbyte>, i: nat, op: seq<sbyte>, records: seq<Record>, k: nat)
    requires k < |records| && i + 8 <= SIZE && PackedSoFar(ans[..], i, op, records[..k])
    modifies ans
    ensures PackedSoFar(ans[..], i + 8, op, records[..k + 1])
  {
    ghost var was := ans[..];
    PutRecord(ans, i, records[k]);
    assert records[..k + 1][..k] == records[..k];
    SplitsAt(was, ans[..], i);
  }

  lemma SplitsAt(was: seq<sbyte>, now: seq<sbyte>, i: nat)
    requires |was| == |now| && 4 <= i && i + 8 <= |was|
    requires now[..i] == was[..i] && now[i + 8..] == was[i + 8..]
    ensures now[..4] == was[..4] && now[4..i + 8] == was[4..i] + now[i..i + 8]
    ensures forall x :: i + 8 <= x < |was| ==> now[x] == was[x]
  {
    assert now[..4] == now[..i][..4] && now[4..i] == now[..i][4..] && was[4..i] == was[..i][4..];
    forall x | i + 8 <= x < |was| ensures now[x] == was[x] {
      assert now[i + 8..][x - i - 8] == was[i + 8..][x - i - 8];
    }
  }

  /** The branch of encode for "1007" and "1008", after the numbers were parsed.  None stands for an
      exception: no user at all is the empty string, which is not a number, and more than 8191 users do not
      fit into the array. */
  method EncodeStats(op: seq<sbyte>, records: seq<Record>) returns (result: Option<array<sbyte>>)
    requires |op| == 4
    ensures result.Some? <==> 1 <= |records| <= 8191
    ensures result.Some? ==> fresh(result.value) && Packed(result.value[..], op, records)
  {
    var ans := new sbyte[SIZE](_ => 0);
    if records == [] { return None; }
    for j := 0 to 4
      invariant ans[..j] == op[..j] && forall x :: j <= x < SIZE ==> ans[x] == 0
    {
      ans[j] := op[j];
    }
    var i := 4;
    for k := 0 to |records|
      invariant i == 4 + 8 * k && i <= SIZE && PackedSoFar(ans[..], i, op, records[..k])
    {
      if i + 8 > SIZE { return None; }
      PutNext(ans, i, op, records, k);
      i := i + 8;
    }
    assert records[..|records|] == records;
    if i >= SIZE { return None; }
    ans[i] := DELIMITER;
    return Some(ans);
  }

  /** The layout of the array: the opcodes, eight bytes per record, ';', and zeros to the end. */
  ghost predicate Packed(ans: seq<sbyte>, op: seq<sbyte>, records: seq<Record>) {
    var end := 4 + 8 * |records|;
    && |ans| == SIZE && end < SIZE && |op| == 4
    && ans[..4] == op && ans[4..end] == AllBytes(records) && ans[end] == DELIMITER
    && forall x :: end < x < SIZE ==> ans[x] == 0
  }

  /** The client reads back every value of every record. */
  lemma StatsAreRead(ans: seq<sbyte>, op: seq<sbyte>, records: seq<Record>, j: nat, f: nat)
    requires Packed(ans, op, records) && j < |records| && f < 4
    ensures BytesToShort(ans[4 + 8 * j + 2 * f], ans[4 + 8 * j + 2 * f + 1]) == Values(records[j])[f]
  {
    var r := records[j];
    RecordAt(records, j, 2 * f);
    RecordAt(records, j, 2 * f + 1);
    FieldAt(r, f);
    assert RecordBytes(r)[2 * f..2 * f + 2][0] == RecordBytes(r)[2 * f];
    assert RecordBytes(r)[2 * f..2 * f + 2][1] == RecordBytes(r)[2 * f + 1];
    ShortRoundTrip(Values(r)[f]);
    var body := ans[4..4 + 8 * |records|];
    assert body[8 * j + 2 * f] == ans[4 + 8 * j + 2 * f];
    assert body[8 * j + 2 * f + 1] == ans[4 + 8 * j + 2 * f + 1];
  }
}
