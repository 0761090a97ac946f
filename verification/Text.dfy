/** The string and number operations of the Java library that the server relies on. */
module Text {
  import opened Options

  const NUL: char := '\0'

  predicate StartsWith(s: string, t: string) {
    |t| <= |s| && s[..|t|] == t
  }

  /** `s.contains(t)`. */
  predicate Contains(s: string, t: string) {
    StartsWith(s, t) || (s != [] && Contains(s[1..], t))
  }

  /** `t` stands in `s` at position `i`. */
  predicate StandsAt(s: string, i: nat, t: string) { i + |t| <= |s| && s[i..i + |t|] == t }

  ghost predicate Occurs(t: string, s: string) { exists i: nat :: StandsAt(s, i, t) }

  lemma NextPosition(s: string, i: nat, t: string)
    requires s != []
    ensures StandsAt(s[1..], i, t) <==> StandsAt(s, i + 1, t)
  {
    if i + 1 + |t| <= |s| { assert s[1..][i..i + |t|] == s[i + 1..i + 1 + |t|]; }
  }

  /** `contains` finds the text wherever it stands, and nothing else. */
  lemma {:induction false} ContainsIff(s: string, t: string)
    ensures Contains(s, t) <==> Occurs(t, s)
  {
    assert StartsWith(s, t) <==> StandsAt(s, 0, t) by { if |t| <= |s| { assert s[0..|t|] == s[..|t|]; } }
    if s != [] {
      ContainsIff(s[1..], t);
      if i: nat :| StandsAt(s[1..], i, t) { NextPosition(s, i, t); }
      if i: nat :| StandsAt(s, i, t) && i > 0 { NextPosition(s, i - 1, t); }
    }
  }

  lemma ContainsSelf(s: string)
    ensures Contains(s, s)
  {
    assert s[..|s|] == s;
  }

  /** A character that does not occur in `t` adds nothing at the end of `s`. */
  lemma {:induction false} ContainsSnoc(s: string, c: char, t: string)
    requires c !in t
    ensures Contains(s + [c], t) <==> Contains(s, t)
  {
    if t == [] {
      assert StartsWith(s, t) && StartsWith(s + [c], t);
    } else if s == [] {
      assert (s + [c])[1..] == [] && t[|t| - 1] != c;
    } else {
      ContainsSnoc(s[1..], c, t);
      assert (s + [c])[1..] == s[1..] + [c];
      assert t[|t| - 1] != c;
      if |t| <= |s| { assert (s + [c])[..|t|] == s[..|t|]; }
    }
  }

  /** `s.split("\0")` before the trailing empty strings are dropped. */
  function Pieces(s: string): (ps: seq<string>)
    ensures |ps| > 0
  {
    if s == [] then [""]
    else
      var rest := Pieces(s[1..]);
      if s[0] == NUL then [""] + rest else [[s[0]] + rest[0]] + rest[1..]
  }

  function DropTrailingEmpty(ps: seq<string>): seq<string> {
    if ps != [] && ps[|ps| - 1] == "" then DropTrailingEmpty(ps[..|ps| - 1]) else ps
  }

  /** `s.split("\0")`: a string without the separator is returned as it is. */
  function Split(s: string): seq<string> {
    if NUL in s then DropTrailingEmpty(Pieces(s)) else [s]
  }

  lemma {:induction false} PiecesJoin(w: string, s: string)
    requires NUL !in w
    ensures Pieces(w + [NUL] + s) == [w] + Pieces(s)
  {
    if w == [] {
      assert (w + [NUL] + s)[1..] == s;
    } else {
      PiecesJoin(w[1..], s);
      assert (w + [NUL] + s)[1..] == w[1..] + [NUL] + s;
      assert [w[0]] + w[1..] == w;
    }
  }

  lemma {:induction false} PiecesOne(w: string)
    requires NUL !in w
    ensures Pieces(w) == [w]
  {
    if w != [] {
      PiecesOne(w[1..]);
      assert [w[0]] + w[1..] == w;
    }
  }

  /** Position of the first occurrence of `c`, or the length. */
  function IndexOf(s: string, c: char): (i: nat)
    ensures i <= |s| && c !in s[..i] && (i < |s| ==> s[i] == c)
  {
    if s == [] || s[0] == c then 0
    else
      var i := IndexOf(s[1..], c);
      assert s[..i + 1] == [s[0]] + s[1..][..i];
      i + 1
  }

  lemma {:induction false} IndexAtMost(s: string, c: char, k: nat)
    requires k < |s| && s[k] == c
    ensures IndexOf(s, c) <= k
  {
    if s[0] != c { IndexAtMost(s[1..], c, k - 1); }
  }

  /** `queue.remove(x)`: drops the first occurrence, if any. */
  function RemoveFirst<T(==)>(s: seq<T>, x: T): seq<T> {
    if s == [] then [] else if s[0] == x then s[1..] else [s[0]] + RemoveFirst(s[1..], x)
  }

  predicate NoDuplicates<T(==)>(s: seq<T>) {
    forall i, j :: 0 <= i < j < |s| ==> s[i] != s[j]
  }

  lemma {:induction false} RemoveFirstSpec<T>(s: seq<T>, x: T)
    ensures x in s ==> |RemoveFirst(s, x)| == |s| - 1
    ensures x !in s ==> RemoveFirst(s, x) == s
    ensures forall y :: y in RemoveFirst(s, x) ==> y in s
    ensures forall y :: y != x && y in s ==> y in RemoveFirst(s, x)
    ensures NoDuplicates(s) ==> NoDuplicates(RemoveFirst(s, x)) && x !in RemoveFirst(s, x)
  {
    if s != [] && s[0] != x {
      var t := RemoveFirst(s[1..], x);
      RemoveFirstSpec(s[1..], x);
      assert forall y :: y in s <==> y == s[0] || y in s[1..];
      if NoDuplicates(s) {
        assert s[0] !in s[1..];
        assert NoDuplicates(s[1..]);
      }
    } else if s != [] {
      assert forall y :: y in s <==> y == s[0] || y in s[1..];
    }
  }

  /** The digits of a number, most significant first. */
  function Digits(n: nat): string {
    (if n < 10 then [] else Digits(n / 10)) + [(n % 10) as char + '0']
  }

  function Decimal(n: int): string { if n < 0 then "-" + Digits(-n) else Digits(n) }

  /** The value of a string of decimal digits. */
  function Value(s: string): Option<nat> {
    if s == [] then Some(0)
    else if !('0' <= s[|s| - 1] <= '9') then None
    else
      match Value(s[..|s| - 1])
      case None => None
      case Some(v) => Some(10 * v + (s[|s| - 1] - '0') as nat)
  }

  /** `Integer.parseInt`: an optional sign, at least one digit, and a value that an int can hold. */
  function ParseInt(s: string): Option<int> {
    var signed := s != [] && (s[0] == '-' || s[0] == '+');
    var digits := if signed then s[1..] else s;
    if digits == [] then None
    else
      match Value(digits)
      case None => None
      case Some(v) =>
        var n: int := if signed && s[0] == '-' then 0 - v else v;
        if -0x8000_0000 <= n < 0x8000_0000 then Some(n) else None
  }

  /** A Java short after overflow. */
  function Short(n: int): int { (n + 0x8000) % 0x1_0000 - 0x8000 }

  /** A Java int after overflow. */
  function Int32(n: int): int { (n + 0x8000_0000) % 0x1_0000_0000 - 0x8000_0000 }

  /** A Java short is the one 16-bit value that differs by a multiple of 2^16. */
  lemma ShortIs(n: int, r: int)
    ensures r == Short(n) <==> -0x8000 <= r < 0x8000 && (r - n) % 0x1_0000 == 0
  {
  }

  lemma Int32Is(n: int, r: int)
    ensures r == Int32(n) <==> -0x8000_0000 <= r < 0x8000_0000 && (r - n) % 0x1_0000_0000 == 0
  {
  }

  // ---------------------------------------------------------------- numbers and their text

  lemma {:induction false} FirstDigit(n: nat)
    ensures Digits(n) != [] && '0' <= Digits(n)[0] <= '9'
  {
    if n >= 10 { FirstDigit(n / 10); }
  }

  lemma {:induction false} ValueOfDigits(n: nat)
    ensures Value(Digits(n)) == Some(n)
  {
    var front: string := if n < 10 then [] else Digits(n / 10);
    if n >= 10 { ValueOfDigits(n / 10); }
    assert Digits(n)[..|Digits(n)| - 1] == front;
    assert Value(front) == Some(n / 10);
  }

  lemma ParseText(s: string, digits: string, v: nat, n: int)
    requires digits != [] && '0' <= digits[0] <= '9' && Value(digits) == Some(v) && -0x8000_0000 <= n < 0x8000_0000
    requires if n < 0 then s == "-" + digits && v + n == 0 else s == digits && v == n
    ensures ParseInt(s) == Some(n)
  {
    if n < 0 { assert s[0] == '-' && s[1..] == digits; }
  }

  /** A number that an int can hold is read back from its decimal text. */
  lemma ParseDecimal(n: int)
    requires -0x8000_0000 <= n < 0x8000_0000
    ensures ParseInt(Decimal(n)) == Some(n)
  {
    var v: nat := if n < 0 then -n else n;
    FirstDigit(v);
    ValueOfDigits(v);
    ParseText(Decimal(n), Digits(v), v, n);
  }
}
