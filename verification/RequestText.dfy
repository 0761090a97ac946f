/** What the splitting of a request comes to, stated by the text that was put together: the fields between the
    separators, the bodies behind the opcodes, and the numbers that can be read. */
module RequestText {
  import opened Options
  import opened Text
  import opened Requests

  // ---------------------------------------------------------------- split

  /** The texts with a separator between each two. */
  function Joined(ps: seq<string>): string {
    if ps == [] then "" else if |ps| == 1 then ps[0] else ps[0] + [NUL] + Joined(ps[1..])
  }

  predicate Separate(ps: seq<string>) { forall i :: 0 <= i < |ps| ==> NUL !in ps[i] }

  lemma {:induction false} PiecesOf(ps: seq<string>)
    requires ps != [] && Separate(ps)
    ensures Pieces(Joined(ps)) == ps && (NUL in Joined(ps) <==> |ps| > 1)
  {
    if |ps| == 1 {
      PiecesOne(ps[0]);
    } else {
      PiecesOf(ps[1..]);
      PiecesJoin(ps[0], Joined(ps[1..]));
      assert Joined(ps)[|ps[0]|] == NUL;
    }
  }

  lemma {:induction false} DropIs(ps: seq<string>)
    ensures var kept := DropTrailingEmpty(ps);
            && kept <= ps && (forall i :: |kept| <= i < |ps| ==> ps[i] == "")
            && (kept != [] ==> kept[|kept| - 1] != "")
  {
    if ps != [] && ps[|ps| - 1] == "" { DropIs(ps[..|ps| - 1]); }
  }

  /** `split` returns the texts that were joined, without the empty ones at the end; a text without separator stays
      as it is, the empty one included. */
  lemma SplitIs(ps: seq<string>)
    requires ps != [] && Separate(ps)
    ensures var fields := Split(Joined(ps));
            if |ps| == 1 then fields == ps
            else
              && fields <= ps && (forall i :: |fields| <= i < |ps| ==> ps[i] == "")
              && (fields != [] ==> fields[|fields| - 1] != "")
  {
    PiecesOf(ps);
    DropIs(ps);
  }

  /** ... and every text is joined of such texts. */
  lemma {:induction false} PiecesJoined(s: string)
    ensures Joined(Pieces(s)) == s && Separate(Pieces(s))
  {
    if s != [] {
      PiecesJoined(s[1..]);
      MorePieces(s[0], s[1..], Pieces(s[1..]));
      assert s == [s[0]] + s[1..];
    }
  }

  lemma MorePieces(c: char, t: string, ps: seq<string>)
    requires ps != [] && Separate(ps) && Joined(ps) == t
    ensures var qs := if c == NUL then [""] + ps else [[c] + ps[0]] + ps[1..];
            Joined(qs) == [c] + t && Separate(qs)
  {
    if c == NUL { EmptyBefore(ps); } else { PieceGrows(c, ps); }
  }

  lemma EmptyBefore(ps: seq<string>)
    requires ps != [] && Separate(ps)
    ensures Joined([""] + ps) == [NUL] + Joined(ps) && Separate([""] + ps)
  {
    assert ([""] + ps)[1..] == ps;
    assert "" + [NUL] == [NUL];
  }

  lemma PieceGrows(c: char, ps: seq<string>)
    requires ps != [] && Separate(ps) && c != NUL
    ensures Joined([[c] + ps[0]] + ps[1..]) == [c] + Joined(ps) && Separate([[c] + ps[0]] + ps[1..])
  {
    var qs := [[c] + ps[0]] + ps[1..];
    assert qs[0] == [c] + ps[0] && qs[1..] == ps[1..];
    forall i | 0 <= i < |qs| ensures NUL !in qs[i] { assert NUL !in ps[i]; }
  }

  // ---------------------------------------------------------------- opcodes

  lemma Opcode(op: string, body: string)
    requires |op| == 2
    ensures Parse(op + body) == Fields(op, body)
  {
    assert (op + body)[..2] == op && (op + body)[2..] == body;
  }

  /** A request cannot be taken apart if and only if it has no opcode, misses one of three fields, or has no body
      where the first or last character is taken off. */
  lemma UnparsableIff(message: string)
    ensures Parse(message) == None <==>
              || |message| < 2
              || (message[..2] in {"01", "02"} && |Split(message[2..])| < 3)
              || (message[..2] in {"04", "05", "06"} && |message| == 2)
  {
  }

  /** The body of a POST or PM loses its last character. */
  lemma TextIs(text: string, c: char)
    ensures Parse("05" + (text + [c])) == Some(Post(text)) && Parse("06" + (text + [c])) == Some(Pm(text))
  {
    Opcode("05", text + [c]);
    Opcode("06", text + [c]);
    assert DropLast(text + [c]) == text;
  }

  /** That of a FOLLOW is cut behind its first character. */
  lemma ActionIs(action: char, rest: string)
    ensures Parse("04" + ([action] + rest)) == Some(Follow(action, rest))
  {
    Opcode("04", [action] + rest);
    assert ([action] + rest)[1..] == rest;
  }

  /** That of a BLOCK is taken whole, and the others are not looked at. */
  lemma RestIs(rest: string)
    ensures Parse("12" + rest) == Some(Block(rest)) && Parse("03" + rest) == Some(Logout)
    ensures Parse("07" + rest) == Some(Logstat) && Parse("08" + rest) == Some(Stat)
  {
    Opcode("12", rest);
    Opcode("03", rest);
    Opcode("07", rest);
    Opcode("08", rest);
  }

  lemma ThreeFields(a: string, b: string, c: string, more: string)
    requires Separate([a, b, c]) && c != "" && (more == "" || more[0] == NUL)
    ensures var fields := Split(a + [NUL] + (b + [NUL] + (c + more)));
            |fields| >= 3 && fields[0] == a && fields[1] == b && fields[2] == c
  {
    var body := a + [NUL] + (b + [NUL] + (c + more));
    assert [a, b, c][0] == a && [a, b, c][1] == b && [a, b, c][2] == c;
    var rest := ThirdPiece(c, more);
    PiecesJoin(b, c + more);
    PiecesJoin(a, b + [NUL] + (c + more));
    var ps := [a] + ([b] + ([c] + rest));
    assert Pieces(body) == ps && ps[0] == a && ps[1] == b && ps[2] == c;
    assert NUL in body by { assert body[|a|] == NUL; }
    DropIs(ps);
  }

  /** The fields of a REGISTER or LOGIN are the first three of the split. */
  lemma FieldsAre(a: string, b: string, c: string, more: string)
    requires Separate([a, b, c]) && c != "" && (more == "" || more[0] == NUL)
    ensures var body := a + [NUL] + (b + [NUL] + (c + more));
            Parse("01" + body) == Some(Register(a, b, c)) && Parse("02" + body) == Some(Login(a, b, c))
  {
    var body := a + [NUL] + (b + [NUL] + (c + more));
    ThreeFields(a, b, c, more);
    Opcode("01", body);
    Opcode("02", body);
  }

  lemma ThirdPiece(c: string, more: string) returns (rest: seq<string>)
    requires NUL !in c && (more == "" || more[0] == NUL)
    ensures Pieces(c + more) == [c] + rest
  {
    if more == "" {
      assert c + more == c;
      PiecesOne(c);
      rest := [];
    } else {
      assert c + more == c + [NUL] + more[1..];
      PiecesJoin(c, more[1..]);
      rest := Pieces(more[1..]);
    }
  }

  // ---------------------------------------------------------------- numbers

  predicate AllDigits(s: string) { forall i :: 0 <= i < |s| ==> '0' <= s[i] <= '9' }

  /** Digits have a value, and nothing else has; one digit more counts the others ten times. */
  lemma {:induction false} ValueIff(s: string)
    ensures Value(s).Some? <==> AllDigits(s)
  {
    if s != [] { ValueIff(s[..|s| - 1]); }
  }

  /** The text is the digits with an optional sign. */
  predicate SignedText(s: string, digits: string, negative: bool) {
    s == (if negative then "-" + digits else digits) || (!negative && s == "+" + digits)
  }

  lemma NumberOf(s: string, digits: string, negative: bool)
    requires digits != [] && AllDigits(digits) && SignedText(s, digits, negative)
    ensures Value(digits).Some?
    ensures var n: int := if negative then 0 - Value(digits).value else Value(digits).value;
            ParseInt(s) == if -0x8000_0000 <= n < 0x8000_0000 then Some(n) else None
  {
    ValueIff(digits);
    if s != digits { assert s[1..] == digits; }
  }

  /** Whatever is read as a number is an optional sign and digits. */
  lemma NumberText(s: string) returns (digits: string, negative: bool)
    requires ParseInt(s).Some?
    ensures digits != [] && AllDigits(digits) && SignedText(s, digits, negative)
  {
    var signed := s[0] == '-' || s[0] == '+';
    digits := if signed then s[1..] else s;
    negative := s[0] == '-';
    ValueIff(digits);
    assert s == [s[0]] + s[1..];
  }
}
