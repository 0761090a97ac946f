/** The client's `Encoder` and the commands a user can type. */
module ClientEncoder {
  import opened Options
  import opened Text
  import opened Framing
  import opened Requests
  import opened RequestText

  function Nulled(s: string): string {
    if s == [] then [] else [if s[0] == ' ' then NUL else s[0]] + Nulled(s[1..])
  }

  function Unspaced(s: string): string {
    if s == [] then [] else (if s[0] == ' ' then [] else [s[0]]) + Unspaced(s[1..])
  }

  /** The first word of the line, and what follows the space after it. */
  function Word(line: string): string { line[..IndexOf(line, ' ')] }

  function Body(line: string): string {
    var i := IndexOf(line, ' ');
    if i < |line| then line[i + 1..] else []
  }

  function EncodeWord(word: string, body: string): Bytes {
    match word
    case "REGISTER" => "01" + Nulled(body) + [NUL, END]
    case "LOGIN" => "02" + Nulled(body) + [END]
    case "LOGOUT" => "03" + [END]
    case "FOLLOW" => "04" + Unspaced(body) + [NUL, END]
    case "POST" => "05" + body + [NUL, END]
    case "PM" => "06" + body + [NUL, END]
    case "LOGSTAT" => "07" + [END]
    case "STAT" => "08" + body + [NUL, END]
    case "BLOCK" => "12" + body + [NUL, END]
    case _ => []
  }

  /** The bytes sent for one typed line; an unknown first word sends nothing. */
  function Encode(line: string): Bytes { EncodeWord(Word(line), Body(line)) }

  const WORDS: set<string> := {"REGISTER", "LOGIN", "LOGOUT", "FOLLOW", "POST", "PM", "LOGSTAT", "STAT", "BLOCK"}

  datatype Command =
    | RegisterCmd(name: string, password: string, birthday: string)
    | LoginCmd(name: string, password: string, captcha: string)
    | LogoutCmd
    | FollowCmd(action: char, name: string)
    | PostCmd(text: string)
    | PmCmd(name: string, text: string)
    | LogstatCmd
    | StatCmd(names: string)
    | BlockCmd(name: string)
    | UnknownCmd(word: string, rest: string)

  predicate IsText(s: string) { NUL !in s && END !in s }

  predicate IsWord(s: string) { s != [] && ' ' !in s && IsText(s) }

  predicate WellFormed(c: Command) {
    match c
    case RegisterCmd(name, password, birthday) => IsWord(name) && IsWord(password) && IsWord(birthday)
    case LoginCmd(name, password, captcha) => IsWord(name) && IsWord(password) && IsWord(captcha)
    case LogoutCmd => true
    case FollowCmd(action, name) => IsWord([action]) && IsWord(name)
    case PostCmd(text) => IsText(text)
    case PmCmd(name, text) => IsWord(name) && IsText(text)
    case LogstatCmd => true
    case StatCmd(names) => IsText(names)
    case BlockCmd(name) => IsWord(name)
    case UnknownCmd(word, rest) => ' ' !in word && word !in WORDS
  }

  /** The line a user types for the command. */
  function Line(c: Command): string {
    match c
    case RegisterCmd(name, password, birthday) => "REGISTER" + " " + (name + " " + password + " " + birthday)
    case LoginCmd(name, password, captcha) => "LOGIN" + " " + (name + " " + password + " " + captcha)
    case LogoutCmd => "LOGOUT"
    case FollowCmd(action, name) => "FOLLOW" + " " + ([action] + " " + name)
    case PostCmd(text) => "POST" + " " + text
    case PmCmd(name, text) => "PM" + " " + (name + " " + text)
    case LogstatCmd => "LOGSTAT"
    case StatCmd(names) => "STAT" + " " + names
    case BlockCmd(name) => "BLOCK" + " " + name
    case UnknownCmd(word, rest) => word + " " + rest
  }

  /** The frame the command becomes on the wire, without the delimiter. */
  function Frame(c: Command): Bytes
    requires !c.UnknownCmd?
  {
    match c
    case RegisterCmd(name, password, birthday) => "01" + (name + [NUL] + password + [NUL] + birthday + [NUL])
    case LoginCmd(name, password, captcha) => "02" + (name + [NUL] + password + [NUL] + captcha)
    case LogoutCmd => "03"
    case FollowCmd(action, name) => "04" + ([action] + (name + [NUL]))
    case PostCmd(text) => "05" + (text + [NUL])
    case PmCmd(name, text) => "06" + (name + " " + text + [NUL])
    case LogstatCmd => "07"
    case StatCmd(names) => "08" + (names + [NUL])
    case BlockCmd(name) => "12" + (name + [NUL])
  }

  /** The request the server is meant to see. */
  function Meaning(c: Command): Request
    requires !c.UnknownCmd?
  {
    match c
    case RegisterCmd(name, password, birthday) => Register(name, password, birthday)
    case LoginCmd(name, password, captcha) => Login(name, password, captcha)
    case LogoutCmd => Logout
    case FollowCmd(action, name) => Follow(action, name + [NUL])
    case PostCmd(text) => Post(text)
    case PmCmd(name, text) => Pm(name + " " + text)
    case LogstatCmd => Logstat
    case StatCmd(_) => Stat
    case BlockCmd(name) => Block(name + [NUL])
  }

  // ---------------------------------------------------------------- what the encoder writes

  lemma {:induction false} FirstSpace(word: string, body: string)
    requires ' ' !in word
    ensures IndexOf(word + " " + body, ' ') == |word|
    ensures Word(word + " " + body) == word && Body(word + " " + body) == body
  {
    var line := word + " " + body;
    if word != [] {
      FirstSpace(word[1..], body);
      assert line[1..] == word[1..] + " " + body;
      assert line[0] == word[0] && word[0] in word;
    }
    assert line[..|word|] == word && line[|word| + 1..] == body;
  }

  lemma {:induction false} NoSpace(word: string)
    requires ' ' !in word
    ensures IndexOf(word, ' ') == |word| && Word(word) == word && Body(word) == []
  {
    if word != [] { NoSpace(word[1..]); }
  }

  /** Exactly the spaces become NUL. */
  lemma {:induction false} NulledAt(s: string, i: nat)
    requires i < |s|
    ensures |Nulled(s)| == |s| && Nulled(s)[i] == if s[i] == ' ' then NUL else s[i]
  {
    if |s| > 1 { NulledAt(s[1..], if i > 0 then i - 1 else 0); }
  }

  /** Exactly the spaces are dropped: every other character stays, in order. */
  lemma {:induction false} UnspacedAppend(s: string, t: string)
    ensures Unspaced(s + t) == Unspaced(s) + Unspaced(t)
    ensures ' ' !in Unspaced(s)
  {
    if s == [] {
      assert s + t == t;
    } else {
      var first := if s[0] == ' ' then [] else [s[0]];
      UnspacedAppend(s[1..], t);
      assert (s + t)[0] == s[0] && (s + t)[1..] == s[1..] + t;
      JoinRight(first, Unspaced(s[1..]), Unspaced(t));
    }
  }

  lemma JoinRight(a: string, b: string, c: string)
    ensures a + (b + c) == (a + b) + c
  {
  }

  lemma {:induction false} NulledWord(w: string, rest: string)
    requires ' ' !in w
    ensures Nulled(w + rest) == w + Nulled(rest)
  {
    if w == [] {
      assert w + rest == rest;
    } else {
      NulledWord(w[1..], rest);
      assert (w + rest)[1..] == w[1..] + rest;
      assert w[0] in w;
    }
  }

  lemma {:induction false} UnspacedWord(w: string)
    requires ' ' !in w
    ensures Unspaced(w) == w
  {
    if w != [] { UnspacedWord(w[1..]); }
  }

  lemma NulledCut(w: string, rest: string)
    requires ' ' !in w
    ensures Nulled(w + " " + rest) == w + [NUL] + Nulled(rest)
  {
    assert w + " " + rest == w + (" " + rest);
    NulledWord(w, " " + rest);
    assert (" " + rest)[1..] == rest;
    assert w + ([NUL] + Nulled(rest)) == w + [NUL] + Nulled(rest);
  }

  lemma JoinThree(a: string, cut: string, b: string, c: string)
    ensures a + cut + b + cut + c == a + cut + (b + cut + c)
  {
  }

  lemma NulledThree(a: string, b: string, c: string)
    requires ' ' !in a && ' ' !in b && ' ' !in c
    ensures Nulled(a + " " + b + " " + c) == a + [NUL] + b + [NUL] + c
  {
    JoinThree(a, " ", b, c);
    NulledCut(a, b + " " + c);
    NulledCut(b, c);
    assert c + [] == c;
    NulledWord(c, []);
    JoinThree(a, [NUL], b, c);
  }

  lemma UnspacedAction(action: char, name: string)
    requires action != ' ' && ' ' !in name
    ensures Unspaced([action] + " " + name) == [action] + name
  {
    assert ([action] + " " + name)[1..] == " " + name;
    assert (" " + name)[1..] == name;
    UnspacedWord(name);
    assert Unspaced(" " + name) == name;
  }

  lemma EncodeLine(word: string, body: string)
    requires ' ' !in word
    ensures Encode(word + " " + body) == EncodeWord(word, body)
  {
    FirstSpace(word, body);
  }

  lemma EncodeBare(word: string)
    requires ' ' !in word
    ensures Encode(word) == EncodeWord(word, [])
  {
    NoSpace(word);
  }

  lemma EncodeRegister(name: string, password: string, birthday: string)
    requires WellFormed(RegisterCmd(name, password, birthday))
    ensures var c := RegisterCmd(name, password, birthday); Encode(Line(c)) == Frame(c) + [END]
  {
    EncodeLine("REGISTER", name + " " + password + " " + birthday);
    NulledThree(name, password, birthday);
  }

  lemma EncodeLogin(name: string, password: string, captcha: string)
    requires WellFormed(LoginCmd(name, password, captcha))
    ensures var c := LoginCmd(name, password, captcha); Encode(Line(c)) == Frame(c) + [END]
  {
    EncodeLine("LOGIN", name + " " + password + " " + captcha);
    NulledThree(name, password, captcha);
  }

  lemma EncodeFollow(action: char, name: string)
    requires WellFormed(FollowCmd(action, name))
    ensures var c := FollowCmd(action, name); Encode(Line(c)) == Frame(c) + [END]
  {
    EncodeLine("FOLLOW", [action] + " " + name);
    assert action in [action];
    UnspacedAction(action, name);
    FollowBytes([action], name);
  }

  lemma FollowBytes(action: string, name: string)
    ensures "04" + (action + name) + [NUL, END] == "04" + (action + (name + [NUL])) + [END]
  {
    JoinRight(action, name, [NUL]);
  }

  /** The commands whose body is sent as it is. */
  lemma TextWords(body: string)
    ensures EncodeWord("POST", body) == "05" + body + [NUL, END]
    ensures EncodeWord("PM", body) == "06" + body + [NUL, END]
    ensures EncodeWord("STAT", body) == "08" + body + [NUL, END]
    ensures EncodeWord("BLOCK", body) == "12" + body + [NUL, END]
  {
  }

  lemma EndOfText(op: string, body: string)
    ensures op + body + [NUL, END] == op + (body + [NUL]) + [END]
  {
  }

  lemma EncodeText(word: string, op: string, body: string)
    requires ' ' !in word && EncodeWord(word, body) == op + body + [NUL, END]
    ensures Encode(word + " " + body) == op + (body + [NUL]) + [END]
  {
    EncodeLine(word, body);
    EndOfText(op, body);
  }

  lemma EncodePost(text: string)
    ensures Encode(Line(PostCmd(text))) == Frame(PostCmd(text)) + [END]
  {
    TextWords(text);
    EncodeText("POST", "05", text);
  }

  lemma EncodePm(name: string, text: string)
    ensures Encode(Line(PmCmd(name, text))) == Frame(PmCmd(name, text)) + [END]
  {
    TextWords(name + " " + text);
    EncodeText("PM", "06", name + " " + text);
  }

  lemma EncodeStat(names: string)
    ensures Encode(Line(StatCmd(names))) == Frame(StatCmd(names)) + [END]
  {
    TextWords(names);
    EncodeText("STAT", "08", names);
  }

  lemma EncodeBlock(name: string)
    ensures Encode(Line(BlockCmd(name))) == Frame(BlockCmd(name)) + [END]
  {
    TextWords(name);
    EncodeText("BLOCK", "12", name);
  }

  lemma EncodeShort(c: Command)
    requires c.LogoutCmd? || c.LogstatCmd?
    ensures Encode(Line(c)) == Frame(c) + [END]
  {
    if c.LogoutCmd? { EncodeBare("LOGOUT"); } else { EncodeBare("LOGSTAT"); }
  }

  lemma UnknownWord(word: string, body: string)
    requires word !in WORDS
    ensures EncodeWord(word, body) == []
  {
  }

  lemma EncodeUnknown(word: string, rest: string)
    requires ' ' !in word && word !in WORDS
    ensures Encode(Line(UnknownCmd(word, rest))) == []
  {
    UnknownWord(word, rest);
    EncodeLine(word, rest);
  }

  /** The encoder writes the command's frame and the delimiter; unknown commands write nothing. */
  lemma EncodeIsFrame(c: Command)
    requires WellFormed(c)
    ensures c.UnknownCmd? ==> Encode(Line(c)) == []
    ensures !c.UnknownCmd? ==> Encode(Line(c)) == Frame(c) + [END]
  {
    match c
    case UnknownCmd(word, rest) => EncodeUnknown(word, rest);
    case LogoutCmd => EncodeShort(c);
    case LogstatCmd => EncodeShort(c);
    case RegisterCmd(name, password, birthday) => EncodeRegister(name, password, birthday);
    case LoginCmd(name, password, captcha) => EncodeLogin(name, password, captcha);
    case FollowCmd(action, name) => EncodeFollow(action, name);
    case PostCmd(text) => EncodePost(text);
    case PmCmd(name, text) => EncodePm(name, text);
    case StatCmd(names) => EncodeStat(names);
    case BlockCmd(name) => EncodeBlock(name);
  }

  // ---------------------------------------------------------------- what the server reads

  lemma FromLeft(a: string, cut: string, b: string, c: string, end: string)
    ensures a + cut + b + cut + c + end == a + cut + (b + cut + (c + end))
  {
  }

  lemma ParseRegister(a: string, b: string, c: string)
    requires NUL !in a && NUL !in b && NUL !in c && c != ""
    ensures Parse("01" + (a + [NUL] + b + [NUL] + c + [NUL])) == Some(Register(a, b, c))
  {
    FromLeft(a, [NUL], b, c, [NUL]);
    FieldsAre(a, b, c, [NUL]);
  }

  lemma ParseLogin(a: string, b: string, c: string)
    requires NUL !in a && NUL !in b && NUL !in c && c != ""
    ensures Parse("02" + (a + [NUL] + b + [NUL] + c)) == Some(Login(a, b, c))
  {
    FromLeft(a, [NUL], b, c, "");
    FieldsAre(a, b, c, "");
    assert a + [NUL] + b + [NUL] + c + "" == a + [NUL] + b + [NUL] + c;
  }

  lemma ParseBare()
    ensures Parse("03") == Some(Logout) && Parse("07") == Some(Logstat)
  {
    assert "03" + "" == "03" && "07" + "" == "07";
    RestIs("");
  }

  /** The server takes the frame apart into the fields of the command. */
  lemma ParseIsMeaning(c: Command)
    requires WellFormed(c) && !c.UnknownCmd?
    ensures Parse(Frame(c)) == Some(Meaning(c))
  {
    match c
    case RegisterCmd(name, password, birthday) => ParseRegister(name, password, birthday);
    case LoginCmd(name, password, captcha) => ParseLogin(name, password, captcha);
    case LogoutCmd => ParseBare();
    case FollowCmd(action, name) => ActionIs(action, name + [NUL]);
    case PostCmd(text) => TextIs(text, NUL);
    case PmCmd(name, text) => TextIs(name + " " + text, NUL);
    case LogstatCmd => ParseBare();
    case StatCmd(names) => RestIs(names + [NUL]);
    case BlockCmd(name) => RestIs(name + [NUL]);
  }

  lemma FrameIsClean(c: Command)
    requires WellFormed(c) && !c.UnknownCmd?
    ensures Clean(Frame(c))
  {
    if c.FollowCmd? { assert c.action in [c.action]; }
  }

  // ---------------------------------------------------------------- the round trip

  function EncodeAll(cs: seq<Command>): Bytes {
    if cs == [] then [] else EncodeAll(cs[..|cs| - 1]) + Encode(Line(cs[|cs| - 1]))
  }

  function FramesOf(cs: seq<Command>): seq<Bytes> {
    if cs == [] then []
    else FramesOf(cs[..|cs| - 1]) + if cs[|cs| - 1].UnknownCmd? then [] else [Frame(cs[|cs| - 1])]
  }

  function MeaningsOf(cs: seq<Command>): seq<Request> {
    if cs == [] then []
    else MeaningsOf(cs[..|cs| - 1]) + if cs[|cs| - 1].UnknownCmd? then [] else [Meaning(cs[|cs| - 1])]
  }

  function ParseAll(ms: seq<Bytes>): seq<Option<Request>> {
    if ms == [] then [] else ParseAll(ms[..|ms| - 1]) + [Parse(ms[|ms| - 1])]
  }

  function Somes(rs: seq<Request>): seq<Option<Request>> {
    if rs == [] then [] else Somes(rs[..|rs| - 1]) + [Some(rs[|rs| - 1])]
  }

  predicate AllWellFormed(cs: seq<Command>) { forall i :: 0 <= i < |cs| ==> WellFormed(cs[i]) }

  /** One more clean frame on the wire. */
  lemma AddFrame(s: Bytes, f: Bytes)
    requires Clean(f) && Rest(s) == []
    ensures Frames(s + (f + [END])) == Frames(s) + [f] && Rest(s + (f + [END])) == []
  {
    CleanStep(s, f);
    FramesSnoc(s + f, END);
    Regroup(s, f, [END]);
    NothingBefore(Rest(s), f);
  }

  lemma NothingBefore(a: Bytes, b: Bytes)
    requires a == []
    ensures a + b == b
  {
  }

  lemma Regroup(a: Bytes, b: Bytes, c: Bytes)
    ensures a + (b + c) == a + b + c
  {
  }

  lemma {:induction false} CommandsAreFramed(cs: seq<Command>)
    requires AllWellFormed(cs)
    ensures Frames(EncodeAll(cs)) == FramesOf(cs) && Rest(EncodeAll(cs)) == []
  {
    if cs != [] {
      var init, c := cs[..|cs| - 1], cs[|cs| - 1];
      CommandsAreFramed(init);
      EncodeIsFrame(c);
      if c.UnknownCmd? {
        assert EncodeAll(init) + [] == EncodeAll(init);
      } else {
        FrameIsClean(c);
        AddFrame(EncodeAll(init), Frame(c));
      }
    }
  }

  lemma ParseSnoc(ms: seq<Bytes>, m: Bytes)
    ensures ParseAll(ms + [m]) == ParseAll(ms) + [Parse(m)]
  {
    assert (ms + [m])[..|ms|] == ms;
  }

  lemma SomesSnoc(rs: seq<Request>, r: Request)
    ensures Somes(rs + [r]) == Somes(rs) + [Some(r)]
  {
    assert (rs + [r])[..|rs|] == rs;
  }

  lemma {:induction false} FramesAreUnderstood(cs: seq<Command>)
    requires AllWellFormed(cs)
    ensures ParseAll(FramesOf(cs)) == Somes(MeaningsOf(cs))
  {
    if cs != [] {
      var init, c := cs[..|cs| - 1], cs[|cs| - 1];
      FramesAreUnderstood(init);
      if c.UnknownCmd? {
        assert FramesOf(init) + [] == FramesOf(init) && MeaningsOf(init) + [] == MeaningsOf(init);
      } else {
        ParseIsMeaning(c);
        ParseSnoc(FramesOf(init), Frame(c));
        SomesSnoc(MeaningsOf(init), Meaning(c));
      }
    }
  }

  /** Round trip: the server reads from the bytes of any list of typed commands one request per known
      command, with the same fields and in the same order, and nothing is left over. */
  lemma CommandRoundTrip(cs: seq<Command>)
    requires AllWellFormed(cs)
    ensures ParseAll(Frames(EncodeAll(cs))) == Somes(MeaningsOf(cs)) && Rest(EncodeAll(cs)) == []
  {
    CommandsAreFramed(cs);
    FramesAreUnderstood(cs);
  }
}
