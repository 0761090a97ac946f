/** The logout handshake of the client's two threads over their shared flags.

    One thread reads lines from the keyboard and sends them, the other decodes replies.  Every access to
    a shared flag is one step, the two queues of the connection are first-in first-out, and the server
    answers every LOGOUT request exactly once.  Flag writes are visible to the other thread at once. */
module LogoutHandshake {
  import CE = ClientEncoder

  /** `line.substr(0, n)`. */
  function Prefix(line: string, n: nat): string { if n <= |line| then line[..n] else line }

  /** The encoder makes a LOGOUT request of the line. */
  predicate IsLogout(line: string) { CE.Word(line) == "LOGOUT" }

  /** The keyboard thread waits for an answer after sending the line. */
  predicate Waits(line: string) { Prefix(line, 7) == "LOGOUT" }

  datatype Reply = AckLogout | ErrorLogout | OtherReply

  datatype Keyboard =
    | Testing                // before the loop test
    | Typing                 // in getline
    | Sending(line: string)  // the line is encoded but not sent
    | Comparing(line: string)
    | WaitTerminate          // before reading terminate in the inner loop
    | WaitFailed             // before reading logoutFailed in the inner loop
    | ResetSent
    | ResetFailed
    | Left

  datatype Socket = SocketTesting | Decoding | Acked | SocketLeft

  datatype Client = Client(
    keys: Keyboard,
    sock: Socket,
    terminate: bool,
    logoutSent: bool,
    logoutFailed: bool,
    requests: seq<string>, // lines on their way to the server
    replies: seq<Reply>)   // messages on their way to the client

  datatype Action =
    | KeyTest | Type(line: string) | SendLine | Compare | TestTerminate | TestFailed | ClearSent | ClearFailed
    | SocketTest | Decode | AfterAck(shownAsAck: bool)
    | Serve(answers: seq<Reply>) | Notify

  const START: Client := Client(Testing, SocketTesting, false, false, false, [], [])

  function Logouts(lines: seq<string>): nat {
    if lines == [] then 0 else (if IsLogout(lines[0]) then 1 else 0) + Logouts(lines[1..])
  }

  function Answers(rs: seq<Reply>): nat {
    if rs == [] then 0 else (if rs[0].OtherReply? then 0 else 1) + Answers(rs[1..])
  }

  predicate Enabled(c: Client, x: Action) {
    match x
    case KeyTest => c.keys.Testing?
    case Type(_) => c.keys.Typing?
    case SendLine => c.keys.Sending?
    case Compare => c.keys.Comparing?
    case TestTerminate => c.keys.WaitTerminate?
    case TestFailed => c.keys.WaitFailed?
    case ClearSent => c.keys.ResetSent?
    case ClearFailed => c.keys.ResetFailed?
    case SocketTest => c.sock.SocketTesting?
    case Decode => c.sock.Decoding? && c.replies != []
    case AfterAck(_) => c.sock.Acked?
    case Serve(answers) => c.requests != [] && Answers(answers) == if IsLogout(c.requests[0]) then 1 else 0
    case Notify => true
  }

  function Apply(c: Client, x: Action): Client
    requires Enabled(c, x)
  {
    match x
    case KeyTest => c.(keys := if c.terminate then Left else Typing)
    case Type(line) => c.(keys := Sending(line), logoutSent := c.logoutSent || IsLogout(line))
    case SendLine =>
      c.(keys := Comparing(c.keys.line),
         requests := if CE.Encode(c.keys.line) == [] then c.requests else c.requests + [c.keys.line])
    case Compare => c.(keys := if Waits(c.keys.line) then WaitTerminate else Testing)
    case TestTerminate => c.(keys := if c.terminate then ResetSent else WaitFailed)
    case TestFailed => c.(keys := if c.logoutFailed then ResetSent else WaitTerminate)
    case ClearSent => c.(logoutSent := false, keys := ResetFailed)
    case ClearFailed => c.(logoutFailed := false, keys := Testing)
    case SocketTest => c.(sock := if c.terminate then SocketLeft else Decoding)
    case Decode =>
      (match c.replies[0]
       case AckLogout => c.(replies := c.replies[1..], terminate := true, sock := Acked)
       case ErrorLogout => c.(replies := c.replies[1..], logoutFailed := true, sock := SocketTesting)
       case OtherReply => c.(replies := c.replies[1..], sock := SocketTesting))
    case AfterAck(shownAsAck) =>
      // while (!shouldTerminate() && !isLogOutSent()), then close
      if shownAsAck && !c.terminate && !c.logoutSent then c else c.(sock := SocketTesting)
    case Serve(answers) => c.(requests := c.requests[1..], replies := c.replies + answers)
    case Notify => c.(replies := c.replies + [OtherReply])
  }

  predicate CanRun(c: Client, xs: seq<Action>)
    decreases |xs|
  {
    xs == [] || (Enabled(c, xs[0]) && CanRun(Apply(c, xs[0]), xs[1..]))
  }

  function RunAll(c: Client, xs: seq<Action>): Client
    requires CanRun(c, xs)
    decreases |xs|
  {
    if xs == [] then c else RunAll(Apply(c, xs[0]), xs[1..])
  }

  /** LOGOUT lines are typed without anything behind the word. */
  predicate Exact(line: string) { IsLogout(line) ==> line == "LOGOUT" }

  predicate TypedExactly(xs: seq<Action>) { forall i :: 0 <= i < |xs| && xs[i].Type? ==> Exact(xs[i].line) }

  // ---------------------------------------------------------------- the invariant

  /** LOGOUT requests without an answer. */
  function Awaited(c: Client): nat { Logouts(c.requests) + Answers(c.replies) }

  /** ... plus the answers whose flag is still set. */
  function Total(c: Client): nat {
    Awaited(c) + (if c.terminate then 1 else 0) + (if c.logoutFailed then 1 else 0)
  }

  /** Where the keyboard thread is says how many LOGOUTs are under way. */
  predicate KeysOk(c: Client) {
    match c.keys
    case Testing => Awaited(c) == 0 && !c.logoutFailed && !c.logoutSent
    case Typing => Total(c) == 0 && !c.logoutSent
    case Sending(line) => Total(c) == 0 && Exact(line) && c.logoutSent == IsLogout(line)
    case Comparing(line) => Exact(line) && c.logoutSent == IsLogout(line) && Total(c) == if IsLogout(line) then 1 else 0
    case WaitTerminate => Total(c) == 1 && c.logoutSent
    case WaitFailed => Total(c) == 1 && c.logoutSent
    case ResetSent => Awaited(c) == 0 && Total(c) == 1
    case ResetFailed => Awaited(c) == 0 && Total(c) == 1 && !c.logoutSent
    case Left => Awaited(c) == 0 && c.terminate && !c.logoutFailed && !c.logoutSent
  }

  predicate Inv(c: Client) {
    KeysOk(c) && (c.sock.Acked? || c.sock.SocketLeft? ==> c.terminate) && (c.sock.Decoding? ==> !c.terminate)
  }

  lemma {:induction false} LogoutsAppend(a: seq<string>, b: seq<string>)
    ensures Logouts(a + b) == Logouts(a) + Logouts(b)
  {
    if a == [] {
      assert a + b == b;
    } else {
      LogoutsAppend(a[1..], b);
      assert (a + b)[1..] == a[1..] + b;
    }
  }

  lemma {:induction false} AnswersAppend(a: seq<Reply>, b: seq<Reply>)
    ensures Answers(a + b) == Answers(a) + Answers(b)
  {
    if a == [] {
      assert a + b == b;
    } else {
      AnswersAppend(a[1..], b);
      assert (a + b)[1..] == a[1..] + b;
    }
  }

  /** The comparison with the first seven characters accepts exactly the bare word. */
  lemma WaitsIff(line: string)
    ensures Waits(line) <==> line == "LOGOUT"
    ensures Waits(line) ==> IsLogout(line) && CE.Encode(line) != []
  {
    if |line| >= 7 {
      assert |line[..7]| == 7;
    }
    if line == "LOGOUT" { CE.NoSpace(line); }
  }

  lemma LogoutIsSent(line: string)
    requires IsLogout(line)
    ensures CE.Encode(line) != []
  {
  }

  lemma StepSendLine(c: Client)
    requires Inv(c) && c.keys.Sending?
    ensures Inv(Apply(c, SendLine))
  {
    var line := c.keys.line;
    LogoutsAppend(c.requests, [line]);
    assert [line][1..] == [];
    if IsLogout(line) { LogoutIsSent(line); }
  }

  lemma StepServe(c: Client, answers: seq<Reply>)
    requires Inv(c) && Enabled(c, Serve(answers))
    ensures Inv(Apply(c, Serve(answers)))
    ensures Total(Apply(c, Serve(answers))) == Total(c)
  {
    AnswersAppend(c.replies, answers);
  }

  lemma StepInv(c: Client, x: Action)
    requires Inv(c) && Enabled(c, x) && (x.Type? ==> Exact(x.line))
    ensures Inv(Apply(c, x))
  {
    match x
    case SendLine => StepSendLine(c);
    case Serve(answers) => StepServe(c, answers);
    case Notify => AnswersAppend(c.replies, [OtherReply]); assert [OtherReply][1..] == [];
    case Compare => WaitsIff(c.keys.line);
    case _ =>
  }

  lemma {:induction false} RunInv(c: Client, xs: seq<Action>)
    requires Inv(c) && CanRun(c, xs) && TypedExactly(xs)
    ensures Inv(RunAll(c, xs))
    decreases |xs|
  {
    if xs != [] {
      StepInv(c, xs[0]);
      RunInv(Apply(c, xs[0]), xs[1..]);
    }
  }

  ghost predicate Reachable(c: Client) {
    exists xs :: CanRun(START, xs) && TypedExactly(xs) && c == RunAll(START, xs)
  }

  lemma ReachableInv(c: Client)
    requires Reachable(c)
    ensures Inv(c)
  {
    var xs :| CanRun(START, xs) && TypedExactly(xs) && c == RunAll(START, xs);
    RunInv(START, xs);
  }

  // ---------------------------------------------------------------- what the handshake guarantees

  /** LOGOUTs awaiting an answer plus the set flags among logoutFailed and terminate never exceed one. */
  lemma AtMostOne(c: Client)
    requires Reachable(c)
    ensures Total(c) <= 1
  {
    ReachableInv(c);
  }

  /** Between a LOGOUT and its answer the keyboard thread neither reads a line nor sends one. */
  lemma SilentWhileAwaiting(c: Client, x: Action)
    requires Reachable(c) && Enabled(c, x) && (x.Type? || x.SendLine?)
    ensures Awaited(c) == 0
  {
    ReachableInv(c);
  }

  /** No flag is left over when a line is typed: a later LOGOUT cannot take an old failure for its own
      answer, and the wait ends only after the answer has come. */
  lemma NoStaleFlag(c: Client, x: Action)
    requires Reachable(c) && Enabled(c, x)
    ensures x.Type? ==> !c.logoutFailed && !c.logoutSent && !c.terminate
    ensures (x.TestTerminate? || x.TestFailed?) && Apply(c, x).keys.ResetSent? ==>
              Awaited(c) == 0 && (c.terminate <==> !c.logoutFailed)
  {
    ReachableInv(c);
  }

  /** What sets and clears the shared flags: a LOGOUT typed, an answer decoded, a reset; nothing else. */
  lemma FlagsIff(c: Client, x: Action)
    requires Enabled(c, x)
    ensures var c' := Apply(c, x);
            && (c'.terminate <==> c.terminate || (x.Decode? && c.replies[0].AckLogout?))
            && (c'.logoutFailed <==> (c.logoutFailed && !x.ClearFailed?) || (x.Decode? && c.replies[0].ErrorLogout?))
            && (c'.logoutSent <==> (c.logoutSent && !x.ClearSent?) || (x.Type? && IsLogout(x.line)))
  {
  }

  /** A run decodes an acknowledgement of LOGOUT at some point. */
  predicate EverAcked(c: Client, xs: seq<Action>)
    requires CanRun(c, xs)
    decreases |xs|
  {
    xs != [] && ((xs[0].Decode? && c.replies[0].AckLogout?) || EverAcked(Apply(c, xs[0]), xs[1..]))
  }

  lemma {:induction false} TerminatesIff(c: Client, xs: seq<Action>)
    requires CanRun(c, xs)
    ensures RunAll(c, xs).terminate <==> c.terminate || EverAcked(c, xs)
    decreases |xs|
  {
    if xs != [] {
      FlagsIff(c, xs[0]);
      TerminatesIff(Apply(c, xs[0]), xs[1..]);
    }
  }

  lemma StepLeaves(c: Client, x: Action)
    requires Enabled(c, x) && (c.keys.Left? || c.sock.SocketLeft? ==> c.terminate)
    ensures Apply(c, x).keys.Left? || Apply(c, x).sock.SocketLeft? ==> Apply(c, x).terminate
    ensures !c.sock.SocketLeft? && Apply(c, x).sock.SocketLeft? <==> x.SocketTest? && c.terminate
    ensures !c.keys.Left? && Apply(c, x).keys.Left? <==> x.KeyTest? && c.terminate
  {
  }

  lemma {:induction false} RunLeaves(c: Client, xs: seq<Action>)
    requires CanRun(c, xs) && (c.keys.Left? || c.sock.SocketLeft? ==> c.terminate)
    ensures RunAll(c, xs).keys.Left? || RunAll(c, xs).sock.SocketLeft? ==> RunAll(c, xs).terminate
    decreases |xs|
  {
    if xs != [] {
      StepLeaves(c, xs[0]);
      RunLeaves(Apply(c, xs[0]), xs[1..]);
    }
  }

  /** Whatever is typed: a thread that has left its loop has seen an acknowledgement of LOGOUT decoded. */
  lemma LeavesOnlyAcked(xs: seq<Action>)
    requires CanRun(START, xs)
    ensures RunAll(START, xs).keys.Left? || RunAll(START, xs).sock.SocketLeft? ==> EverAcked(START, xs)
  {
    RunLeaves(START, xs);
    TerminatesIff(START, xs);
  }

  predicate IsClientStep(x: Action) { !x.Serve? && !x.Notify? && !x.Type? }

  function KeyRank(k: Keyboard): nat {
    match k
    case Left => 0
    case Testing => 1
    case ResetFailed => 2
    case ResetSent => 3
    case WaitTerminate => 4
    case WaitFailed => 5
    case Comparing(_) => 6
    case Sending(_) => 7
    case Typing => 8
  }

  function SocketRank(s: Socket): nat {
    match s
    case SocketLeft => 0
    case SocketTesting => 1
    case Acked => 2
    case Decoding => 3
  }

  /** After the ACK every step of a client thread comes closer to the end of its loop, and no step of the
      server goes back; nothing is read from the keyboard any more. */
  lemma AckStepsDescend(c: Client, x: Action)
    requires Reachable(c) && c.terminate && Enabled(c, x)
    ensures Apply(c, x).terminate && !x.Type?
    ensures KeyRank(Apply(c, x).keys) + SocketRank(Apply(c, x).sock) + (if IsClientStep(x) then 1 else 0)
            <= KeyRank(c.keys) + SocketRank(c.sock)
  {
    ReachableInv(c);
  }

  /** ... and a thread that has not left its loop can always take its next step: both loops exit. */
  lemma AckEndsBothLoops(c: Client)
    requires Reachable(c) && c.terminate
    ensures !c.keys.Left? ==> exists x :: Enabled(c, x) && IsClientStep(x) && Apply(c, x).sock == c.sock
    ensures !c.sock.SocketLeft? ==> exists x :: Enabled(c, x) && IsClientStep(x) && Apply(c, x).keys == c.keys
  {
    ReachableInv(c);
    if !c.keys.Left? {
      var x := match c.keys
        case Testing => KeyTest
        case Comparing(_) => Compare
        case WaitTerminate => TestTerminate
        case WaitFailed => TestFailed
        case ResetSent => ClearSent
        case _ => ClearFailed;
      assert Enabled(c, x) && IsClientStep(x) && Apply(c, x).sock == c.sock;
    }
    if !c.sock.SocketLeft? {
      var x := if c.sock.Acked? then AfterAck(true) else SocketTest;
      assert Enabled(c, x) && IsClientStep(x) && Apply(c, x).keys == c.keys;
    }
  }

  /** While the keyboard waits, the answer is on its way: the request is at the server, or a reply can be
      read, or the socket thread is about to read it, or a flag is set. */
  lemma WaitIsAnswered(c: Client)
    requires Reachable(c) && (c.keys.WaitTerminate? || c.keys.WaitFailed?)
    ensures c.terminate || c.logoutFailed || c.requests != [] || c.replies != []
    ensures !c.terminate && c.replies != [] ==>
              Enabled(c, Decode) || (Enabled(c, SocketTest) && Enabled(Apply(c, SocketTest), Decode))
  {
    ReachableInv(c);
  }

  /** After a failure the keyboard goes back to typing with every flag clear. */
  lemma FailureReturnsToTyping(c: Client)
    requires Reachable(c) && c.keys.WaitFailed? && c.logoutFailed
    ensures var xs := [TestFailed, ClearSent, ClearFailed, KeyTest];
            && CanRun(c, xs) && RunAll(c, xs).keys.Typing?
            && !RunAll(c, xs).logoutFailed && !RunAll(c, xs).logoutSent && Total(RunAll(c, xs)) == 0
  {
    ReachableInv(c);
    var xs := [TestFailed, ClearSent, ClearFailed, KeyTest];
    assert xs[1..] == [ClearSent, ClearFailed, KeyTest] && xs[1..][1..] == [ClearFailed, KeyTest];
    assert xs[1..][1..][1..] == [KeyTest] && [KeyTest][1..] == [];
    var c1 := Apply(c, TestFailed);
    var c2 := Apply(c1, ClearSent);
    var c3 := Apply(c2, ClearFailed);
    var c4 := Apply(c3, KeyTest);
    assert RunAll(c3, [KeyTest]) == RunAll(c4, []);
    assert RunAll(c2, [ClearFailed, KeyTest]) == c4;
  }

  // ---------------------------------------------------------------- lines that are not typed exactly

  /** Any line that starts with the word LOGOUT but does not end there breaks the handshake: the keyboard
      does not wait, and a second LOGOUT goes out before the first is answered. */
  lemma SloppyLineBreaksIt(line: string)
    requires !Exact(line)
    ensures exists xs :: CanRun(START, xs) && Total(RunAll(START, xs)) == 2
  {
    var xs := SecondLogout(line);
    WaitsIff(line);
    LogoutIsSent(line);
    var c1 := START.(keys := Typing);
    var c2 := c1.(keys := Sending(line), logoutSent := true);
    var c3 := c2.(keys := Comparing(line), requests := [line]);
    assert Apply(c2, SendLine) == c3 by { assert [] + [line] == [line]; }
    xs := Prepend(c3, Compare, AfterSloppy(line), xs, TwoLogouts(line));
    xs := Prepend(c2, SendLine, c3, xs, TwoLogouts(line));
    xs := Prepend(c1, Type(line), c2, xs, TwoLogouts(line));
    xs := Prepend(START, KeyTest, c1, xs, TwoLogouts(line));
    TwoAreAwaited(line);
  }

  /** The line was sent and the keyboard thread goes on. */
  function AfterSloppy(line: string): Client { START.(logoutSent := true, requests := [line]) }

  function TwoLogouts(line: string): Client {
    START.(logoutSent := true, keys := Comparing("LOGOUT"), requests := [line, "LOGOUT"])
  }

  lemma TwoAreAwaited(line: string)
    requires IsLogout(line)
    ensures Total(TwoLogouts(line)) == 2
  {
    WaitsIff("LOGOUT");
    assert [line, "LOGOUT"][1..] == ["LOGOUT"] && ["LOGOUT"][1..] == [];
    assert Logouts(["LOGOUT"]) == 1;
  }

  lemma SecondLogout(line: string) returns (xs: seq<Action>)
    ensures CanRun(AfterSloppy(line), xs) && RunAll(AfterSloppy(line), xs) == TwoLogouts(line)
  {
    WaitsIff("LOGOUT");
    var c4 := AfterSloppy(line);
    var c5 := c4.(keys := Typing);
    var c6 := c5.(keys := Sending("LOGOUT"));
    assert Apply(c6, SendLine) == TwoLogouts(line) by { assert [line] + ["LOGOUT"] == [line, "LOGOUT"]; }
    xs := [];
    xs := Prepend(c6, SendLine, TwoLogouts(line), xs, TwoLogouts(line));
    xs := Prepend(c5, Type("LOGOUT"), c6, xs, TwoLogouts(line));
    xs := Prepend(c4, KeyTest, c5, xs, TwoLogouts(line));
  }

  /** A step in front of a run. */
  lemma Prepend(c: Client, x: Action, c': Client, xs: seq<Action>, end: Client) returns (ys: seq<Action>)
    requires Enabled(c, x) && Apply(c, x) == c' && CanRun(c', xs) && RunAll(c', xs) == end
    ensures CanRun(c, ys) && RunAll(c, ys) == end
  {
    ys := [x] + xs;
    assert ys[1..] == xs;
  }
}
