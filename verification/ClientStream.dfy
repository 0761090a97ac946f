/** The client's reader on a whole byte stream: calling `decoder` again and again, whatever part of the
    stream has arrived. */
module ClientStream {
  import opened Options
  import opened Text
  import opened Framing
  import opened ServerMessages
  import opened ClientDecoder

  // ---------------------------------------------------------------- bytes that arrive later

  /** What a decoding result becomes when `t` arrives behind the bytes it was computed from. */
  function Later(d: Decoded, t: Bytes): Decoded {
    match d
    case Got(shown, rest) => Got(shown, rest + t)
    case _ => d
  }

  lemma TakeMore(s: Bytes, n: nat, t: Bytes)
    requires Take(s, n).Some?
    ensures Take(s + t, n) == Some(Taken(Take(s, n).value.bytes, Take(s, n).value.rest + t))
  {
    assert (s + t)[..n] == s[..n] && (s + t)[n..] == s[n..] + t;
  }

  lemma {:induction false} IndexMore(s: string, c: char, t: string)
    requires IndexOf(s, c) < |s|
    ensures IndexOf(s + t, c) == IndexOf(s, c)
  {
    if s[0] != c {
      IndexMore(s[1..], c, t);
      assert (s + t)[1..] == s[1..] + t;
    }
  }

  lemma TakeFrameMore(s: Bytes, t: Bytes)
    requires TakeFrame(s).Some?
    ensures TakeFrame(s + t) == Some(Taken(TakeFrame(s).value.bytes, TakeFrame(s).value.rest + t))
  {
    var i := IndexOf(s, NUL);
    IndexMore(s, NUL, t);
    assert (s + t)[..i] == s[..i] && (s + t)[i + 1..] == s[i + 1..] + t;
  }

  lemma FinishMore(shown: Shown, s: Bytes, t: Bytes)
    requires s != []
    ensures Finish(shown, s + t) == Later(Finish(shown, s), t)
  {
    assert (s + t)[1..] == s[1..] + t;
  }

  lemma NotificationMore(s: Bytes, t: Bytes)
    requires !DecodeNotification(s).Blocked?
    ensures DecodeNotification(s + t) == Later(DecodeNotification(s), t)
  {
    var stat := Take(s, 1).value;
    var user := TakeFrame(stat.rest).value;
    var content := TakeFrame(user.rest).value;
    TakeMore(s, 1, t);
    TakeFrameMore(stat.rest, t);
    TakeFrameMore(user.rest, t);
    FinishMore(if stat.bytes[0] == '1' then PublicNote(user.bytes, content.bytes)
               else PmNote(user.bytes, content.bytes),
               content.rest, t);
  }

  lemma FollowMore(s: Bytes, t: Bytes)
    requires !DecodeFollow(s).Blocked?
    ensures DecodeFollow(s + t) == Later(DecodeFollow(s), t)
  {
    var kind := Take(s, 2).value;
    var name := TakeFrame(kind.rest).value;
    var extra := Take(name.rest, 1).value;
    TakeMore(s, 2, t);
    TakeFrameMore(kind.rest, t);
    TakeMore(name.rest, 1, t);
    FinishMore(FollowNote(kind.bytes, name.bytes), extra.rest, t);
  }

  lemma AckMore(s: Bytes, t: Bytes)
    requires !DecodeAck(s).Blocked?
    ensures DecodeAck(s + t) == Later(DecodeAck(s), t)
  {
    var op := Take(s, 2).value;
    TakeMore(s, 2, t);
    if op.bytes == "04" {
      FollowMore(op.rest, t);
    } else if op.bytes == "07" || op.bytes == "08" {
      TakeMore(op.rest, 8, t);
      FinishMore(StatsNote(op.bytes, Take(op.rest, 8).value.bytes), Take(op.rest, 8).value.rest, t);
    } else {
      FinishMore(AckNote(op.bytes), op.rest, t);
    }
  }

  /** A decision of the decoder never depends on bytes behind the message it took. */
  lemma DecodeMore(s: Bytes, t: Bytes)
    requires !Decode(s).Blocked?
    ensures Decode(s + t) == Later(Decode(s), t)
  {
    var op := Take(s, 2).value;
    TakeMore(s, 2, t);
    if op.bytes == "09" {
      NotificationMore(op.rest, t);
    } else if op.bytes == "10" {
      AckMore(op.rest, t);
    } else if op.bytes == "11" {
      var code := Take(op.rest, 2).value;
      TakeMore(op.rest, 2, t);
      FinishMore(ErrorNote(code.bytes), code.rest, t);
    }
  }

  /** Every message the decoder takes uses up bytes. */
  lemma DecodeShrinks(s: Bytes)
    ensures Decode(s).Got? ==> |Decode(s).rest| < |s|
  {
  }

  /** On a part of a message the decoder waits: it neither fails nor shows anything. */
  lemma PartOfMessage(m: ServerMessage, k: nat)
    requires Safe(m) && k < |Encode(m)|
    ensures Decode(Encode(m)[..k]) == Blocked
  {
    var whole := Encode(m);
    assert whole == whole[..k] + whole[k..] && whole + [] == whole;
    OneMessage(m, []);
    if !Decode(whole[..k]).Blocked? {
      DecodeMore(whole[..k], whole[k..]);
      assert false;
    }
  }

  // ---------------------------------------------------------------- the stream

  /** What the reader has shown, the bytes it still holds, and whether it met an unknown opcode. */
  datatype Reading = Reading(shown: seq<Shown>, held: Bytes, crashed: bool)

  function Read(s: Bytes): Reading
    decreases |s|
  {
    match Decode(s)
    case Blocked => Reading([], s, false)
    case Crashed => Reading([], s, true)
    case Got(shown, rest) =>
      DecodeShrinks(s);
      var r := Read(rest);
      r.(shown := [shown] + r.shown)
  }

  /** The encoded messages, in order. */
  function Encoded(ms: seq<ServerMessage>): (ps: seq<Bytes>)
    ensures |ps| == |ms| && forall i :: 0 <= i < |ms| ==> ps[i] == Encode(ms[i])
  {
    if ms == [] then [] else [Encode(ms[0])] + Encoded(ms[1..])
  }

  function Images(ms: seq<ServerMessage>): (r: seq<Shown>)
    ensures |r| == |ms| && forall i :: 0 <= i < |ms| ==> r[i] == Image(ms[i])
  {
    if ms == [] then [] else [Image(ms[0])] + Images(ms[1..])
  }

  function Cat(ps: seq<Bytes>): Bytes {
    if ps == [] then [] else ps[0] + Cat(ps[1..])
  }

  /** The stream that carries the messages. */
  function EncodeAll(ms: seq<ServerMessage>): Bytes { Cat(Encoded(ms)) }

  predicate AllSafe(ms: seq<ServerMessage>) { forall i :: 0 <= i < |ms| ==> Safe(ms[i]) }

  /** How many parts are complete in the first `k` bytes of the stream. */
  function Complete(ps: seq<Bytes>, k: nat): (n: nat)
    ensures n <= |ps|
  {
    if ps == [] || k < |ps[0]| then 0 else 1 + Complete(ps[1..], k - |ps[0]|)
  }

  /** Where the part number `n` begins in the stream. */
  function Offset(ps: seq<Bytes>, n: nat): nat
    requires n <= |ps|
  {
    if n == 0 then 0 else |ps[0]| + Offset(ps[1..], n - 1)
  }

  lemma {:induction false} OffsetOfAll(ps: seq<Bytes>)
    ensures Offset(ps, |ps|) == |Cat(ps)| && Complete(ps, |Cat(ps)|) == |ps|
  {
    if ps != [] { OffsetOfAll(ps[1..]); }
  }

  /** `Complete` counts exactly the parts that end within the first `k` bytes. */
  lemma {:induction false} CompleteIff(ps: seq<Bytes>, k: nat, n: nat)
    requires n <= |ps|
    ensures n <= Complete(ps, k) <==> Offset(ps, n) <= k
  {
    if n > 0 {
      if k >= |ps[0]| { CompleteIff(ps[1..], k - |ps[0]|, n - 1); }
    }
  }

  /** The decoder takes `p` as one message, whatever follows, and waits on every part of it. */
  ghost predicate IsMessage(p: Bytes, shown: Shown) {
    && (forall t :: Decode(p + t) == Got(shown, t))
    && (forall k :: 0 <= k < |p| ==> Decode(p[..k]) == Blocked)
  }

  ghost predicate AreMessages(ps: seq<Bytes>, shown: seq<Shown>) {
    |ps| == |shown| && forall i :: 0 <= i < |ps| ==> IsMessage(ps[i], shown[i])
  }

  lemma SafeIsMessage(m: ServerMessage)
    requires Safe(m)
    ensures IsMessage(Encode(m), Image(m))
  {
    forall t ensures Decode(Encode(m) + t) == Got(Image(m), t) { OneMessage(m, t); }
    forall k | 0 <= k < |Encode(m)| ensures Decode(Encode(m)[..k]) == Blocked { PartOfMessage(m, k); }
  }

  lemma ReadGot(s: Bytes, shown: Shown, rest: Bytes)
    requires Decode(s) == Got(shown, rest)
    ensures Read(s) == Read(rest).(shown := [shown] + Read(rest).shown)
  {
  }

  /** The reading of the first `k` bytes of the stream: the first `n` messages are shown and the bytes from `i` on
      are held. */
  predicate IsReading(r: Reading, stream: Bytes, shown: seq<Shown>, k: nat, n: nat, i: nat) {
    i <= k <= |stream| && n <= |shown| && r == Reading(shown[..n], stream[i..k], false)
  }

  lemma {:induction false} ReadParts(ps: seq<Bytes>, shown: seq<Shown>, k: nat)
    requires AreMessages(ps, shown) && k <= |Cat(ps)|
    ensures IsReading(Read(Cat(ps)[..k]), Cat(ps), shown, k, Complete(ps, k), Offset(ps, Complete(ps, k)))
    decreases |ps|
  {
    if ps == [] {
    } else if k < |ps[0]| {
      assert IsMessage(ps[0], shown[0]);
      assert Cat(ps)[..k] == ps[0][..k];
    } else {
      var t := Cat(ps[1..])[..k - |ps[0]|];
      ReadParts(ps[1..], shown[1..], k - |ps[0]|);
      assert IsMessage(ps[0], shown[0]);
      ReadFirst(ps[0], shown[0], t);
      ReadNext(ps, shown, k, Read(t));
      assert Cat(ps)[..k] == ps[0] + t;
    }
  }

  lemma ReadFirst(p: Bytes, shown: Shown, t: Bytes)
    requires IsMessage(p, shown)
    ensures Read(p + t) == Read(t).(shown := [shown] + Read(t).shown)
  {
    ReadGot(p + t, shown, t);
  }

  /** One more message in front of a stream. */
  lemma ReadNext(ps: seq<Bytes>, shown: seq<Shown>, k: nat, r: Reading)
    requires ps != [] && shown != [] && |ps[0]| <= k <= |Cat(ps)|
    requires var j := k - |ps[0]|;
             IsReading(r, Cat(ps[1..]), shown[1..], j, Complete(ps[1..], j), Offset(ps[1..], Complete(ps[1..], j)))
    ensures IsReading(r.(shown := [shown[0]] + r.shown), Cat(ps), shown, k, Complete(ps, k),
                      Offset(ps, Complete(ps, k)))
  {
    var j := k - |ps[0]|;
    var n := Complete(ps[1..], j);
    assert Complete(ps, k) == n + 1;
    Slices(ps[0], Cat(ps[1..]), Offset(ps[1..], n), j, shown, n);
  }

  lemma Slices(first: Bytes, others: Bytes, i: nat, j: nat, shown: seq<Shown>, n: nat)
    requires i <= j <= |others| && n < |shown|
    ensures (first + others)[|first| + i..|first| + j] == others[i..j]
    ensures (first + others)[..|first| + j] == first + others[..j]
    ensures shown[..n + 1] == [shown[0]] + shown[1..][..n]
  {
  }

  /** However much of the stream has arrived, the client has shown exactly the messages that are complete,
      in order, and holds exactly the bytes after them. */
  lemma ShowsWhatIsComplete(ms: seq<ServerMessage>, k: nat)
    requires AllSafe(ms) && k <= |EncodeAll(ms)|
    ensures var n := Complete(Encoded(ms), k);
            && Offset(Encoded(ms), n) <= k
            && Read(EncodeAll(ms)[..k]) == Reading(Images(ms)[..n], EncodeAll(ms)[Offset(Encoded(ms), n)..k], false)
  {
    forall i | 0 <= i < |ms| ensures IsMessage(Encoded(ms)[i], Images(ms)[i]) { SafeIsMessage(ms[i]); }
    ReadParts(Encoded(ms), Images(ms), k);
  }

  /** Client and server stay in step: the decoder turns the concatenated encodings back into exactly the
      messages that were sent, and uses up exactly all bytes. */
  lemma InStep(ms: seq<ServerMessage>)
    requires AllSafe(ms)
    ensures Read(EncodeAll(ms)) == Reading(Images(ms), [], false)
  {
    var s := EncodeAll(ms);
    OffsetOfAll(Encoded(ms));
    ShowsWhatIsComplete(ms, |s|);
    assert s[..|s|] == s && Images(ms)[..|ms|] == Images(ms) && s[|s|..|s|] == [];
  }

  /** The chunks in which a stream arrives do not matter, on any stream at all: reading some bytes and
      going on with what is held and what arrives next is reading everything at once. */
  lemma {:induction false} ChunksDoNotMatter(s: Bytes, t: Bytes)
    ensures Read(s + t) == Read(Read(s).held + t).(shown := Read(s).shown + Read(Read(s).held + t).shown)
    decreases |s|
  {
    match Decode(s)
    case Blocked =>
    case Crashed =>
      DecodeMore(s, t);
    case Got(shown, rest) =>
      DecodeShrinks(s);
      DecodeMore(s, t);
      ReadGot(s, shown, rest);
      ReadGot(s + t, shown, rest + t);
      ChunksDoNotMatter(rest, t);
      Prepend(shown, Read(rest).shown, Read(Read(rest).held + t).shown);
  }

  lemma Prepend(x: Shown, a: seq<Shown>, b: seq<Shown>)
    ensures [x] + (a + b) == ([x] + a) + b
  {
  }

  // ---------------------------------------------------------------- exactly which messages are read back

  lemma AckSafeIff(op: string)
    ensures Decode(Encode(Ack(op))) == Got(AckNote(op), []) <==> Safe(Ack(op))
  {
    var s := op + [END];
    assert Encode(Ack(op)) == "10" + s;
    TakeOf("10", s);
    if Safe(Ack(op)) {
      OneAck(op, []);
      assert Encode(Ack(op)) + [] == Encode(Ack(op));
    }
  }

  lemma ErrorSafeIff(op: string)
    ensures Decode(Encode(Error(op))) == Got(ErrorNote(op), []) <==> Safe(Error(op))
  {
    var s := op + [END];
    assert Encode(Error(op)) == "11" + s;
    TakeOf("11", s);
    if Safe(Error(op)) {
      OneError(op, []);
      assert Encode(Error(op)) + [] == Encode(Error(op));
    }
  }

  /** What is left when a name is read from behind the follow opcode. */
  lemma FollowRest(kind: string, message: string)
    requires |kind| == 2
    ensures var s := message + ([NUL] + [END]);
            var i := IndexOf(s, NUL);
            DecodeFollow(kind + s) == if i + 3 <= |s| then Got(FollowNote(kind, s[..i]), s[i + 3..]) else Blocked
  {
    var s := message + ([NUL] + [END]);
    var i := IndexOf(s, NUL);
    TakeOf(kind, s);
    assert s[|message|] == NUL;
    IndexAtMost(s, NUL, |message|);
    if i + 2 <= |s| {
      assert s[i + 1..][1..] == s[i + 2..];
      if i + 3 <= |s| { assert s[i + 2..][1..] == s[i + 3..]; }
    }
  }

  lemma FollowIs(follow: bool, message: string)
    ensures Decode(Encode(FollowAck(follow, message))) ==
            DecodeFollow((if follow then "00" else "01") + (message + ([NUL] + [END])))
  {
    var s := (if follow then "00" else "01") + (message + ([NUL] + [END]));
    assert Encode(FollowAck(follow, message)) == "10" + ("04" + s);
    TakeOf("10", "04" + s);
    TakeOf("04", s);
  }

  /** The first NUL is the last but two bytes exactly when it is the name's own, at its end. */
  lemma FirstNulEnds(message: string)
    ensures var s := message + ([NUL] + [END]);
            IndexOf(s, NUL) + 3 == |s| <==>
            message != [] && message[|message| - 1] == NUL && NUL !in message[..|message| - 1]
  {
    var s := message + ([NUL] + [END]);
    var i := IndexOf(s, NUL);
    if i + 3 == |s| {
      assert s[i] == message[|message| - 1];
      assert s[..i] == message[..|message| - 1];
    }
    if message != [] && message[|message| - 1] == NUL && NUL !in message[..|message| - 1] {
      var name := message[..|message| - 1];
      assert s == name + ([NUL] + ([NUL] + [END]));
      FirstNul(name, [NUL] + [END]);
    }
  }

  lemma FollowSafeIff(follow: bool, message: string)
    ensures var m := FollowAck(follow, message); Decode(Encode(m)) == Got(Image(m), []) <==> Safe(m)
  {
    var m := FollowAck(follow, message);
    var s := message + ([NUL] + [END]);
    FollowIs(follow, message);
    FollowRest(if follow then "00" else "01", message);
    FirstNulEnds(message);
    if Safe(m) {
      assert s[..|message| - 1] == message[..|message| - 1];
    }
  }

  /** Two frames and a last byte. */
  lemma TwoFrames(s: Bytes, i: nat, j: nat)
    requires i == IndexOf(s, NUL) && i < |s| && j == IndexOf(s[i + 1..], NUL) && i + 1 + j < |s|
    ensures forall p :: 0 <= p < i + 1 + j && p != i ==> s[p] != NUL
  {
    forall p | 0 <= p < i + 1 + j && p != i ensures s[p] != NUL {
      if p < i {
        assert s[p] in s[..i];
      } else {
        assert s[p] == s[i + 1..][..j][p - i - 1];
      }
    }
  }

  /** The second NUL is the last but one byte only if neither field has a NUL. */
  lemma OnlyTwoNuls(s: Bytes, sender: string, content: string, i: nat, j: nat)
    requires |s| == |sender| + |content| + 3 && s[..|sender|] == sender && s[|sender|] == NUL
    requires s[|sender| + 1..|s| - 2] == content
    requires i == IndexOf(s, NUL) && i < |s| && j == IndexOf(s[i + 1..], NUL) && i + 1 + j + 2 == |s|
    ensures NUL !in sender && NUL !in content
  {
    TwoFrames(s, i, j);
    assert |sender| == i;
    forall p | 0 <= p < |sender| ensures sender[p] != NUL { assert sender[p] == s[p]; }
    forall p | 0 <= p < |content| ensures content[p] != NUL { assert content[p] == s[|sender| + 1 + p]; }
  }

  lemma NotificationIs(isPublic: bool, sender: string, content: string)
    ensures Decode(Encode(Notification(isPublic, sender, content))) ==
            DecodeNotification((if isPublic then "1" else "0") + (sender + ([NUL] + (content + ([NUL] + [END])))))
  {
    var m := Notification(isPublic, sender, content);
    var s := (if isPublic then "1" else "0") + (sender + ([NUL] + (content + ([NUL] + [END]))));
    EncodedNotification(isPublic, sender, content, []);
    assert Encode(m) + [] == Encode(m) && [END] + [] == [END];
    TakeOf("09", s);
  }

  lemma FieldsOf(s: Bytes, sender: string, content: string)
    requires s == sender + ([NUL] + (content + ([NUL] + [END])))
    ensures |s| == |sender| + |content| + 3 && s[..|sender|] == sender && s[|sender|] == NUL
    ensures s[|sender| + 1..|s| - 2] == content
  {
  }

  /** What is left when a notification is read. */
  lemma NotificationRest(kind: string, s: Bytes)
    requires |kind| == 1
    ensures var d := DecodeNotification(kind + s);
            var i := IndexOf(s, NUL);
            d.Got? ==>
              i < |s| && var j := IndexOf(s[i + 1..], NUL);
                         i + 1 + j + 2 <= |s| && |d.rest| == |s| - (i + 1 + j + 2)
  {
    TakeOf(kind, s);
  }

  lemma UnsafeNotification(kind: string, s: Bytes, sender: string, content: string)
    requires |kind| == 1 && s == sender + ([NUL] + (content + ([NUL] + [END]))) && (NUL in sender || NUL in content)
    ensures var d := DecodeNotification(kind + s); d.Got? ==> d.rest != []
  {
    NotificationRest(kind, s);
    FieldsOf(s, sender, content);
    var i := IndexOf(s, NUL);
    if i < |s| {
      var j := IndexOf(s[i + 1..], NUL);
      if i + 1 + j + 2 == |s| { OnlyTwoNuls(s, sender, content, i, j); }
    }
  }

  lemma NotificationSafeIff(isPublic: bool, sender: string, content: string)
    ensures var m := Notification(isPublic, sender, content); Decode(Encode(m)) == Got(Image(m), []) <==> Safe(m)
  {
    var m := Notification(isPublic, sender, content);
    if Safe(m) {
      OneMessage(m, []);
      assert Encode(m) + [] == Encode(m);
    } else {
      NotificationIs(isPublic, sender, content);
      UnsafeNotification(if isPublic then "1" else "0", sender + ([NUL] + (content + ([NUL] + [END]))), sender,
                         content);
    }
  }

  lemma RecordIsShown(record: Bytes, pad: Bytes, t: Bytes)
    requires |record| == 8
    ensures Decode("10" + ("07" + (record + ([END] + pad))) + t) == Got(StatsNote("07", record), pad + t)
  {
    var tail := [END] + (pad + t);
    assert "10" + ("07" + (record + ([END] + pad))) + t == "10" + ("07" + (record + tail));
    TakeOf("10", "07" + (record + tail));
    TakeOf("07", record + tail);
    TakeOf(record, tail);
    FinishOf(StatsNote("07", record), pad + t);
  }

  /** The reply to LOGSTAT: the client shows the record and is left with the rest of the array. */
  lemma StatsAreShown(m: ServerMessage, t: Bytes)
    requires m.Stats? && Packs(m)
    ensures Decode(Encode(m) + t) == Got(Image(m), Padding() + t)
  {
    RecordIsShown(RecordIn(m), Padding(), t);
  }

  /** The client reads a message back and uses up exactly its bytes if and only if the message is safe: for every
      message the server can send. */
  lemma SafeIff(m: ServerMessage)
    ensures Decode(Encode(m)) == Got(Image(m), []) <==> Safe(m)
  {
    match m
    case Ack(op) => AckSafeIff(op);
    case Error(op) => ErrorSafeIff(op);
    case FollowAck(follow, message) => FollowSafeIff(follow, message);
    case Notification(isPublic, sender, content) => NotificationSafeIff(isPublic, sender, content);
    case Stats(_, _, _, _) =>
      if Packs(m) {
        StatsAreShown(m, []);
        assert Encode(m) + [] == Encode(m) && Padding() + [] == Padding();
      }
  }

  // ---------------------------------------------------------------- streams with records

  /** The zeros behind a record are no opcode: the client fails on them. */
  lemma StatsBreak(m: ServerMessage, t: Bytes)
    requires m.Stats? && Packs(m)
    ensures Read(Encode(m) + t) == Reading([Image(m)], Padding() + t, true)
  {
    StatsAreShown(m, t);
    var z := Padding() + t;
    assert z[..2] == [NUL, NUL] && "09"[0] != NUL && "10"[0] != NUL && "11"[0] != NUL;
    assert [NUL, NUL] != "09" && [NUL, NUL] != "10" && [NUL, NUL] != "11";
    assert Decode(z) == Crashed;
    ReadGot(Encode(m) + t, Image(m), z);
  }

  /** Safe messages and records that the encoder can make. */
  predicate CanSend(m: ServerMessage) { Safe(m) || (m.Stats? && Packs(m)) }

  predicate HasRecord(ms: seq<ServerMessage>) { exists i :: 0 <= i < |ms| && ms[i].Stats? }

  /** The client stays in step over a whole stream if and only if there is no record in it. */
  lemma {:induction false} InStepIff(ms: seq<ServerMessage>)
    requires forall i :: 0 <= i < |ms| ==> CanSend(ms[i])
    ensures Read(EncodeAll(ms)) == Reading(Images(ms), [], false) <==> !HasRecord(ms)
    ensures Read(EncodeAll(ms)).crashed <==> HasRecord(ms)
  {
    if ms != [] {
      if ms[0].Stats? {
        StatsBreak(ms[0], EncodeAll(ms[1..]));
      } else {
        OneMessage(ms[0], EncodeAll(ms[1..]));
        ReadGot(EncodeAll(ms), Image(ms[0]), EncodeAll(ms[1..]));
        InStepIff(ms[1..]);
        assert Images(ms) == [Image(ms[0])] + Images(ms[1..]);
        RecordBehind(ms);
      }
    }
  }

  lemma RecordBehind(ms: seq<ServerMessage>)
    requires ms != [] && !ms[0].Stats?
    ensures HasRecord(ms) <==> HasRecord(ms[1..])
  {
    if i :| 0 <= i < |ms| && ms[i].Stats? { assert ms[1..][i - 1].Stats?; }
    if i :| 0 <= i < |ms[1..]| && ms[1..][i].Stats? { assert ms[i + 1].Stats?; }
  }

  lemma RecordSnoc(ms: seq<ServerMessage>, m: ServerMessage)
    ensures HasRecord(ms + [m]) <==> HasRecord(ms) || m.Stats?
  {
    if i :| 0 <= i < |ms| && ms[i].Stats? { assert (ms + [m])[i].Stats?; }
    if m.Stats? { assert (ms + [m])[|ms|].Stats?; }
  }
}
