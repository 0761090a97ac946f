/** The client's `decoder` against the server's `encode`: two codecs written separately that must stay in
    step on one byte stream. */
module ClientDecoder {
  import opened Options
  import opened Text
  import opened Framing
  import opened ServerMessages
  import SC = StatCodec

  /** The fields the client shows for one message. */
  datatype Shown =
    | PublicNote(user: string, content: string)
    | PmNote(user: string, content: string)
    | AckNote(op: string)
    | FollowNote(kind: string, name: string)
    | StatsNote(op: string, record: Bytes)
    | ErrorNote(op: string)

  /** The decoder waits for more bytes, fails on an opcode it does not know, or takes one message. */
  datatype Decoded = Blocked | Crashed | Got(shown: Shown, rest: Bytes)

  datatype Taken = Taken(bytes: Bytes, rest: Bytes)

  /** getBytes. */
  function Take(s: Bytes, n: nat): Option<Taken> {
    if |s| < n then None else Some(Taken(s[..n], s[n..]))
  }

  /** getFrameAscii up to a NUL, without the NUL. */
  function TakeFrame(s: Bytes): Option<Taken> {
    var i := IndexOf(s, NUL);
    if i == |s| then None else Some(Taken(s[..i], s[i + 1..]))
  }

  /** The last byte of a message, the delimiter, is read and dropped. */
  function Finish(shown: Shown, s: Bytes): Decoded {
    if s == [] then Blocked else Got(shown, s[1..])
  }

  function DecodeNotification(s: Bytes): Decoded {
    match Take(s, 1)
    case None => Blocked
    case Some(stat) =>
      match TakeFrame(stat.rest)
      case None => Blocked
      case Some(user) =>
        match TakeFrame(user.rest)
        case None => Blocked
        case Some(content) =>
          Finish(if stat.bytes[0] == '1' then PublicNote(user.bytes, content.bytes)
                 else PmNote(user.bytes, content.bytes),
                 content.rest)
  }

  function DecodeFollow(s: Bytes): Decoded {
    match Take(s, 2)
    case None => Blocked
    case Some(kind) =>
      match TakeFrame(kind.rest)
      case None => Blocked
      case Some(name) =>
        match Take(name.rest, 1)
        case None => Blocked
        case Some(extra) => Finish(FollowNote(kind.bytes, name.bytes), extra.rest)
  }

  function DecodeAck(s: Bytes): Decoded {
    match Take(s, 2)
    case None => Blocked
    case Some(op) =>
      if op.bytes == "04" then DecodeFollow(op.rest)
      else if op.bytes == "07" || op.bytes == "08" then
        match Take(op.rest, 8)
        case None => Blocked
        case Some(record) => Finish(StatsNote(op.bytes, record.bytes), record.rest)
      else Finish(AckNote(op.bytes), op.rest)
  }

  function DecodeError(s: Bytes): Decoded {
    match Take(s, 2)
    case None => Blocked
    case Some(op) => Finish(ErrorNote(op.bytes), op.rest)
  }

  /** One call of `decoder` on the bytes that have arrived. */
  function Decode(s: Bytes): Decoded {
    match Take(s, 2)
    case None => Blocked
    case Some(op) =>
      if op.bytes == "09" then DecodeNotification(op.rest)
      else if op.bytes == "10" then DecodeAck(op.rest)
      else if op.bytes == "11" then DecodeError(op.rest)
      else Crashed
  }

  /** A byte as the client's stream holds it. */
  function Byte(b: SC.sbyte): char { ((b as int + 256) % 256) as char }

  function Chars(bs: seq<SC.sbyte>): (r: Bytes)
    ensures |r| == |bs| && forall i :: 0 <= i < |bs| ==> r[i] == Byte(bs[i])
  {
    if bs == [] then [] else [Byte(bs[0])] + Chars(bs[1..])
  }

  /** encode can parse the numbers of the message as shorts. */
  predicate Packs(m: ServerMessage) {
    m.Stats? ==> SC.IsShort(m.age) && SC.IsShort(m.following) && SC.IsShort(m.followers) && SC.IsShort(m.posts)
  }

  /** The record of a LOGSTAT reply.  The encoder takes the numbers in the order of the text, which is not the
      order of its own names: the number of followed users comes where it expects the posts. */
  function RecordIn(m: ServerMessage): (r: Bytes)
    requires m.Stats? && Packs(m)
    ensures |r| == 8
  {
    Chars(SC.RecordBytes(SC.Record(m.age, m.following, m.followers, m.posts)))
  }

  /** The rest of the array behind the delimiter of a record. */
  function Padding(): (z: Bytes)
    ensures |z| == SC.SIZE - 13 && forall i :: 0 <= i < |z| ==> z[i] == NUL
  {
    seq(SC.SIZE - 13, _ => NUL)
  }

  /** The server's encode; nothing is sent for numbers that are not shorts, because it throws. */
  function Encode(m: ServerMessage): Bytes {
    if !m.Stats? then TextOf(m) + [END]
    else if Packs(m) then "10" + ("07" + (RecordIn(m) + ([END] + Padding())))
    else []
  }

  /** Not a record of LOGSTAT; fields without NUL, opcodes of two characters, and a follow acknowledgement that quotes a
      NUL-terminated name. */
  predicate Safe(m: ServerMessage) {
    match m
    case Stats(_, _, _, _) => false
    case Ack(op) => |op| == 2 && op != "04" && op != "07" && op != "08"
    case FollowAck(_, message) => message != [] && message[|message| - 1] == NUL && NUL !in message[..|message| - 1]
    case Error(op) => |op| == 2
    case Notification(_, sender, content) => NUL !in sender && NUL !in content
  }

  /** What the client should show for a message. */
  function Image(m: ServerMessage): Shown {
    match m
    case Stats(_, _, _, _) => StatsNote("07", if Packs(m) then RecordIn(m) else [])
    case Ack(op) => AckNote(op)
    case FollowAck(follow, message) =>
      FollowNote(if follow then "00" else "01", if message == [] then [] else message[..|message| - 1])
    case Error(op) => ErrorNote(op)
    case Notification(isPublic, sender, content) =>
      if isPublic then PublicNote(sender, content) else PmNote(sender, content)
  }

  // ---------------------------------------------------------------- one message

  lemma {:induction false} FirstNul(w: string, t: Bytes)
    requires NUL !in w
    ensures IndexOf(w + ([NUL] + t), NUL) == |w|
  {
    if w != [] {
      FirstNul(w[1..], t);
      assert (w + ([NUL] + t))[1..] == w[1..] + ([NUL] + t);
      assert w[0] in w;
    }
  }

  lemma TakeFrameOf(w: string, t: Bytes)
    requires NUL !in w
    ensures TakeFrame(w + ([NUL] + t)) == Some(Taken(w, t))
  {
    FirstNul(w, t);
    assert (w + ([NUL] + t))[..|w|] == w && (w + ([NUL] + t))[|w| + 1..] == t;
  }

  lemma TakeOf(w: Bytes, t: Bytes)
    ensures Take(w + t, |w|) == Some(Taken(w, t))
  {
  }

  lemma FinishOf(shown: Shown, t: Bytes)
    ensures Finish(shown, [END] + t) == Got(shown, t)
  {
    assert ([END] + t)[1..] == t;
  }

  lemma NotificationInStep(isPublic: bool, sender: string, content: string, t: Bytes)
    requires NUL !in sender && NUL !in content
    ensures var kind := if isPublic then "1" else "0";
            DecodeNotification(kind + (sender + ([NUL] + (content + ([NUL] + ([END] + t)))))) ==
            Got(Image(Notification(isPublic, sender, content)), t)
  {
    var kind := if isPublic then "1" else "0";
    TakeOf(kind, sender + ([NUL] + (content + ([NUL] + ([END] + t)))));
    TakeFrameOf(sender, content + ([NUL] + ([END] + t)));
    TakeFrameOf(content, [END] + t);
    FinishOf(Image(Notification(isPublic, sender, content)), t);
  }

  lemma FollowInStep(kind: string, name: string, t: Bytes)
    requires |kind| == 2 && NUL !in name
    ensures DecodeFollow(kind + (name + ([NUL] + ([NUL] + ([END] + t))))) == Got(FollowNote(kind, name), t)
  {
    TakeOf(kind, name + ([NUL] + ([NUL] + ([END] + t))));
    TakeFrameOf(name, [NUL] + ([END] + t));
    TakeOf([NUL], [END] + t);
    FinishOf(FollowNote(kind, name), t);
  }

  lemma EncodedNotification(isPublic: bool, sender: string, content: string, t: Bytes)
    ensures var kind := if isPublic then "1" else "0";
            Encode(Notification(isPublic, sender, content)) + t ==
            "09" + (kind + (sender + ([NUL] + (content + ([NUL] + ([END] + t))))))
  {
  }

  lemma EncodedFollow(follow: bool, name: string, t: Bytes)
    ensures var kind := if follow then "00" else "01";
            Encode(FollowAck(follow, name + [NUL])) + t ==
            "10" + ("04" + (kind + (name + ([NUL] + ([NUL] + ([END] + t))))))
  {
  }

  lemma EncodedShort(kind: string, op: string, t: Bytes)
    ensures kind + op + [END] + t == kind + (op + ([END] + t))
  {
  }

  lemma OneNotification(isPublic: bool, sender: string, content: string, t: Bytes)
    requires NUL !in sender && NUL !in content
    ensures var m := Notification(isPublic, sender, content); Decode(Encode(m) + t) == Got(Image(m), t)
  {
    var tail := (if isPublic then "1" else "0") + (sender + ([NUL] + (content + ([NUL] + ([END] + t)))));
    EncodedNotification(isPublic, sender, content, t);
    TakeOf("09", tail);
    NotificationInStep(isPublic, sender, content, t);
  }

  lemma OneFollow(follow: bool, name: string, t: Bytes)
    requires NUL !in name
    ensures Decode(Encode(FollowAck(follow, name + [NUL])) + t) ==
            Got(FollowNote(if follow then "00" else "01", name), t)
  {
    var kind := if follow then "00" else "01";
    var tail := kind + (name + ([NUL] + ([NUL] + ([END] + t))));
    EncodedFollow(follow, name, t);
    TakeOf("10", "04" + tail);
    TakeOf("04", tail);
    FollowInStep(kind, name, t);
  }

  lemma OneAck(op: string, t: Bytes)
    requires Safe(Ack(op))
    ensures Decode(Encode(Ack(op)) + t) == Got(AckNote(op), t)
  {
    EncodedShort("10", op, t);
    TakeOf("10", op + ([END] + t));
    TakeOf(op, [END] + t);
    FinishOf(AckNote(op), t);
  }

  lemma OneError(op: string, t: Bytes)
    requires |op| == 2
    ensures Decode(Encode(Error(op)) + t) == Got(ErrorNote(op), t)
  {
    EncodedShort("11", op, t);
    TakeOf("11", op + ([END] + t));
    TakeOf(op, [END] + t);
    FinishOf(ErrorNote(op), t);
  }

  /** The decoder reads back exactly one message and leaves exactly the bytes after it. */
  lemma OneMessage(m: ServerMessage, t: Bytes)
    requires Safe(m)
    ensures Decode(Encode(m) + t) == Got(Image(m), t)
  {
    match m
    case Notification(isPublic, sender, content) => OneNotification(isPublic, sender, content, t);
    case FollowAck(follow, message) =>
      assert message == message[..|message| - 1] + [NUL];
      OneFollow(follow, message[..|message| - 1], t);
    case Ack(op) => OneAck(op, t);
    case Error(op) => OneError(op, t);
  }
}
