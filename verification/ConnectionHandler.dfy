/** The client's `connectionHandler`: the encoder, the decoder with its blocking reads, and the flags the
    two threads share. */
module ConnectionHandler {
  import opened Options
  import opened Text
  import opened Framing
  import opened ClientDecoder
  import CE = ClientEncoder

  /** The first four bytes of a message, once they have arrived. */
  predicate Announces(s: Bytes, op: Bytes) { |op| <= |s| && s[..|op|] == op }

  class Handler {
    var incoming: Bytes // bytes that have arrived on the socket and were not read
    var terminate: bool
    var logoutSent: bool
    var logoutFailed: bool

    constructor ()
      ensures incoming == [] && !terminate && !logoutSent && !logoutFailed
    {
      incoming := [];
      terminate, logoutSent, logoutFailed := false, false, false;
    }

    // -------------------------------------------------------------- Encoder

    /** The loop of REGISTER and LOGIN. */
    static method PushNulled(ans: Bytes, msg: string, start: nat) returns (r: Bytes)
      requires start <= |msg|
      ensures r == ans + CE.Nulled(msg[start..])
    {
      r := ans;
      var i := start;
      while i < |msg|
        invariant start <= i <= |msg|
        invariant r + CE.Nulled(msg[i..]) == ans + CE.Nulled(msg[start..])
      {
        assert msg[i..][1..] == msg[i + 1..];
        if msg[i] == ' ' {
          r := r + [NUL];
        } else {
          r := r + [msg[i]];
        }
        i := i + 1;
      }
    }

    /** The loop of FOLLOW. */
    static method PushUnspaced(ans: Bytes, msg: string, start: nat) returns (r: Bytes)
      requires start <= |msg|
      ensures r == ans + CE.Unspaced(msg[start..])
    {
      r := ans;
      var i := start;
      while i < |msg|
        invariant start <= i <= |msg|
        invariant r + CE.Unspaced(msg[i..]) == ans + CE.Unspaced(msg[start..])
      {
        assert msg[i..][1..] == msg[i + 1..];
        if msg[i] != ' ' {
          r := r + [msg[i]];
        }
        i := i + 1;
      }
    }

    /** The loop of POST, PM, STAT and BLOCK. */
    static method PushRest(ans: Bytes, msg: string, start: nat) returns (r: Bytes)
      requires start <= |msg|
      ensures r == ans + msg[start..]
    {
      r := ans;
      var i := start;
      while i < |msg|
        invariant start <= i <= |msg|
        invariant r == ans + msg[start..i]
      {
        r := r + [msg[i]];
        i := i + 1;
      }
    }

    /** The first word of the line and the position behind it. */
    static method FirstWord(msg: string) returns (opCode: string, i: nat)
      ensures i == IndexOf(msg, ' ') && opCode == CE.Word(msg)
    {
      opCode, i := "", 0;
      assert msg[0..] == msg;
      while i < |msg| && msg[i] != ' '
        invariant i <= |msg| && opCode == msg[..i]
        invariant i + IndexOf(msg[i..], ' ') == IndexOf(msg, ' ')
      {
        assert msg[i..][1..] == msg[i + 1..];
        opCode := opCode + [msg[i]];
        i := i + 1;
      }
    }

    /** The bytes for one typed line; a line whose first word is LOGOUT sets the flag. */
    method Encoder(msg: string) returns (ans: Bytes)
      modifies this`logoutSent
      ensures ans == CE.Encode(msg)
      ensures logoutSent == (old(logoutSent) || CE.Word(msg) == "LOGOUT")
    {
      var opCode, i := FirstWord(msg);
      i := i + 1;
      var start := if i <= |msg| then i else |msg|;
      assert msg[start..] == CE.Body(msg);
      if opCode == "LOGOUT" {
        logoutSent := true;
        return "03" + [END];
      } else if opCode == "LOGSTAT" {
        return "07" + [END];
      }
      ans := EncodeBody(opCode, msg, start);
    }

    static method EncodeBody(opCode: string, msg: string, start: nat) returns (ans: Bytes)
      requires start <= |msg| && opCode != "LOGOUT" && opCode != "LOGSTAT"
      ensures ans == CE.EncodeWord(opCode, msg[start..])
    {
      ans := [];
      if opCode == "REGISTER" {
        ans := PushNulled("01", msg, start);
        ans := ans + [NUL, END];
      } else if opCode == "LOGIN" {
        ans := PushNulled("02", msg, start);
        ans := ans + [END];
      } else if opCode == "FOLLOW" {
        ans := PushUnspaced("04", msg, start);
        ans := ans + [NUL, END];
      } else if opCode == "POST" {
        ans := PushRest("05", msg, start);
        ans := ans + [NUL, END];
      } else if opCode == "PM" {
        ans := PushRest("06", msg, start);
        ans := ans + [NUL, END];
      } else if opCode == "STAT" {
        ans := PushRest("08", msg, start);
        ans := ans + [NUL, END];
      } else if opCode == "BLOCK" {
        ans := PushRest("12", msg, start);
        ans := ans + [NUL, END];
      }
    }

    // -------------------------------------------------------------- decoder

    /** Reads `n` bytes.  None stands for waiting: so many bytes have not arrived yet. */
    method GetBytes(n: nat) returns (bytes: Option<Bytes>)
      modifies this`incoming
      ensures match Take(old(incoming), n)
              case None => bytes == None && incoming == old(incoming)
              case Some(taken) => bytes == Some(taken.bytes) && incoming == taken.rest
    {
      if |incoming| < n { return None; }
      bytes := Some(incoming[..n]);
      incoming := incoming[n..];
    }

    /** Reads up to and including the delimiter; the callers drop it again. */
    method GetFrameAscii(delimiter: char) returns (frame: Option<Bytes>)
      modifies this`incoming
      ensures var i := IndexOf(old(incoming), delimiter);
              if i < |old(incoming)| then frame == Some(old(incoming)[..i + 1]) && incoming == old(incoming)[i + 1..]
              else frame == None
    {
      var read := [];
      ghost var start := incoming;
      assert start[0..] == start;
      while true
        invariant |read| <= |start| && read == start[..|read|] && incoming == start[|read|..]
        invariant |read| + IndexOf(incoming, delimiter) == IndexOf(start, delimiter)
        decreases |incoming|
      {
        if incoming == [] { return None; }
        var ch := incoming[0];
        assert ch == delimiter ==> IndexOf(start, delimiter) == |read|;
        incoming := incoming[1..];
        read := read + [ch];
        assert read == start[..|read|] && incoming == start[|read|..];
        if ch == delimiter { return Some(read); }
      }
    }

    method GetField() returns (field: Option<Bytes>)
      modifies this`incoming
      ensures match TakeFrame(old(incoming))
              case None => field == None
              case Some(taken) => field == Some(taken.bytes) && incoming == taken.rest
    {
      var frame := GetFrameAscii(NUL);
      if frame.None? { return None; }
      assert frame.value[..|frame.value| - 1] == old(incoming)[..|frame.value| - 1];
      return Some(frame.value[..|frame.value| - 1]);
    }

    method NotificationDecoder() returns (note: Option<Shown>)
      modifies this`incoming
      ensures Yields(note, DecodeNotification(old(incoming)))
    {
      var stat := GetBytes(1);
      if stat.None? { return None; }
      var postingUser := GetField();
      if postingUser.None? { return None; }
      var content := GetField();
      if content.None? { return None; }
      return Some(if stat.value[0] == '1' then PublicNote(postingUser.value, content.value)
                  else PmNote(postingUser.value, content.value));
    }

    /** The part of a message before its delimiter: what `whole` shows, with the delimiter still unread. */
    ghost predicate Yields(note: Option<Shown>, whole: Decoded)
      reads this`incoming
    {
      match note
      case None => whole == Blocked
      case Some(shown) => whole == Finish(shown, incoming)
    }

    method AckDecoder() returns (note: Option<Shown>)
      modifies this`incoming, this`terminate
      ensures Yields(note, DecodeAck(old(incoming)))
      ensures terminate == (old(terminate) || Announces(old(incoming), "03"))
    {
      var messageOpcode := GetBytes(2);
      if messageOpcode.None? { return None; }
      if messageOpcode.value == "03" { terminate := true; }
      if messageOpcode.value == "04" {
        note := FollowDecoder();
      } else if messageOpcode.value == "07" || messageOpcode.value == "08" {
        var record := GetBytes(8);
        if record.None? { return None; }
        note := Some(StatsNote(messageOpcode.value, record.value));
      } else {
        note := Some(AckNote(messageOpcode.value));
      }
    }

    method FollowDecoder() returns (note: Option<Shown>)
      modifies this`incoming
      ensures Yields(note, DecodeFollow(old(incoming)))
    {
      var kind := GetBytes(2);
      if kind.None? { return None; }
      var userName := GetField();
      if userName.None? { return None; }
      var extra := GetBytes(1);
      if extra.None? { return None; }
      return Some(FollowNote(kind.value, userName.value));
    }

    method ErrorDecoder() returns (note: Option<Shown>)
      modifies this`incoming, this`logoutFailed
      ensures Yields(note, DecodeError(old(incoming)))
      ensures logoutFailed == (old(logoutFailed) || Announces(old(incoming), "03"))
    {
      var arg := GetBytes(2);
      if arg.None? { return None; }
      if arg.value == "03" { logoutFailed := true; }
      return Some(ErrorNote(arg.value));
    }

    /** One call of `decoder` on the bytes that have arrived.  The flags follow the first four bytes, even
        when the rest of the message has not arrived yet. */
    method Decoder() returns (answer: Decoded)
      modifies this`incoming, this`terminate, this`logoutFailed
      ensures answer == Decode(old(incoming))
      ensures answer.Got? ==> incoming == answer.rest
      ensures terminate == (old(terminate) || Announces(old(incoming), "1003"))
      ensures logoutFailed == (old(logoutFailed) || Announces(old(incoming), "1103"))
    {
      ghost var start := incoming;
      var opCode := GetBytes(2);
      if opCode.None? { return Blocked; }
      assert start == opCode.value + incoming;
      FourBytes(opCode.value, incoming);
      var note: Option<Shown>;
      if opCode.value == "09" {
        note := NotificationDecoder();
      } else if opCode.value == "10" {
        note := AckDecoder();
      } else if opCode.value == "11" {
        note := ErrorDecoder();
      } else {
        return Crashed;
      }
      if note.None? { return Blocked; }
      var last := GetBytes(1);
      if last.None? { return Blocked; }
      return Got(note.value, incoming);
    }

    // -------------------------------------------------------------- flags

    method ResetLogout()
      modifies this`logoutSent, this`logoutFailed
      ensures !logoutSent && !logoutFailed
    {
      if logoutSent { logoutSent := false; }
      if logoutFailed { logoutFailed := false; }
    }
  }

  lemma FourBytes(op: Bytes, rest: Bytes)
    requires |op| == 2
    ensures Announces(op + rest, "1003") <==> op == "10" && Announces(rest, "03")
    ensures Announces(op + rest, "1103") <==> op == "11" && Announces(rest, "03")
  {
    assert "1003" == "10" + "03" && "1103" == "11" + "03";
    if |rest| >= 2 {
      assert (op + rest)[..4] == op + rest[..2];
      assert (op + rest)[..4][..2] == op && (op + rest)[..4][2..] == rest[..2];
      assert "1003"[..2] == "10" && "1003"[2..] == "03" && "1103"[..2] == "11" && "1103"[2..] == "03";
    }
  }
}
