/** Answers and notifications: the answers to a request go to the connection that asked, and nowhere else. */
module SocialOrder {
  import opened Options
  import opened ServerMessages
  import opened Requests
  import opened Social
  import opened SocialRuns

  /** A message that answers a request; the others are notifications. */
  predicate IsAnswer(m: ServerMessage) { !m.Notification? }

  function Answers(ms: seq<ServerMessage>): seq<ServerMessage> {
    if ms == [] then [] else (if IsAnswer(ms[0]) then [ms[0]] else []) + Answers(ms[1..])
  }

  function AnswerTo(m: Sent, c: int): seq<ServerMessage> { if m.conn == c && IsAnswer(m.msg) then [m.msg] else [] }

  /** The answers sent to a connection, in order. */
  function AnswersTo(ms: seq<Sent>, c: int): seq<ServerMessage> {
    if ms == [] then [] else AnswerTo(ms[0], c) + AnswersTo(ms[1..], c)
  }

  lemma Regroup<T>(a: seq<T>, b: seq<T>, c: seq<T>)
    ensures (a + b) + c == a + (b + c)
  {
  }

  lemma {:induction false} AnswersConcat(ms: seq<ServerMessage>, ns: seq<ServerMessage>)
    ensures Answers(ms + ns) == Answers(ms) + Answers(ns)
  {
    if ms == [] {
      assert ms + ns == ns;
    } else {
      var first := if IsAnswer(ms[0]) then [ms[0]] else [];
      calc {
        Answers(ms + ns);
      ==  { assert (ms + ns)[0] == ms[0] && (ms + ns)[1..] == ms[1..] + ns; }
        first + Answers(ms[1..] + ns);
      ==  { AnswersConcat(ms[1..], ns); }
        first + (Answers(ms[1..]) + Answers(ns));
      ==  { Regroup(first, Answers(ms[1..]), Answers(ns)); }
        Answers(ms) + Answers(ns);
      }
    }
  }

  lemma {:induction false} AnswersToConcat(ms: seq<Sent>, ns: seq<Sent>, c: int)
    ensures AnswersTo(ms + ns, c) == AnswersTo(ms, c) + AnswersTo(ns, c)
  {
    if ms == [] {
      assert ms + ns == ns;
    } else {
      calc {
        AnswersTo(ms + ns, c);
      ==  { assert (ms + ns)[0] == ms[0] && (ms + ns)[1..] == ms[1..] + ns; }
        AnswerTo(ms[0], c) + AnswersTo(ms[1..] + ns, c);
      ==  { AnswersToConcat(ms[1..], ns, c); }
        AnswerTo(ms[0], c) + (AnswersTo(ms[1..], c) + AnswersTo(ns, c));
      ==  { Regroup(AnswerTo(ms[0], c), AnswersTo(ms[1..], c), AnswersTo(ns, c)); }
        AnswersTo(ms, c) + AnswersTo(ns, c);
      }
    }
  }

  lemma AnswersSnoc(ms: seq<ServerMessage>, m: ServerMessage)
    ensures Answers(ms + [m]) == Answers(ms) + if IsAnswer(m) then [m] else []
  {
    AnswersConcat(ms, [m]);
    assert [m][1..] == [];
  }

  lemma AnswersToSnoc(ms: seq<Sent>, m: Sent, c: int)
    ensures AnswersTo(ms + [m], c) == AnswersTo(ms, c) + AnswerTo(m, c)
  {
    AnswersToConcat(ms, [m], c);
    assert [m][1..] == [] && AnswerTo(m, c) + [] == AnswerTo(m, c);
  }

  lemma NoteAtHead(ms: seq<Sent>, c: int)
    requires ms != [] && !IsAnswer(ms[0].msg)
    ensures AnswersTo(ms[1..], c) == AnswersTo(ms, c)
  {
    assert AnswerTo(ms[0], c) + AnswersTo(ms[1..], c) == AnswersTo(ms[1..], c);
  }

  lemma AnswerIsQueued(queued: seq<ServerMessage>, m: Sent, c: int)
    ensures Answers(if m.conn == c then queued + [m.msg] else queued) == Answers(queued) + AnswerTo(m, c)
  {
    if m.conn == c { AnswersSnoc(queued, m.msg); }
  }

  lemma Shift<T>(a: seq<T>, one: seq<T>, rest: seq<T>, a': seq<T>, all: seq<T>)
    requires a' == a + one && all == one + rest
    ensures a' + rest == a + all
  {
  }

  /** The first send of a list is queued: an answer joins the answers of its connection. */
  lemma HeadIsQueued(queued: seq<ServerMessage>, out: seq<Sent>, c: int)
    requires out != []
    ensures Answers(if out[0].conn == c then queued + [out[0].msg] else queued) + AnswersTo(out[1..], c) ==
            Answers(queued) + AnswersTo(out, c)
  {
    var queued' := if out[0].conn == c then queued + [out[0].msg] else queued;
    AnswerIsQueued(queued, out[0], c);
    Shift(Answers(queued), AnswerTo(out[0], c), AnswersTo(out[1..], c), Answers(queued'), AnswersTo(out, c));
  }

  // ---------------------------------------------------------------- what a request sends

  /** From position `from` on, all answers are for connection `conn`. */
  ghost predicate HomeFrom(log: seq<Sent>, from: nat, conn: int) {
    forall i :: from <= i < |log| && IsAnswer(log[i].msg) ==> log[i].conn == conn
  }

  lemma {:induction false} NothingElsewhere(ms: seq<Sent>, conn: int, c: int)
    requires HomeFrom(ms, 0, conn) && c != conn
    ensures AnswersTo(ms, c) == []
  {
    if ms != [] {
      assert IsAnswer(ms[0].msg) ==> ms[0].conn == conn;
      NothingElsewhere(ms[1..], conn, c);
    }
  }

  lemma {:induction false} DeliverAllHome(s: Social, author: UserId, text: string, us: seq<UserId>, conn: int)
    requires author < |s.users| && AreUsers(s, us)
    ensures var t := DeliverAll(s, author, text, us); s.log <= t.log && HomeFrom(t.log, |s.log|, conn)
  {
    if us != [] { DeliverAllHome(s, author, text, us[..|us| - 1], conn); }
  }

  lemma {:induction false} ReplayHome(s: Social, u: UserId, entries: seq<string>, senderName: string, limit: nat,
                                      conn: int)
    requires u < |s.users|
    ensures var t := ReplayAll(s, u, entries, senderName, limit); s.log <= t.log && HomeFrom(t.log, |s.log|, conn)
    decreases |entries|
  {
    if entries != [] {
      var e := entries[0];
      ReplayHome(Replayed(s, u, e, senderName, limit), u, entries[1..], ReplayName(e, senderName), ReplayCut(e, limit),
                 conn);
    }
  }

  lemma LoginHome(s: Social, uks: seq<string>, conn: int, name: string, password: string, captcha: string)
    requires MapsOk(s) && Enumerates(uks, s.usersMap)
    ensures HomeFrom(DoLogin(s, uks, conn, name, password, captcha).log, |s.log|, conn)
  {
    var found := Matching(s, uks, name);
    if found.Some? && s.users[found.value].password == password && captcha == "1" && !s.users[found.value].active {
      var u := found.value;
      var s1 := SetUser(s, u, s.users[u].(active := true, connId := conn)).(activeMap := s.activeMap[name := u]);
      ReplayHome(Reply(s1, conn, Ack("02")), u, s.users[u].waiting, "", 0, conn);
    }
  }

  lemma FollowHome(s: Social, uks: seq<string>, aks: seq<string>, conn: int, action: char, rest: string)
    requires Scannable(s, uks, aks)
    ensures HomeFrom(DoFollow(s, uks, aks, conn, action, rest).log, |s.log|, conn)
  {
  }

  lemma PostHome(s: Social, uks: seq<string>, aks: seq<string>, conn: int, text: string)
    requires Scannable(s, uks, aks)
    ensures HomeFrom(DoPost(s, uks, aks, conn, text).log, |s.log|, conn)
  {
    if Owner(s, aks, conn).Some? {
      var author := Owner(s, aks, conn).value;
      RecipientsAreUsers(s, uks, author, text);
      DeliverAllHome(s, author, text, Recipients(s, uks, author, text), conn);
    }
  }

  lemma PmHome(s: Social, uks: seq<string>, aks: seq<string>, conn: int, text: string)
    requires Scannable(s, uks, aks)
    ensures HomeFrom(DoPm(s, uks, aks, conn, text).state.log, |s.log|, conn)
  {
  }

  lemma BlockHome(s: Social, uks: seq<string>, aks: seq<string>, conn: int, rest: string)
    requires Scannable(s, uks, aks)
    ensures HomeFrom(DoBlock(s, uks, aks, conn, rest).state.log, |s.log|, conn)
  {
    var owner, other := Owner(s, aks, conn), Named(s, uks, rest);
    if owner.Some? && other.Some? { BlockUserGrows(s, owner.value, other.value); }
  }

  lemma {:induction false} RecordsHome(s: Social, aks: seq<string>, viewer: UserId, now: int, conn: int)
    requires MapsOk(s) && forall k :: k in aks ==> k in s.activeMap
    ensures var t := Records(s, aks, viewer, now, conn).state; s.log <= t.log && HomeFrom(t.log, |s.log|, conn)
    decreases |aks|
  {
    if aks != [] {
      match RecordOf(s, viewer, s.activeMap[aks[0]], now)
      case Refused => RecordsHome(Reply(s, conn, Error("07")), aks[1..], viewer, now, conn);
      case Broken =>
      case Sendable(m) => RecordsHome(Reply(s, conn, m), aks[1..], viewer, now, conn);
    }
  }

  lemma LogstatHome(s: Social, aks: seq<string>, now: int, conn: int)
    requires MapsOk(s) && Enumerates(aks, s.activeMap)
    ensures HomeFrom(DoLogstat(s, aks, now, conn).state.log, |s.log|, conn)
  {
    var viewer := OrLast(Owner(s, aks, conn), s.activeMap, aks);
    if viewer.Some? { RecordsHome(s, aks, viewer.value, now, conn); }
  }

  /** A request sends answers only to the connection it came from. */
  lemma RequestHome(s: Social, e: Event)
    requires CanHandle(s, e)
    ensures HomeFrom(Handle(s, e).log, |s.log|, e.conn)
  {
    match Parse(e.message)
    case Some(Login(name, password, captcha)) => LoginHome(s, e.uks, e.conn, name, password, captcha);
    case Some(Follow(action, rest)) => FollowHome(s, e.uks, e.aks, e.conn, action, rest);
    case Some(Post(text)) => PostHome(s, e.uks, e.aks, e.conn, text);
    case Some(Pm(text)) => PmHome(s, e.uks, e.aks, e.conn, text);
    case Some(Block(rest)) => BlockHome(s, e.uks, e.aks, e.conn, rest);
    case Some(Logstat) => LogstatHome(s, e.aks, e.now, e.conn);
    case _ =>
  }
}
