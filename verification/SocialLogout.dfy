/** The server's side of the logout handshake: each LOGOUT request, and nothing else, is answered by
    exactly one message about opcode 03. */
module SocialLogout {
  import opened Options
  import opened Text
  import opened ServerMessages
  import opened Requests
  import opened Social
  import opened SocialRuns

  predicate AboutLogout(m: ServerMessage) { m == Ack("03") || m == Error("03") }

  /** The messages from position `from` on are not about LOGOUT. */
  ghost predicate NoLogoutFrom(log: seq<Sent>, from: nat) {
    from <= |log| && forall i :: from <= i < |log| ==> !AboutLogout(log[i].msg)
  }

  /** ... and are no records. */
  ghost predicate NoneFrom(log: seq<Sent>, from: nat) {
    NoLogoutFrom(log, from) && forall i :: from <= i < |log| ==> !log[i].msg.Stats?
  }

  lemma {:induction false} DeliverAllNone(s: Social, author: UserId, text: string, us: seq<UserId>)
    requires author < |s.users| && AreUsers(s, us)
    ensures var t := DeliverAll(s, author, text, us); s.log <= t.log && NoneFrom(t.log, |s.log|)
  {
    if us != [] { DeliverAllNone(s, author, text, us[..|us| - 1]); }
  }

  lemma {:induction false} ReplayNone(s: Social, u: UserId, entries: seq<string>, senderName: string, limit: nat)
    requires u < |s.users|
    ensures var t := ReplayAll(s, u, entries, senderName, limit); s.log <= t.log && NoneFrom(t.log, |s.log|)
    decreases |entries|
  {
    if entries != [] {
      var e := entries[0];
      ReplayNone(Replayed(s, u, e, senderName, limit), u, entries[1..], ReplayName(e, senderName), ReplayCut(e, limit));
    }
  }

  lemma LoginNone(s: Social, uks: seq<string>, conn: int, name: string, password: string, captcha: string)
    requires MapsOk(s) && Enumerates(uks, s.usersMap)
    ensures NoneFrom(DoLogin(s, uks, conn, name, password, captcha).log, |s.log|)
  {
    var found := Matching(s, uks, name);
    assert "02" != "03";
    if found.Some? && s.users[found.value].password == password && captcha == "1" && !s.users[found.value].active {
      var u := found.value;
      var s1 := SetUser(s, u, s.users[u].(active := true, connId := conn)).(activeMap := s.activeMap[name := u]);
      ReplayNone(Reply(s1, conn, Ack("02")), u, s.users[u].waiting, "", 0);
    }
  }

  lemma PostNone(s: Social, uks: seq<string>, aks: seq<string>, conn: int, text: string)
    requires Scannable(s, uks, aks)
    ensures NoneFrom(DoPost(s, uks, aks, conn, text).log, |s.log|)
  {
    assert "05" != "03";
    if Owner(s, aks, conn).Some? {
      var author := Owner(s, aks, conn).value;
      RecipientsAreUsers(s, uks, author, text);
      DeliverAllNone(s, author, text, Recipients(s, uks, author, text));
    }
  }

  lemma RegisterNone(s: Social, uks: seq<string>, conn: int, name: string, password: string, birthday: string)
    requires MapsOk(s) && Enumerates(uks, s.usersMap)
    ensures NoneFrom(DoRegister(s, uks, conn, name, password, birthday).log, |s.log|)
  {
    assert "01" != "03";
  }

  lemma FollowNone(s: Social, uks: seq<string>, aks: seq<string>, conn: int, action: char, rest: string)
    requires Scannable(s, uks, aks)
    ensures NoneFrom(DoFollow(s, uks, aks, conn, action, rest).log, |s.log|)
  {
    assert "04" != "03";
  }

  lemma PmNone(s: Social, uks: seq<string>, aks: seq<string>, conn: int, text: string)
    requires Scannable(s, uks, aks)
    ensures NoneFrom(DoPm(s, uks, aks, conn, text).state.log, |s.log|)
  {
    assert "06" != "03";
  }

  lemma {:induction false} RecordsNone(s: Social, aks: seq<string>, viewer: UserId, now: int, conn: int)
    requires MapsOk(s) && forall k :: k in aks ==> k in s.activeMap
    ensures var t := Records(s, aks, viewer, now, conn).state; s.log <= t.log && NoLogoutFrom(t.log, |s.log|)
    decreases |aks|
  {
    assert "07" != "03";
    if aks != [] {
      match RecordOf(s, viewer, s.activeMap[aks[0]], now)
      case Refused => RecordsNone(Reply(s, conn, Error("07")), aks[1..], viewer, now, conn);
      case Broken =>
      case Sendable(m) => RecordsNone(Reply(s, conn, m), aks[1..], viewer, now, conn);
    }
  }

  lemma StatsNone(s: Social, aks: seq<string>, now: int, conn: int)
    requires MapsOk(s) && Enumerates(aks, s.activeMap)
    ensures NoLogoutFrom(DoLogstat(s, aks, now, conn).state.log, |s.log|)
            && NoneFrom(DoStat(s, aks, conn).state.log, |s.log|)
  {
    assert "08" != "03";
    var viewer := OrLast(Owner(s, aks, conn), s.activeMap, aks);
    if viewer.Some? { RecordsNone(s, aks, viewer.value, now, conn); }
  }

  lemma BlockNone(s: Social, uks: seq<string>, aks: seq<string>, conn: int, rest: string)
    requires Scannable(s, uks, aks)
    ensures NoneFrom(DoBlock(s, uks, aks, conn, rest).state.log, |s.log|)
  {
    assert "12" != "03";
  }

  /** A LOGOUT request adds exactly one message, an answer about 03 on its own connection; no other request
      adds any message about 03 on any connection. */
  lemma LogoutAnsweredOnce(s: Social, e: Event)
    requires CanHandle(s, e)
    ensures Parse(e.message) == Some(Logout) ==>
              exists m :: AboutLogout(m) && Handle(s, e).log == s.log + [Sent(e.conn, m, Answer)]
    ensures Parse(e.message) != Some(Logout) ==> NoLogoutFrom(Handle(s, e).log, |s.log|)
    ensures Parse(e.message) != Some(Logout) && Parse(e.message) != Some(Logstat) ==>
            NoneFrom(Handle(s, e).log, |s.log|)
  {
    match Parse(e.message)
    case Some(Logout) =>
      var m := if Owner(s, e.aks, e.conn).Some? then Ack("03") else Error("03");
      assert AboutLogout(m) && Handle(s, e).log == s.log + [Sent(e.conn, m, Answer)];
    case Some(Login(name, password, captcha)) => LoginNone(s, e.uks, e.conn, name, password, captcha);
    case Some(Post(text)) => PostNone(s, e.uks, e.aks, e.conn, text);
    case Some(Register(name, password, birthday)) => RegisterNone(s, e.uks, e.conn, name, password, birthday);
    case Some(Follow(action, rest)) => FollowNone(s, e.uks, e.aks, e.conn, action, rest);
    case Some(Pm(text)) => PmNone(s, e.uks, e.aks, e.conn, text);
    case Some(Block(rest)) => BlockNone(s, e.uks, e.aks, e.conn, rest);
    case Some(Logstat) => StatsNone(s, e.aks, e.now, e.conn);
    case Some(Stat) => StatsNone(s, e.aks, e.now, e.conn);
    case Some(Ignored) =>
    case None =>
  }
}
