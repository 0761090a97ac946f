/** From typed commands to what the clients show: in every run whose requests are the frames of well-formed
    commands, the server sends only messages that the client's decoder reads back, and records of LOGSTAT. */
module SocialWire {
  import opened Options
  import opened Text
  import opened ServerMessages
  import opened Requests
  import opened Social
  import opened SocialRuns
  import opened SocialRecords
  import Cmd = ClientEncoder
  import opened ClientDecoder
  import opened ClientStream

  ghost predicate PlainUser(u: User) {
    NUL !in u.name && forall e :: e in u.waiting ==> NUL !in e
  }

  /** Nothing that was stored or sent contains a NUL where the decoder would stop too early. */
  ghost predicate Plain(s: Social) {
    && (forall i :: 0 <= i < |s.users| ==> PlainUser(s.users[i]))
    && (forall i :: 0 <= i < |s.log| ==> CanSend(s.log[i].msg))
  }

  lemma SendPlain(s: Social, conn: int, msg: ServerMessage, origin: Origin)
    requires Plain(s) && CanSend(msg)
    ensures Plain(Send(s, conn, msg, origin))
  {
  }

  lemma SetPlain(s: Social, u: UserId, user: User)
    requires Plain(s) && u < |s.users| && PlainUser(user)
    ensures Plain(SetUser(s, u, user))
  {
  }

  lemma {:induction false} ReplayPlain(s: Social, u: UserId, entries: seq<string>, senderName: string, limit: nat)
    requires Plain(s) && u < |s.users| && NUL !in senderName && forall e :: e in entries ==> NUL !in e
    ensures Plain(ReplayAll(s, u, entries, senderName, limit))
    decreases |entries|
  {
    if entries != [] {
      var e := entries[0];
      assert NUL !in e;
      SendPlain(s, s.users[u].connId, Notification(true, ReplayName(e, senderName), ReplayText(e, limit)), Replay(u));
      ReplayPlain(Replayed(s, u, e, senderName, limit), u, entries[1..], ReplayName(e, senderName),
                  ReplayCut(e, limit));
    }
  }

  lemma {:induction false} DeliverAllPlain(s: Social, author: UserId, text: string, us: seq<UserId>)
    requires Plain(s) && author < |s.users| && AreUsers(s, us) && NUL !in text
    ensures Plain(DeliverAll(s, author, text, us))
  {
    if us != [] {
      DeliverAllPlain(s, author, text, us[..|us| - 1]);
      DeliverPlain(DeliverAll(s, author, text, us[..|us| - 1]), author, text, us[|us| - 1]);
    }
  }

  lemma DeliverPlain(s: Social, author: UserId, text: string, u: UserId)
    requires Plain(s) && author < |s.users| && u < |s.users| && NUL !in text
    ensures Plain(Deliver(s, author, text, u))
  {
    assert PlainUser(s.users[author]) && PlainUser(s.users[u]);
  }

  lemma RegisterPlain(s: Social, uks: seq<string>, conn: int, name: string, password: string, birthday: string)
    requires Plain(s) && MapsOk(s) && Enumerates(uks, s.usersMap) && NUL !in name
    ensures Plain(DoRegister(s, uks, conn, name, password, birthday))
  {
  }

  lemma LoginPlain(s: Social, uks: seq<string>, conn: int, name: string, password: string, captcha: string)
    requires Plain(s) && MapsOk(s) && Enumerates(uks, s.usersMap)
    ensures Plain(DoLogin(s, uks, conn, name, password, captcha))
  {
    var found := Matching(s, uks, name);
    if found.Some? && s.users[found.value].password == password && captcha == "1" && !s.users[found.value].active {
      var u := found.value;
      assert PlainUser(s.users[u]);
      SetPlain(s, u, s.users[u].(active := true, connId := conn));
      var s1 := SetUser(s, u, s.users[u].(active := true, connId := conn)).(activeMap := s.activeMap[name := u]);
      SendPlain(s1, conn, Ack("02"), Answer);
      ReplayPlain(Reply(s1, conn, Ack("02")), u, s.users[u].waiting, "", 0);
    }
  }

  lemma LogoutPlain(s: Social, aks: seq<string>, conn: int)
    requires Plain(s) && MapsOk(s) && Enumerates(aks, s.activeMap)
    ensures Plain(DoLogout(s, aks, conn))
  {
    if Owner(s, aks, conn).Some? { assert PlainUser(s.users[Owner(s, aks, conn).value]); }
  }

  /** The acknowledgement of a FOLLOW quotes the name of the request with the NUL that the client put
      behind it. */
  lemma FollowPlain(s: Social, uks: seq<string>, aks: seq<string>, conn: int, action: char, name: string)
    requires Plain(s) && Scannable(s, uks, aks) && NUL !in name
    ensures Plain(DoFollow(s, uks, aks, conn, action, name + [NUL]))
  {
    var rest := name + [NUL];
    assert rest[..|rest| - 1] == name;
    var other, owner := Named(s, uks, rest), Owner(s, aks, conn);
    if other.Some? && owner.Some? { ChangePlain(s, owner.value, other.value, conn, action, rest); }
  }

  lemma ChangePlain(s: Social, m: UserId, o: UserId, conn: int, action: char, rest: string)
    requires Plain(s) && m < |s.users| && o < |s.users| && Safe(FollowAck(true, rest))
    ensures Plain(ChangeEdge(s, m, o, conn, action, rest))
  {
    assert PlainUser(s.users[m]);
  }

  lemma PostPlain(s: Social, uks: seq<string>, aks: seq<string>, conn: int, text: string)
    requires Plain(s) && Scannable(s, uks, aks) && NUL !in text
    ensures Plain(DoPost(s, uks, aks, conn, text))
  {
    match Owner(s, aks, conn)
    case None =>
    case Some(author) =>
      RecipientsAreUsers(s, uks, author, text);
      DeliverAllPlain(s, author, text, Recipients(s, uks, author, text));
  }

  lemma PmPlain(s: Social, uks: seq<string>, aks: seq<string>, conn: int, text: string)
    requires Plain(s) && Scannable(s, uks, aks) && NUL !in text
    ensures Plain(DoPm(s, uks, aks, conn, text).state)
  {
    var sender := OrLast(Owner(s, aks, conn), s.activeMap, aks);
    var other := OrLast(Named(s, uks, text), s.usersMap, uks);
    if sender.Some? && other.Some? {
      assert PlainUser(s.users[sender.value]);
      SendPmPlain(s, sender.value, other.value, conn, text);
    }
  }

  lemma SendPmPlain(s: Social, m: UserId, o: UserId, conn: int, text: string)
    requires Plain(s) && m < |s.users| && o < |s.users| && NUL !in text && NUL !in s.users[m].name
    ensures Plain(SendPm(s, m, o, conn, text).state)
  {
  }

  lemma CutPlain(s: Social, u: UserId, v: UserId)
    requires Plain(s) && u < |s.users|
    ensures Plain(Cut(s, u, v)) && |Cut(s, u, v).users| == |s.users|
  {
    assert PlainUser(s.users[u]);
  }

  lemma BlockPlain(s: Social, uks: seq<string>, aks: seq<string>, conn: int, rest: string)
    requires Plain(s) && Scannable(s, uks, aks)
    ensures Plain(DoBlock(s, uks, aks, conn, rest).state)
  {
    var owner, other := Owner(s, aks, conn), Named(s, uks, rest);
    if owner.Some? && other.Some? && other.value !in s.users[owner.value].blocks && rest != [] {
      var m, o := owner.value, other.value;
      assert PlainUser(s.users[m]);
      SetPlain(s, m, s.users[m].(blocks := s.users[m].blocks + [o]));
      var s1 := SetUser(s, m, s.users[m].(blocks := s.users[m].blocks + [o]));
      CutPlain(s1, m, o);
      CutPlain(Cut(s1, m, o), o, m);
    }
  }

  lemma {:induction false} RecordsPlain(s: Social, aks: seq<string>, viewer: UserId, now: int, conn: int)
    requires Plain(s) && MapsOk(s) && forall k :: k in aks ==> k in s.activeMap
    ensures Plain(Records(s, aks, viewer, now, conn).state)
    decreases |aks|
  {
    if aks != [] {
      match RecordOf(s, viewer, s.activeMap[aks[0]], now)
      case Refused =>
        SendPlain(s, conn, Error("07"), Answer);
        RecordsPlain(Reply(s, conn, Error("07")), aks[1..], viewer, now, conn);
      case Broken =>
      case Sendable(m) =>
        SendPlain(s, conn, m, Answer);
        RecordsPlain(Reply(s, conn, m), aks[1..], viewer, now, conn);
    }
  }

  lemma StatsPlain(s: Social, aks: seq<string>, now: int, conn: int)
    requires Plain(s) && MapsOk(s) && Enumerates(aks, s.activeMap)
    ensures Plain(DoLogstat(s, aks, now, conn).state) && Plain(DoStat(s, aks, conn).state)
  {
    SendPlain(s, conn, Error("08"), Answer);
    var viewer := OrLast(Owner(s, aks, conn), s.activeMap, aks);
    if viewer.Some? { RecordsPlain(s, aks, viewer.value, now, conn); }
  }

  // ---------------------------------------------------------------- whole runs

  /** The request is the frame that the client encoder makes of a well-formed command. */
  ghost predicate FromCommand(e: Event, c: Cmd.Command) {
    Cmd.WellFormed(c) && !c.UnknownCmd? && e.message == Cmd.Frame(c)
  }

  ghost predicate Typed(e: Event) { exists c :: FromCommand(e, c) }

  predicate PlainRequest(r: Request) {
    match r
    case Register(name, _, _) => NUL !in name
    case Follow(_, rest) => rest != [] && rest[|rest| - 1] == NUL && NUL !in rest[..|rest| - 1]
    case Post(text) => NUL !in text
    case Pm(text) => NUL !in text
    case _ => true
  }

  lemma MeaningIsPlain(c: Cmd.Command)
    requires Cmd.WellFormed(c) && !c.UnknownCmd?
    ensures PlainRequest(Cmd.Meaning(c))
  {
    if c.FollowCmd? { assert (c.name + [NUL])[..|c.name|] == c.name; }
  }

  lemma RequestPlain(s: Social, e: Event)
    requires Plain(s) && CanHandle(s, e) && (Parse(e.message).Some? ==> PlainRequest(Parse(e.message).value))
    ensures Plain(Handle(s, e))
  {
    match Parse(e.message)
    case Some(Register(name, password, birthday)) => RegisterPlain(s, e.uks, e.conn, name, password, birthday);
    case Some(Login(name, password, captcha)) => LoginPlain(s, e.uks, e.conn, name, password, captcha);
    case Some(Logout) => LogoutPlain(s, e.aks, e.conn);
    case Some(Follow(action, rest)) =>
      FollowPlain(s, e.uks, e.aks, e.conn, action, rest[..|rest| - 1]);
      assert rest == rest[..|rest| - 1] + [NUL];
    case Some(Post(text)) => PostPlain(s, e.uks, e.aks, e.conn, text);
    case Some(Pm(text)) => PmPlain(s, e.uks, e.aks, e.conn, text);
    case Some(Block(rest)) => BlockPlain(s, e.uks, e.aks, e.conn, rest);
    case Some(Logstat) => StatsPlain(s, e.aks, e.now, e.conn);
    case Some(Stat) => StatsPlain(s, e.aks, e.now, e.conn);
    case _ =>
  }

  lemma ProcessPlain(s: Social, e: Event, c: Cmd.Command)
    requires Plain(s) && CanHandle(s, e) && FromCommand(e, c)
    ensures Plain(Handle(s, e))
  {
    Cmd.ParseIsMeaning(c);
    MeaningIsPlain(c);
    RequestPlain(s, e);
  }

  lemma {:induction false} RunPlain(s: Social, es: seq<Event>)
    requires Plain(s) && CanRun(s, es) && forall i :: 0 <= i < |es| ==> Typed(es[i])
    ensures Plain(RunAll(s, es))
    decreases |es|
  {
    if es != [] {
      assert Typed(es[0]);
      var c :| FromCommand(es[0], c);
      ProcessPlain(s, es[0], c);
      RunPlain(Handle(s, es[0]), es[1..]);
    }
  }

  /** The messages sent on one connection, in order. */
  function Outbox(log: seq<Sent>, conn: int): seq<ServerMessage> {
    if log == [] then []
    else Outbox(log[..|log| - 1], conn) + if log[|log| - 1].conn == conn then [log[|log| - 1].msg] else []
  }

  lemma FromSnoc(log: seq<Sent>, m: Sent, conn: int)
    ensures RecordFrom(log + [m], 0, conn) <==> RecordFrom(log, 0, conn) || (m.msg.Stats? && m.conn == conn)
  {
    if i :| 0 <= i < |log| && log[i].msg.Stats? && log[i].conn == conn { assert (log + [m])[i] == log[i]; }
    if m.msg.Stats? && m.conn == conn { assert (log + [m])[|log|] == m; }
  }

  lemma {:induction false} OutboxSends(log: seq<Sent>, conn: int)
    requires forall i :: 0 <= i < |log| ==> CanSend(log[i].msg)
    ensures forall i :: 0 <= i < |Outbox(log, conn)| ==> CanSend(Outbox(log, conn)[i])
    ensures HasRecord(Outbox(log, conn)) <==> RecordFrom(log, 0, conn)
  {
    if log != [] {
      var init, last := log[..|log| - 1], log[|log| - 1];
      OutboxSends(init, conn);
      RecordSnoc(Outbox(init, conn), last.msg);
      FromSnoc(init, last, conn);
      assert log == init + [last] && Outbox(init, conn) + [] == Outbox(init, conn);
    }
  }

  /** What the server sends on a connection in a run of typed commands. */
  lemma RunSends(es: seq<Event>, conn: int)
    requires CanRun(EMPTY, es) && forall i :: 0 <= i < |es| ==> Typed(es[i])
    ensures var ms := Outbox(RunAll(EMPTY, es).log, conn);
            && (forall i :: 0 <= i < |ms| ==> CanSend(ms[i]))
            && (HasRecord(ms) <==> EverGetsRecord(EMPTY, es, conn))
  {
    RunPlain(EMPTY, es);
    PlainSends(RunAll(EMPTY, es), conn);
    RunRecordIff(es, conn);
  }

  lemma PlainSends(s: Social, conn: int)
    requires Plain(s)
    ensures forall i :: 0 <= i < |Outbox(s.log, conn)| ==> CanSend(Outbox(s.log, conn)[i])
    ensures HasRecord(Outbox(s.log, conn)) <==> RecordFrom(s.log, 0, conn)
  {
    OutboxSends(s.log, conn);
  }

  /** End to end, for every run of typed commands from any connections and every connection: the client reads
      back exactly what was sent and uses up all bytes if and only if none of its LOGSTATs got a record. */
  lemma ClientInStepIff(es: seq<Event>, conn: int)
    requires CanRun(EMPTY, es) && forall i :: 0 <= i < |es| ==> Typed(es[i])
    ensures var ms := Outbox(RunAll(EMPTY, es).log, conn);
            Read(EncodeAll(ms)) == Reading(Images(ms), [], false) <==> !EverGetsRecord(EMPTY, es, conn)
  {
    RunSends(es, conn);
    InStepIff(Outbox(RunAll(EMPTY, es).log, conn));
  }

  lemma SafeWithoutRecord(ms: seq<ServerMessage>)
    requires (forall i :: 0 <= i < |ms| ==> CanSend(ms[i])) && !HasRecord(ms)
    ensures AllSafe(ms)
  {
  }

  /** ... and then, whatever part of the output has arrived, the client has shown exactly the messages that are
      complete, in the order of sending. */
  lemma ClientShowsWhatWasSent(es: seq<Event>, conn: int, k: nat)
    requires CanRun(EMPTY, es) && (forall i :: 0 <= i < |es| ==> Typed(es[i])) && !EverGetsRecord(EMPTY, es, conn)
    requires k <= |EncodeAll(Outbox(RunAll(EMPTY, es).log, conn))|
    ensures var ms := Outbox(RunAll(EMPTY, es).log, conn);
            && Read(EncodeAll(ms)[..k]).shown == Images(ms)[..Complete(Encoded(ms), k)]
            && !Read(EncodeAll(ms)[..k]).crashed
  {
    RunSends(es, conn);
    SafeWithoutRecord(Outbox(RunAll(EMPTY, es).log, conn));
    ShowsWhatIsComplete(Outbox(RunAll(EMPTY, es).log, conn), k);
  }

  /** Without LOGSTATs on the connection the condition holds. */
  lemma {:induction false} NoLogstatNoRecord(s: Social, es: seq<Event>, conn: int)
    requires CanRun(s, es) && forall i :: 0 <= i < |es| && es[i].conn == conn ==> Parse(es[i].message) != Some(Logstat)
    ensures !EverGetsRecord(s, es, conn)
    decreases |es|
  {
    if es != [] { NoLogstatNoRecord(Handle(s, es[0]), es[1..], conn); }
  }
}
