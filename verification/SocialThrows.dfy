/** Which requests throw, as a condition on the state, the scan orders and the message, and what that means
    for the counter of posts. */
module SocialThrows {
  import opened Options
  import opened Text
  import opened ServerMessages
  import opened Requests
  import opened RequestText
  import opened Social
  import opened SocialInvariant
  import opened SocialRuns
  import Cmd = ClientEncoder

  // ---------------------------------------------------------------- the guards

  /** A PM that would go through, but whose text is too short to cut the name and a space off it. */
  predicate ShortPm(s: Social, e: Event)
    requires CanHandle(s, e)
  {
    match Parse(e.message)
    case Some(Pm(text)) =>
      var sender := OrLast(Owner(s, e.aks, e.conn), s.activeMap, e.aks);
      var other := OrLast(Named(s, e.uks, text), s.usersMap, e.uks);
      && sender.Some? && other.Some?
      && other.value in s.users[sender.value].follows && sender.value !in s.users[other.value].blocks
      && |text| < |s.users[other.value].name| + 1
    case _ => false
  }

  /** A BLOCK without a body that would go through. */
  predicate BareBlock(s: Social, e: Event)
    requires CanHandle(s, e)
  {
    match Parse(e.message)
    case Some(Block(rest)) =>
      var owner, other := Owner(s, e.aks, e.conn), Named(s, e.uks, rest);
      rest == [] && owner.Some? && other.Some? && other.value !in s.users[owner.value].blocks
    case _ => false
  }

  /** The record of some active user who has not blocked the asker cannot be made. */
  predicate SomeBroken(s: Social, aks: seq<string>, viewer: UserId, now: int)
    requires MapsOk(s) && forall k :: k in aks ==> k in s.activeMap
  {
    exists i :: 0 <= i < |aks| && RecordOf(s, viewer, s.activeMap[aks[i]], now).Broken?
  }

  predicate BadLogstat(s: Social, e: Event)
    requires CanHandle(s, e)
  {
    && Parse(e.message) == Some(Logstat)
    && var viewer := OrLast(Owner(s, e.aks, e.conn), s.activeMap, e.aks);
       viewer.Some? && SomeBroken(s, e.aks, viewer.value, e.now)
  }

  predicate BadStat(s: Social, e: Event) { Parse(e.message) == Some(Stat) && s.activeMap != map[] }

  predicate Throws(s: Social, e: Event)
    requires CanHandle(s, e)
  {
    Parse(e.message).None? || ShortPm(s, e) || BareBlock(s, e) || BadLogstat(s, e) || BadStat(s, e)
  }

  // ---------------------------------------------------------------- exactly these throw

  lemma {:induction false} RecordsThrowIff(s: Social, aks: seq<string>, viewer: UserId, now: int, conn: int)
    requires MapsOk(s) && forall k :: k in aks ==> k in s.activeMap
    ensures Records(s, aks, viewer, now, conn).threw <==> SomeBroken(s, aks, viewer, now)
    decreases |aks|
  {
    if aks != [] {
      var r := RecordOf(s, viewer, s.activeMap[aks[0]], now);
      if !r.Broken? {
        var t := Reply(s, conn, if r.Refused? then Error("07") else r.m);
        RecordsThrowIff(t, aks[1..], viewer, now, conn);
        SameBroken(s, t, aks, viewer, now);
      }
    }
  }

  /** Sending a reply does not change the records, and a first record that can be made changes nothing. */
  lemma SameBroken(s: Social, t: Social, aks: seq<string>, viewer: UserId, now: int)
    requires MapsOk(s) && aks != [] && (forall k :: k in aks ==> k in s.activeMap)
    requires t == s.(log := t.log) && !RecordOf(s, viewer, s.activeMap[aks[0]], now).Broken?
    ensures SomeBroken(t, aks[1..], viewer, now) <==> SomeBroken(s, aks, viewer, now)
  {
    if SomeBroken(t, aks[1..], viewer, now) {
      var i :| 0 <= i < |aks[1..]| && RecordOf(t, viewer, t.activeMap[aks[1..][i]], now).Broken?;
      assert RecordOf(s, viewer, s.activeMap[aks[i + 1]], now).Broken?;
    }
    if SomeBroken(s, aks, viewer, now) {
      var i :| 0 <= i < |aks| && RecordOf(s, viewer, s.activeMap[aks[i]], now).Broken?;
      assert RecordOf(t, viewer, t.activeMap[aks[1..][i - 1]], now).Broken?;
    }
  }

  lemma PmThrowsIff(s: Social, e: Event, text: string)
    requires CanHandle(s, e) && Parse(e.message) == Some(Pm(text))
    ensures DoPm(s, e.uks, e.aks, e.conn, text).threw <==> ShortPm(s, e)
    ensures DoPm(s, e.uks, e.aks, e.conn, text).state.lost == s.lost + if ShortPm(s, e) then 1 else 0
  {
  }

  lemma BlockThrowsIff(s: Social, e: Event, rest: string)
    requires CanHandle(s, e) && Parse(e.message) == Some(Block(rest))
    ensures DoBlock(s, e.uks, e.aks, e.conn, rest).threw <==> BareBlock(s, e)
  {
  }

  lemma StatsThrowIff(s: Social, e: Event)
    requires CanHandle(s, e)
    ensures Parse(e.message) == Some(Logstat) ==> (DoLogstat(s, e.aks, e.now, e.conn).threw <==> BadLogstat(s, e))
    ensures Parse(e.message) == Some(Stat) ==> (DoStat(s, e.aks, e.conn).threw <==> BadStat(s, e))
  {
    var viewer := OrLast(Owner(s, e.aks, e.conn), s.activeMap, e.aks);
    if viewer.Some? { RecordsThrowIff(s, e.aks, viewer.value, e.now, e.conn); }
    assert e.aks != [] ==> e.aks[0] in s.activeMap;
    if s.activeMap != map[] {
      var k :| k in s.activeMap;
      assert k in e.aks;
    }
  }

  /** A request throws if and only if one of the five guards holds before it. */
  lemma ThrowsIff(s: Social, e: Event)
    requires CanHandle(s, e)
    ensures Process(s, e.uks, e.aks, e.now, e.conn, e.message).threw <==> Throws(s, e)
  {
    match Parse(e.message)
    case Some(Pm(text)) => PmThrowsIff(s, e, text);
    case Some(Block(rest)) => BlockThrowsIff(s, e, rest);
    case Some(Logstat) => StatsThrowIff(s, e);
    case Some(Stat) => StatsThrowIff(s, e);
    case _ =>
  }

  // ---------------------------------------------------------------- the counter

  lemma {:induction false} DeliverAllLost(s: Social, author: UserId, text: string, us: seq<UserId>)
    requires author < |s.users| && AreUsers(s, us)
    ensures DeliverAll(s, author, text, us).lost == s.lost
  {
    if us != [] { DeliverAllLost(s, author, text, us[..|us| - 1]); }
  }

  lemma PostLost(s: Social, uks: seq<string>, aks: seq<string>, conn: int, text: string)
    requires Scannable(s, uks, aks)
    ensures DoPost(s, uks, aks, conn, text).lost == s.lost
  {
    if Owner(s, aks, conn).Some? {
      var author := Owner(s, aks, conn).value;
      RecipientsAreUsers(s, uks, author, text);
      DeliverAllLost(s, author, text, Recipients(s, uks, author, text));
    }
  }

  lemma LoginLost(s: Social, uks: seq<string>, conn: int, name: string, password: string, captcha: string)
    requires MapsOk(s) && Enumerates(uks, s.usersMap)
    ensures DoLogin(s, uks, conn, name, password, captcha).lost == s.lost
  {
    var found := Matching(s, uks, name);
    if found.Some? && s.users[found.value].password == password && captcha == "1" && !s.users[found.value].active {
      var u := found.value;
      var s1 := SetUser(s, u, s.users[u].(active := true, connId := conn)).(activeMap := s.activeMap[name := u]);
      ReplayGrows(Reply(s1, conn, Ack("02")), u, s.users[u].waiting, "", 0);
    }
  }

  lemma BlockLost(s: Social, uks: seq<string>, aks: seq<string>, conn: int, rest: string)
    requires Scannable(s, uks, aks)
    ensures DoBlock(s, uks, aks, conn, rest).state.lost == s.lost
  {
  }

  lemma AccountsLost(s: Social, e: Event)
    requires CanHandle(s, e) && Parse(e.message).Some?
    requires var r := Parse(e.message).value; r.Register? || r.Logout? || r.Follow? || r.Ignored? || r.Stat?
    ensures Handle(s, e).lost == s.lost
  {
  }

  /** A notification is counted but not delivered exactly when the guard of the short PM holds. */
  lemma LostIff(s: Social, e: Event)
    requires CanHandle(s, e)
    ensures Handle(s, e).lost == s.lost + if ShortPm(s, e) then 1 else 0
  {
    match Parse(e.message)
    case Some(Pm(text)) => PmThrowsIff(s, e, text);
    case Some(Post(text)) => PostLost(s, e.uks, e.aks, e.conn, text);
    case Some(Login(name, password, captcha)) => LoginLost(s, e.uks, e.conn, name, password, captcha);
    case Some(Logstat) => StatsGrow(s, e.aks, e.now, e.conn);
    case Some(Block(rest)) => BlockLost(s, e.uks, e.aks, e.conn, rest);
    case Some(_) => AccountsLost(s, e);
    case None =>
  }

  /** How many events of the run meet the guard of the short PM, each in its own state. */
  function ShortPms(s: Social, es: seq<Event>): nat
    requires CanRun(s, es)
    decreases |es|
  {
    if es == [] then 0 else (if ShortPm(s, es[0]) then 1 else 0) + ShortPms(Handle(s, es[0]), es[1..])
  }

  /** No event of the run meets it. */
  predicate NeverShort(s: Social, es: seq<Event>)
    requires CanRun(s, es)
    decreases |es|
  {
    es == [] || (!ShortPm(s, es[0]) && NeverShort(Handle(s, es[0]), es[1..]))
  }

  lemma {:induction false} RunLost(s: Social, es: seq<Event>)
    requires CanRun(s, es)
    ensures RunAll(s, es).lost == s.lost + ShortPms(s, es)
    ensures ShortPms(s, es) == 0 <==> NeverShort(s, es)
    decreases |es|
  {
    if es != [] {
      LostIff(s, es[0]);
      RunLost(Handle(s, es[0]), es[1..]);
    }
  }

  /** The counter is the live notifications issued, the posts that wait and so many short PMs, in 32 bits. */
  ghost predicate CountsTo(s: Social, short: nat) {
    s.posts == Int32(LiveCount(s.log) + WaitingCount(s.users) + short)
  }

  lemma CounterIs(s: Social, lost: nat)
    requires Inv(s) && s.lost == lost
    ensures CountsTo(s, lost)
  {
  }

  lemma CountedFrom(s: Social, es: seq<Event>)
    requires Inv(s) && s.lost == 0 && CanRun(s, es)
    ensures CountsTo(RunAll(s, es), ShortPms(s, es))
  {
    RunInv(s, es);
    RunLost(s, es);
    CounterIs(RunAll(s, es), ShortPms(s, es));
  }

  /** Conservation over every run: the counter is the live notifications issued plus the posts that wait,
      plus the short PMs. */
  lemma PostsAreCounted(es: seq<Event>)
    requires CanRun(EMPTY, es)
    ensures CountsTo(RunAll(EMPTY, es), ShortPms(EMPTY, es))
  {
    EmptyInv();
    CountedFrom(EMPTY, es);
  }

  lemma BelowWrap(n: nat, lost: nat)
    requires n + lost < 0x8000_0000
    ensures Int32(n + lost) == n <==> lost == 0
  {
  }

  /** The counter is the live notifications issued and the posts that wait. */
  ghost predicate CounterExact(s: Social) { s.posts == LiveCount(s.log) + WaitingCount(s.users) }

  /** There are fewer than 2^31 notifications, so many short PMs included. */
  ghost predicate BelowLimit(s: Social, short: nat) {
    LiveCount(s.log) + WaitingCount(s.users) + short < 0x8000_0000
  }

  lemma ExactIff(s: Social, short: nat)
    requires CountsTo(s, short) && BelowLimit(s, short)
    ensures CounterExact(s) <==> short == 0
  {
    BelowWrap(LiveCount(s.log) + WaitingCount(s.users), short);
  }

  /** The counter is exactly live plus waiting if and only if no event of the run was a short PM (below 2^31
      notifications). */
  lemma CounterExactIff(es: seq<Event>)
    requires CanRun(EMPTY, es) && BelowLimit(RunAll(EMPTY, es), ShortPms(EMPTY, es))
    ensures CounterExact(RunAll(EMPTY, es)) <==> NeverShort(EMPTY, es)
  {
    PostsAreCounted(es);
    RunLost(EMPTY, es);
    ExactIff(RunAll(EMPTY, es), ShortPms(EMPTY, es));
  }

  // ---------------------------------------------------------------- a run that meets the guard

  lemma {:induction false} RunSnoc(s: Social, es: seq<Event>, e: Event)
    requires CanRun(s, es) && CanHandle(RunAll(s, es), e)
    ensures CanRun(s, es + [e]) && RunAll(s, es + [e]) == Handle(RunAll(s, es), e)
    ensures NeverShort(s, es + [e]) <==> NeverShort(s, es) && !ShortPm(RunAll(s, es), e)
    decreases |es|
  {
    if es == [] {
      assert es + [e] == [e] && [e][1..] == [];
    } else {
      RunSnoc(Handle(s, es[0]), es[1..], e);
      assert (es + [e])[1..] == es[1..] + [e];
    }
  }

  function Alone(u: User, log: seq<Sent>): Social {
    Social([u], map[u.name := 0], if u.active then map[u.name := 0] else map[], 0, log, 0)
  }

  /** A user registers, logs in on connection 0, follows himself, and sends himself a PM without a text. */
  lemma SelfRegisters(name: string, password: string, birthday: string)
    requires Cmd.WellFormed(Cmd.RegisterCmd(name, password, birthday))
    ensures var e := Event(0, Cmd.Frame(Cmd.RegisterCmd(name, password, birthday)), [], [], 0);
            && CanHandle(EMPTY, e) && !ShortPm(EMPTY, e)
            && Handle(EMPTY, e) ==
               Alone(User(name, password, birthday, false, -1, [], [], 0, [], 0), [Sent(0, Ack("01"), Answer)])
  {
    Cmd.ParseIsMeaning(Cmd.RegisterCmd(name, password, birthday));
    var t := DoRegister(EMPTY, [], 0, name, password, birthday);
    assert t.users == [User(name, password, birthday, false, -1, [], [], 0, [], 0)];
    assert t.log == [Sent(0, Ack("01"), Answer)];
  }

  lemma SelfLogsIn(u: User, log: seq<Sent>)
    requires Cmd.WellFormed(Cmd.LoginCmd(u.name, u.password, "1")) && !u.active && u.waiting == []
    ensures var e := Event(0, Cmd.Frame(Cmd.LoginCmd(u.name, u.password, "1")), [u.name], [], 0);
            && CanHandle(Alone(u, log), e) && !ShortPm(Alone(u, log), e)
            && Handle(Alone(u, log), e) == Alone(u.(active := true, connId := 0), log + [Sent(0, Ack("02"), Answer)])
  {
    var s := Alone(u, log);
    Cmd.ParseIsMeaning(Cmd.LoginCmd(u.name, u.password, "1"));
    ContainsSelf(u.name);
    assert Matching(s, [u.name], u.name) == Some(0);
    var t := DoLogin(s, [u.name], 0, u.name, u.password, "1");
    assert t.users == [u.(active := true, connId := 0)];
  }

  lemma SelfIsFound(u: User, log: seq<Sent>, message: string)
    requires u.active && u.connId == 0 && StartsWith(message, u.name)
    ensures var s := Alone(u, log);
            && Scannable(s, [u.name], [u.name])
            && Named(s, [u.name], message) == Some(0) && Owner(s, [u.name], 0) == Some(0)
  {
  }

  lemma SelfFollows(u: User, log: seq<Sent>)
    requires Cmd.IsWord(u.name) && u.active && u.connId == 0 && u.follows == [] && u.following == 0 && u.blocks == []
    ensures var e := Event(0, Cmd.Frame(Cmd.FollowCmd('0', u.name)), [u.name], [u.name], 0);
            && CanHandle(Alone(u, log), e) && !ShortPm(Alone(u, log), e)
            && Handle(Alone(u, log), e) ==
               Alone(u.(follows := [0], following := 1), log + [Sent(0, FollowAck(true, u.name + [NUL]), Answer)])
  {
    Cmd.ParseIsMeaning(Cmd.FollowCmd('0', u.name));
    assert (u.name + [NUL])[..|u.name|] == u.name;
    SelfIsFound(u, log, u.name + [NUL]);
    assert [] + [0] == [0] && Short(1) == 1;
    assert AddEdge(Alone(u, log), 0, 0).users == [u.(follows := [0], following := 1)];
  }

  lemma SelfIsShort(u: User, log: seq<Sent>)
    requires u.active && u.connId == 0 && u.follows == [0] && u.blocks == []
    ensures var e := Event(0, "06" + (u.name + [NUL]), [u.name], [u.name], 0);
            && CanHandle(Alone(u, log), e) && ShortPm(Alone(u, log), e)
            && Handle(Alone(u, log), e) == Alone(u, log).(posts := 1, lost := 1)
  {
    TextIs(u.name, NUL);
    assert DropLast(u.name + [NUL]) == u.name;
    SelfIsFound(u, log, u.name);
  }

  lemma {:induction false} OnlyAnswers(log: seq<Sent>)
    requires forall i :: 0 <= i < |log| ==> log[i].origin == Answer
    ensures LiveCount(log) == 0
  {
    if log != [] { OnlyAnswers(log[..|log| - 1]); }
  }

  lemma SelfEnters(name: string, password: string, birthday: string) returns (es: seq<Event>)
    requires Cmd.WellFormed(Cmd.RegisterCmd(name, password, birthday))
    ensures CanRun(EMPTY, es)
    ensures RunAll(EMPTY, es) ==
            Alone(User(name, password, birthday, false, -1, [], [], 0, [], 0), [Sent(0, Ack("01"), Answer)])
  {
    var u := User(name, password, birthday, false, -1, [], [], 0, [], 0);
    SelfRegisters(name, password, birthday);
    es := Chain(EMPTY, [], Event(0, Cmd.Frame(Cmd.RegisterCmd(name, password, birthday)), [], [], 0),
                Alone(u, [Sent(0, Ack("01"), Answer)]));
  }

  lemma SelfOpens(name: string, password: string, birthday: string) returns (es: seq<Event>, log: seq<Sent>)
    requires Cmd.WellFormed(Cmd.RegisterCmd(name, password, birthday))
    ensures CanRun(EMPTY, es)
    ensures RunAll(EMPTY, es) == Alone(User(name, password, birthday, true, 0, [], [], 0, [], 0), log)
    ensures forall i :: 0 <= i < |log| ==> log[i].origin == Answer
  {
    var u := User(name, password, birthday, false, -1, [], [], 0, [], 0);
    log := [Sent(0, Ack("01"), Answer)];
    es := SelfEnters(name, password, birthday);
    SelfLogsIn(u, log);
    es := Chain(Alone(u, log), es, Event(0, Cmd.Frame(Cmd.LoginCmd(name, password, "1")), [name], [], 0),
                Alone(u.(active := true, connId := 0), log + [Sent(0, Ack("02"), Answer)]));
    log := log + [Sent(0, Ack("02"), Answer)];
  }

  lemma SelfFails(u: User, es: seq<Event>, log: seq<Sent>) returns (es': seq<Event>, log': seq<Sent>)
    requires Cmd.IsWord(u.name) && u.active && u.connId == 0 && u.follows == [] && u.following == 0 && u.blocks == []
    requires CanRun(EMPTY, es) && RunAll(EMPTY, es) == Alone(u, log)
    requires forall i :: 0 <= i < |log| ==> log[i].origin == Answer
    ensures CanRun(EMPTY, es')
    ensures RunAll(EMPTY, es') == Alone(u.(follows := [0], following := 1), log').(posts := 1, lost := 1)
    ensures forall i :: 0 <= i < |log'| ==> log'[i].origin == Answer
  {
    var v := u.(follows := [0], following := 1);
    SelfFollows(u, log);
    log' := log + [Sent(0, FollowAck(true, u.name + [NUL]), Answer)];
    es' := Chain(Alone(u, log), es, Event(0, Cmd.Frame(Cmd.FollowCmd('0', u.name)), [u.name], [u.name], 0),
                 Alone(v, log'));
    SelfIsShort(v, log');
    es' := Chain(Alone(v, log'), es', Event(0, "06" + (v.name + [NUL]), [v.name], [v.name], 0),
                 Alone(v, log').(posts := 1, lost := 1));
  }

  /** Such a run exists for every account: its last request throws, and the counter is one too high. */
  lemma ShortPmMiscounts(name: string, password: string, birthday: string)
    requires Cmd.WellFormed(Cmd.RegisterCmd(name, password, birthday))
    ensures exists es ::
              && CanRun(EMPTY, es) && !NeverShort(EMPTY, es)
              && RunAll(EMPTY, es).posts == LiveCount(RunAll(EMPTY, es).log) + WaitingCount(RunAll(EMPTY, es).users) + 1
  {
    var es, log := SelfOpens(name, password, birthday);
    es, log := SelfFails(User(name, password, birthday, true, 0, [], [], 0, [], 0), es, log);
    var t := RunAll(EMPTY, es);
    OnlyAnswers(log);
    assert WaitingCount(t.users) == 0 by { assert t.users[..0] == []; }
    RunLost(EMPTY, es);
  }

  /** One more event of a run from the empty server. */
  lemma Chain(s: Social, es: seq<Event>, e: Event, t: Social) returns (es': seq<Event>)
    requires CanRun(EMPTY, es) && RunAll(EMPTY, es) == s && CanHandle(s, e) && Handle(s, e) == t
    ensures CanRun(EMPTY, es') && RunAll(EMPTY, es') == t
  {
    RunSnoc(EMPTY, es, e);
    es' := es + [e];
  }
}
