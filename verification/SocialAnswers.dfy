/** What a request answers and whom its scans find: where the server does what its users expect, and exactly
    when it does not. */
module SocialAnswers {
  import opened Options
  import opened Text
  import opened ServerMessages
  import opened Requests
  import opened Social
  import opened SocialInvariant
  import opened SocialRuns
  import opened SocialThrows

  // ---------------------------------------------------------------- one reply per request

  function AnswerCount(log: seq<Sent>): nat {
    if log == [] then 0 else AnswerCount(log[..|log| - 1]) + if log[|log| - 1].origin.Answer? then 1 else 0
  }

  lemma AnswerSnoc(log: seq<Sent>, m: Sent)
    ensures AnswerCount(log + [m]) == AnswerCount(log) + if m.origin.Answer? then 1 else 0
  {
    assert (log + [m])[..|log|] == log;
  }

  lemma ReplyCounts(s: Social, conn: int, msg: ServerMessage)
    ensures AnswerCount(Reply(s, conn, msg).log) == AnswerCount(s.log) + 1
  {
    AnswerSnoc(s.log, Sent(conn, msg, Answer));
  }

  lemma {:induction false} DeliverAllAnswers(s: Social, author: UserId, text: string, us: seq<UserId>)
    requires author < |s.users| && AreUsers(s, us)
    ensures AnswerCount(DeliverAll(s, author, text, us).log) == AnswerCount(s.log)
  {
    if us != [] {
      DeliverAllAnswers(s, author, text, us[..|us| - 1]);
      var t := DeliverAll(s, author, text, us[..|us| - 1]);
      var u := us[|us| - 1];
      AnswerSnoc(t.log, Sent(t.users[u].connId, Notification(true, t.users[author].name, text), Live(author, u, true)));
    }
  }

  lemma {:induction false} ReplayAnswers(s: Social, u: UserId, entries: seq<string>, senderName: string, limit: nat)
    requires u < |s.users|
    ensures AnswerCount(ReplayAll(s, u, entries, senderName, limit).log) == AnswerCount(s.log)
    decreases |entries|
  {
    if entries != [] {
      var e := entries[0];
      AnswerSnoc(s.log, Sent(s.users[u].connId, Notification(true, ReplayName(e, senderName), ReplayText(e, limit)),
                             Replay(u)));
      ReplayAnswers(Replayed(s, u, e, senderName, limit), u, entries[1..], ReplayName(e, senderName),
                    ReplayCut(e, limit));
    }
  }

  /** The requests that do not throw and get no reply: the opcodes without a branch in process, and a FOLLOW that
      names a user on a connection whose owner is missing or logged out. */
  predicate Silent(s: Social, e: Event)
    requires CanHandle(s, e)
  {
    match Parse(e.message)
    case Some(Ignored) => true
    case Some(Follow(_, rest)) =>
      Named(s, e.uks, rest).Some? &&
      (Owner(s, e.aks, e.conn).None? || !s.users[Owner(s, e.aks, e.conn).value].active)
    case _ => false
  }

  lemma LoginAnswers(s: Social, uks: seq<string>, conn: int, name: string, password: string, captcha: string)
    requires MapsOk(s) && Enumerates(uks, s.usersMap)
    ensures AnswerCount(DoLogin(s, uks, conn, name, password, captcha).log) == AnswerCount(s.log) + 1
  {
    var found := Matching(s, uks, name);
    ReplyCounts(s, conn, Error("02"));
    if found.Some? && s.users[found.value].password == password && captcha == "1" && !s.users[found.value].active {
      var u := found.value;
      var s1 := SetUser(s, u, s.users[u].(active := true, connId := conn)).(activeMap := s.activeMap[name := u]);
      ReplyCounts(s1, conn, Ack("02"));
      ReplayAnswers(Reply(s1, conn, Ack("02")), u, s.users[u].waiting, "", 0);
    }
  }

  lemma PostAnswers(s: Social, uks: seq<string>, aks: seq<string>, conn: int, text: string)
    requires Scannable(s, uks, aks)
    ensures AnswerCount(DoPost(s, uks, aks, conn, text).log) == AnswerCount(s.log) + 1
  {
    match Owner(s, aks, conn)
    case None => ReplyCounts(s, conn, Error("05"));
    case Some(author) =>
      var us := Recipients(s, uks, author, text);
      RecipientsAreUsers(s, uks, author, text);
      DeliverAllAnswers(s, author, text, us);
      ReplyCounts(DeliverAll(s, author, text, us), conn, Ack("05"));
  }

  lemma PmAnswers(s: Social, uks: seq<string>, aks: seq<string>, conn: int, text: string)
    requires Scannable(s, uks, aks)
    ensures var r := DoPm(s, uks, aks, conn, text);
            AnswerCount(r.state.log) == AnswerCount(s.log) + if r.threw then 0 else 1
  {
    ReplyCounts(s, conn, Error("06"));
    var t := DoPm(s, uks, aks, conn, text).state;
    if |t.log| == |s.log| + 2 {
      AnswerSnoc(s.log, t.log[|s.log|]);
      AnswerSnoc(s.log + [t.log[|s.log|]], t.log[|s.log| + 1]);
    }
  }

  lemma BlockAnswers(s: Social, uks: seq<string>, aks: seq<string>, conn: int, rest: string)
    requires Scannable(s, uks, aks)
    ensures var r := DoBlock(s, uks, aks, conn, rest);
            AnswerCount(r.state.log) == AnswerCount(s.log) + if r.threw then 0 else 1
  {
    ReplyCounts(s, conn, Error("12"));
    ReplyCounts(s, conn, Ack("12"));
  }

  lemma RegisterAnswers(s: Social, uks: seq<string>, conn: int, name: string, password: string, birthday: string)
    requires MapsOk(s) && Enumerates(uks, s.usersMap)
    ensures AnswerCount(DoRegister(s, uks, conn, name, password, birthday).log) == AnswerCount(s.log) + 1
  {
    ReplyCounts(s, conn, Error("01"));
    ReplyCounts(s, conn, Ack("01"));
  }

  lemma FollowAnswers(s: Social, e: Event, action: char, rest: string)
    requires CanHandle(s, e) && Parse(e.message) == Some(Follow(action, rest))
    ensures AnswerCount(DoFollow(s, e.uks, e.aks, e.conn, action, rest).log) ==
            AnswerCount(s.log) + if Silent(s, e) then 0 else 1
  {
    ReplyCounts(s, e.conn, Error("04"));
    ReplyCounts(s, e.conn, FollowAck(true, rest));
    ReplyCounts(s, e.conn, FollowAck(false, rest));
  }

  lemma StatAnswers(s: Social, e: Event)
    requires CanHandle(s, e) && Parse(e.message) == Some(Stat)
    ensures AnswerCount(DoStat(s, e.aks, e.conn).state.log) == AnswerCount(s.log) + if BadStat(s, e) then 0 else 1
  {
    StatsThrowIff(s, e);
    ReplyCounts(s, e.conn, Error("08"));
  }

  /** A request other than LOGSTAT is answered exactly once if none of the guards of an exception holds and it
      is not silent, and not at all otherwise. */
  lemma OneReplyIff(s: Social, e: Event)
    requires CanHandle(s, e) && Parse(e.message) != Some(Logstat)
    ensures AnswerCount(Handle(s, e).log) == AnswerCount(s.log) + if Throws(s, e) || Silent(s, e) then 0 else 1
  {
    ThrowsIff(s, e);
    match Parse(e.message)
    case None =>
    case Some(Register(name, password, birthday)) => RegisterAnswers(s, e.uks, e.conn, name, password, birthday);
    case Some(Login(name, password, captcha)) => LoginAnswers(s, e.uks, e.conn, name, password, captcha);
    case Some(Logout) => ReplyCounts(s, e.conn, Ack("03")); ReplyCounts(s, e.conn, Error("03"));
    case Some(Follow(action, rest)) => FollowAnswers(s, e, action, rest);
    case Some(Post(text)) => PostAnswers(s, e.uks, e.aks, e.conn, text);
    case Some(Pm(text)) => PmAnswers(s, e.uks, e.aks, e.conn, text);
    case Some(Block(rest)) => BlockAnswers(s, e.uks, e.aks, e.conn, rest);
    case Some(Stat) => StatAnswers(s, e);
    case Some(Ignored) =>
  }

  /** How many active users LOGSTAT answers for: those scanned before the first whose record cannot be made. */
  function Served(s: Social, aks: seq<string>, viewer: UserId, now: int): (n: nat)
    requires MapsOk(s) && forall k :: k in aks ==> k in s.activeMap
    ensures n <= |aks|
  {
    if aks == [] || RecordOf(s, viewer, s.activeMap[aks[0]], now).Broken? then 0
    else 1 + Served(s, aks[1..], viewer, now)
  }

  /** Replies do not change what will be served. */
  lemma {:induction false} SameServed(s: Social, t: Social, aks: seq<string>, viewer: UserId, now: int)
    requires MapsOk(s) && (forall k :: k in aks ==> k in s.activeMap) && t == s.(log := t.log)
    ensures Served(t, aks, viewer, now) == Served(s, aks, viewer, now)
  {
    if aks != [] { SameServed(s, t, aks[1..], viewer, now); }
  }

  lemma {:induction false} RecordsAnswer(s: Social, aks: seq<string>, viewer: UserId, now: int, conn: int)
    requires MapsOk(s) && forall k :: k in aks ==> k in s.activeMap
    ensures AnswerCount(Records(s, aks, viewer, now, conn).state.log) ==
            AnswerCount(s.log) + Served(s, aks, viewer, now)
    decreases |aks|
  {
    if aks != [] {
      var r := RecordOf(s, viewer, s.activeMap[aks[0]], now);
      if !r.Broken? {
        var m := if r.Refused? then Error("07") else r.m;
        ReplyCounts(s, conn, m);
        RecordsAnswer(Reply(s, conn, m), aks[1..], viewer, now, conn);
        SameServed(s, Reply(s, conn, m), aks[1..], viewer, now);
      }
    }
  }

  lemma LogstatAnswers(s: Social, aks: seq<string>, now: int, conn: int)
    requires MapsOk(s) && Enumerates(aks, s.activeMap)
    ensures var viewer := OrLast(Owner(s, aks, conn), s.activeMap, aks);
            AnswerCount(DoLogstat(s, aks, now, conn).state.log) ==
            AnswerCount(s.log) + if viewer.None? then 0 else Served(s, aks, viewer.value, now)
  {
    var viewer := OrLast(Owner(s, aks, conn), s.activeMap, aks);
    if viewer.Some? { RecordsAnswer(s, aks, viewer.value, now, conn); }
  }

  /** LOGSTAT is answered once for every active entry up to the first broken record, and for all of them if and
      only if it does not throw. */
  lemma LogstatReplies(s: Social, e: Event)
    requires CanHandle(s, e) && Parse(e.message) == Some(Logstat)
    ensures var viewer := OrLast(Owner(s, e.aks, e.conn), s.activeMap, e.aks);
            var n := if viewer.None? then 0 else Served(s, e.aks, viewer.value, e.now);
            && AnswerCount(DoLogstat(s, e.aks, e.now, e.conn).state.log) == AnswerCount(s.log) + n
            && Handle(s, e) == DoLogstat(s, e.aks, e.now, e.conn).state
            && (n == |e.aks| <==> !BadLogstat(s, e))
  {
    LogstatAnswers(s, e.aks, e.now, e.conn);
    HandlesLogstat(s, e);
    LogstatAllIff(s, e);
  }

  lemma HandlesLogstat(s: Social, e: Event)
    requires CanHandle(s, e) && Parse(e.message) == Some(Logstat)
    ensures Handle(s, e) == DoLogstat(s, e.aks, e.now, e.conn).state
  {
  }

  lemma LogstatAllIff(s: Social, e: Event)
    requires CanHandle(s, e) && Parse(e.message) == Some(Logstat)
    ensures var viewer := OrLast(Owner(s, e.aks, e.conn), s.activeMap, e.aks);
            (if viewer.None? then 0 else Served(s, e.aks, viewer.value, e.now)) == |e.aks| <==> !BadLogstat(s, e)
  {
    var viewer := OrLast(Owner(s, e.aks, e.conn), s.activeMap, e.aks);
    if viewer.Some? { ServedAllIff(s, e.aks, viewer.value, e.now); }
  }

  lemma {:induction false} ServedAllIff(s: Social, aks: seq<string>, viewer: UserId, now: int)
    requires MapsOk(s) && forall k :: k in aks ==> k in s.activeMap
    ensures Served(s, aks, viewer, now) == |aks| <==> !SomeBroken(s, aks, viewer, now)
  {
    if aks != [] {
      if !RecordOf(s, viewer, s.activeMap[aks[0]], now).Broken? {
        ServedAllIff(s, aks[1..], viewer, now);
        SameBroken(s, s, aks, viewer, now);
      }
    }
  }

  // ---------------------------------------------------------------- whom a scan finds

  lemma {:induction false} SomeOrder(keys: set<string>) returns (ks: seq<string>)
    ensures NoDuplicates(ks) && forall k :: k in ks <==> k in keys
    decreases keys
  {
    if keys == {} {
      ks := [];
    } else {
      var k :| k in keys;
      var rest := SomeOrder(keys - {k});
      ks := [k] + rest;
    }
  }

  lemma OrderStartingWith(m: map<string, UserId>, k: string) returns (ks: seq<string>)
    requires k in m
    ensures Enumerates(ks, m) && ks[0] == k
  {
    var rest := SomeOrder(m.Keys - {k});
    ks := [k] + rest;
    assert forall x :: x in m <==> x in m.Keys;
  }

  /** User `u` is in the map and passes the test, and no other user in the map does. */
  ghost predicate OnlyIn(users: seq<User>, m: map<string, UserId>, p: Test, u: UserId)
    requires forall k :: k in m ==> m[k] < |users|
  {
    && u < |users| && Passes(users[u], p) && (exists k :: k in m && m[k] == u)
    && (forall k :: k in m && m[k] != u ==> !Passes(users[m[k]], p))
  }

  /** A scan of a map finds user `u` in every order exactly when `u` is the only user in it that passes. */
  lemma FoundInMapIff(users: seq<User>, m: map<string, UserId>, p: Test, u: UserId)
    requires forall k :: k in m ==> m[k] < |users|
    ensures (forall ks :: Enumerates(ks, m) ==> FirstWhere(users, m, ks, p) == Some(u)) <==> OnlyIn(users, m, p, u)
  {
    if forall ks :: Enumerates(ks, m) ==> FirstWhere(users, m, ks, p) == Some(u) {
      var some := SomeOrder(m.Keys);
      assert Enumerates(some, m);
      forall k | k in m && m[k] != u ensures !Passes(users[m[k]], p) {
        var ks := OrderStartingWith(m, k);
        assert FirstWhere(users, m, ks, p) == Some(u);
      }
    }
    if OnlyIn(users, m, p, u) {
      var k :| k in m && m[k] == u;
      forall ks | Enumerates(ks, m) ensures FirstWhere(users, m, ks, p) == Some(u) {
        assert k in ks;
      }
    }
  }

  /** `u` passes the test and nobody else does. */
  ghost predicate OnlyOne(s: Social, p: Test, u: UserId) {
    u < |s.users| && Passes(s.users[u], p) && forall v :: 0 <= v < |s.users| && v != u ==> !Passes(s.users[v], p)
  }

  /** A scan finds user `u` in every map order exactly when `u` is the only user that passes its test: the
      substring tests are safe for `u` if and only if no other name interferes. */
  lemma FoundInEveryOrderIff(s: Social, p: Test, u: UserId)
    requires Users(s)
    ensures (forall uks :: Enumerates(uks, s.usersMap) ==> FirstWhere(s.users, s.usersMap, uks, p) == Some(u))
            <==> OnlyOne(s, p, u)
  {
    FoundInMapIff(s.users, s.usersMap, p, u);
    if OnlyIn(s.users, s.usersMap, p, u) {
      forall v | 0 <= v < |s.users| && v != u ensures !Passes(s.users[v], p) { assert UserOk(s, v); }
    }
    if OnlyOne(s, p, u) { assert UserOk(s, u); }
  }

  /** With NUL-free names, FOLLOW and BLOCK by full name find exactly that user when no other name is a
      substring of it. */
  lemma ExactNameIsFound(s: Social, uks: seq<string>, u: UserId)
    requires Users(s) && Enumerates(uks, s.usersMap) && u < |s.users|
    requires forall v :: 0 <= v < |s.users| ==> NUL !in s.users[v].name
    requires forall v :: 0 <= v < |s.users| && v != u ==> !Occurs(s.users[v].name, s.users[u].name)
    ensures Named(s, uks, s.users[u].name + [NUL]) == Some(u)
  {
    var p := NameIn(s.users[u].name + [NUL]);
    forall v | 0 <= v < |s.users| && v != u ensures !Passes(s.users[v], p) {
      ContainsIff(s.users[u].name, s.users[v].name);
      ContainsSnoc(s.users[u].name, NUL, s.users[v].name);
    }
    ContainsSelf(s.users[u].name);
    ContainsSnoc(s.users[u].name, NUL, s.users[u].name);
    FoundInEveryOrderIff(s, p, u);
  }

  /** A private message reaches a user its text names - or, when the text names nobody, the user who
      happens to be scanned last; and it is sent in the name of the owner of the connection - or, when
      there is none, of the active entry that happens to be scanned last. */
  lemma PmAddressee(s: Social, uks: seq<string>, aks: seq<string>, conn: int, text: string, i: nat)
    requires Scannable(s, uks, aks)
    requires var log := DoPm(s, uks, aks, conn, text).state.log; |s.log| <= i < |log| && log[i].origin.Live?
    ensures var o := DoPm(s, uks, aks, conn, text).state.log[i].origin;
            && o.to < |s.users| && o.author < |s.users|
            && (Occurs(s.users[o.to].name, text) <==> Named(s, uks, text).Some?)
            && (Named(s, uks, text).None? ==> uks != [] && o.to == s.usersMap[uks[|uks| - 1]])
            && (s.users[o.author].connId == conn <==> Owner(s, aks, conn).Some?)
            && (Owner(s, aks, conn).None? ==> aks != [] && o.author == s.activeMap[aks[|aks| - 1]])
  {
    ContainsIff(text, s.users[DoPm(s, uks, aks, conn, text).state.log[i].origin.to].name);
  }
}
