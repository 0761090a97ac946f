/** What every request of every connection keeps: the accounts, the follow and block lists, the
    counters. */
module SocialInvariant {
  import opened Text
  import opened ServerMessages
  import opened Requests
  import opened Social

  /** `v` exists and has not blocked `i`. */
  ghost predicate MayFollow(s: Social, i: UserId, v: UserId) { v < |s.users| && i !in s.users[v].blocks }

  /** A user's account and lists are sound; in particular nobody follows a user who has blocked him. */
  ghost predicate UserOk(s: Social, i: UserId) {
    i < |s.users| ==>
      var u := s.users[i];
      && u.name in s.usersMap && s.usersMap[u.name] == i
      && NoDuplicates(u.follows) && NoDuplicates(u.blocks)
      && (forall v :: v in u.follows ==> MayFollow(s, i, v))
      && (forall v :: v in u.blocks ==> v < |s.users|)
      && u.following == Short(|u.follows| + u.cuts)
      && (forall e :: e in u.waiting ==> ' ' in e)
  }

  ghost predicate Users(s: Social) {
    && MapsOk(s)
    && (forall k :: k in s.usersMap ==> s.users[s.usersMap[k]].name == k)
    && (forall i: UserId :: UserOk(s, i))
  }

  /** Live notifications among the calls of send: posts and PMs, but no login replays. */
  function LiveCount(log: seq<Sent>): nat {
    if log == [] then 0
    else LiveCount(log[..|log| - 1]) + if log[|log| - 1].origin.Live? then 1 else 0
  }

  function WaitingCount(users: seq<User>): nat {
    if users == [] then 0 else WaitingCount(users[..|users| - 1]) + |users[|users| - 1].waiting|
  }

  /** Conservation: the counter is the live notifications plus the waiting posts, plus the PM commands
      that threw after counting. */
  ghost predicate Counted(s: Social) {
    s.posts == Int32(LiveCount(s.log) + WaitingCount(s.users) + s.lost)
  }

  ghost predicate Inv(s: Social) { Users(s) && Counted(s) }

  // ---------------------------------------------------------------- sums

  lemma LiveSnoc(log: seq<Sent>, m: Sent)
    ensures LiveCount(log + [m]) == LiveCount(log) + if m.origin.Live? then 1 else 0
  {
    assert (log + [m])[..|log|] == log;
  }

  lemma {:induction false} WaitingUpdate(users: seq<User>, i: nat, u: User)
    requires i < |users|
    ensures WaitingCount(users[i := u]) + |users[i].waiting| == WaitingCount(users) + |u.waiting|
  {
    var n := |users| - 1;
    if i == n {
      assert users[i := u][..n] == users[..n];
    } else {
      WaitingUpdate(users[..n], i, u);
      assert users[i := u][..n] == users[..n][i := u];
    }
  }

  lemma WaitingSnoc(users: seq<User>, u: User)
    ensures WaitingCount(users + [u]) == WaitingCount(users) + |u.waiting|
  {
    assert (users + [u])[..|users|] == users;
  }

  lemma CountOneMore(n: int)
    ensures Int32(Int32(n) + 1) == Int32(n + 1)
  {
  }

  // ---------------------------------------------------------------- single updates

  lemma SameUsers(s: Social, s': Social)
    requires Users(s) && s'.users == s.users && s'.usersMap == s.usersMap && s'.activeMap == s.activeMap
    ensures Users(s')
  {
    forall i: UserId ensures UserOk(s', i) { assert UserOk(s, i); }
  }

  /** Replacing a user by one with the same name and blocks and sound lists. */
  lemma UpdateUser(s: Social, u: UserId, user: User)
    requires Users(s) && u < |s.users|
    requires user.name == s.users[u].name && user.blocks == s.users[u].blocks
    requires NoDuplicates(user.follows) && user.following == Short(|user.follows| + user.cuts)
    requires forall v :: v in user.follows ==> MayFollow(s, u, v)
    requires forall e :: e in user.waiting ==> ' ' in e
    ensures Users(SetUser(s, u, user))
  {
    var s' := SetUser(s, u, user);
    assert UserOk(s, u);
    forall i: UserId ensures UserOk(s', i) {
      assert UserOk(s, i);
      forall v | MayFollow(s, i, v) ensures MayFollow(s', i, v) { }
    }
  }

  lemma CountUpdate(s: Social, u: UserId, user: User)
    requires Counted(s) && u < |s.users| && |user.waiting| == |s.users[u].waiting|
    ensures Counted(SetUser(s, u, user))
  {
    WaitingUpdate(s.users, u, user);
  }

  lemma SendKeeps(s: Social, conn: int, msg: ServerMessage, origin: Origin)
    requires Inv(s) && !origin.Live?
    ensures Inv(Send(s, conn, msg, origin))
  {
    SameUsers(s, Send(s, conn, msg, origin));
    LiveSnoc(s.log, Sent(conn, msg, origin));
  }

  lemma {:induction false} ReplayKeeps(s: Social, u: UserId, entries: seq<string>, senderName: string, limit: nat)
    requires Inv(s) && u < |s.users|
    ensures Inv(ReplayAll(s, u, entries, senderName, limit))
    decreases |entries|
  {
    if entries != [] {
      var e := entries[0];
      SendKeeps(s, s.users[u].connId, Notification(true, ReplayName(e, senderName), ReplayText(e, limit)), Replay(u));
      ReplayKeeps(Replayed(s, u, e, senderName, limit), u, entries[1..], ReplayName(e, senderName),
                  ReplayCut(e, limit));
    }
  }

  // ---------------------------------------------------------------- the commands

  /** `contains` is reflexive, so a registration that succeeds finds its name unused. */
  lemma RegisterIsNew(s: Social, uks: seq<string>, name: string)
    requires Users(s) && Enumerates(uks, s.usersMap) && Matching(s, uks, name).None?
    ensures name !in s.usersMap
  {
    forall k | k in s.usersMap ensures !Contains(k, name) {
      assert k in uks && !Passes(s.users[s.usersMap[k]], NameHas(name));
    }
    ContainsSelf(name);
  }

  predicate IsNewUser(user: User) {
    user.follows == [] && user.blocks == [] && user.waiting == [] && user.following == 0 && user.cuts == 0
  }

  function Added(s: Social, user: User): Social {
    s.(users := s.users + [user], usersMap := s.usersMap[user.name := |s.users|])
  }

  lemma AddedOk(s: Social, user: User, i: UserId)
    requires Users(s) && user.name !in s.usersMap && IsNewUser(user)
    ensures UserOk(Added(s, user), i)
  {
    assert UserOk(s, i);
    forall v | MayFollow(s, i, v) ensures MayFollow(Added(s, user), i, v) { }
  }

  lemma AddedUsers(s: Social, user: User)
    requires Users(s) && user.name !in s.usersMap && IsNewUser(user)
    ensures Users(Added(s, user))
  {
    forall i: UserId ensures UserOk(Added(s, user), i) { AddedOk(s, user, i); }
  }

  lemma AddUser(s: Social, user: User)
    requires Inv(s) && user.name !in s.usersMap && IsNewUser(user)
    ensures Inv(Added(s, user))
  {
    AddedUsers(s, user);
    WaitingSnoc(s.users, user);
  }

  lemma RegisterKeeps(s: Social, uks: seq<string>, conn: int, name: string, password: string, birthday: string)
    requires Inv(s) && Enumerates(uks, s.usersMap)
    ensures Inv(DoRegister(s, uks, conn, name, password, birthday))
  {
    if Matching(s, uks, name).Some? {
      SendKeeps(s, conn, Error("01"), Answer);
    } else {
      RegisterIsNew(s, uks, name);
      var user := User(name, password, birthday, false, -1, [], [], 0, [], 0);
      AddUser(s, user);
      SendKeeps(Added(s, user), conn, Ack("01"), Answer);
    }
  }

  /** The part of a user that login and logout change. */
  lemma SessionKeeps(s: Social, u: UserId, active: bool, connId: int)
    requires Inv(s) && u < |s.users|
    ensures Inv(SetUser(s, u, s.users[u].(active := active, connId := connId)))
  {
    assert UserOk(s, u);
    UpdateUser(s, u, s.users[u].(active := active, connId := connId));
    CountUpdate(s, u, s.users[u].(active := active, connId := connId));
  }

  lemma ActivateKeeps(s: Social, name: string, u: UserId)
    requires Inv(s) && u < |s.users|
    ensures Inv(s.(activeMap := s.activeMap[name := u]))
  {
    var s' := s.(activeMap := s.activeMap[name := u]);
    forall i: UserId ensures UserOk(s', i) { assert UserOk(s, i); }
  }

  lemma LoginKeeps(s: Social, uks: seq<string>, conn: int, name: string, password: string, captcha: string)
    requires Inv(s) && Enumerates(uks, s.usersMap)
    ensures Inv(DoLogin(s, uks, conn, name, password, captcha))
  {
    SendKeeps(s, conn, Error("02"), Answer);
    var found := Matching(s, uks, name);
    if found.Some? && s.users[found.value].password == password && captcha == "1" && !s.users[found.value].active {
      var u := found.value;
      SessionKeeps(s, u, true, conn);
      var s1 := SetUser(s, u, s.users[u].(active := true, connId := conn));
      ActivateKeeps(s1, name, u);
      var s2 := s1.(activeMap := s.activeMap[name := u]);
      SendKeeps(s2, conn, Ack("02"), Answer);
      ReplayKeeps(Reply(s2, conn, Ack("02")), u, s.users[u].waiting, "", 0);
    }
  }

  lemma LogoutKeeps(s: Social, aks: seq<string>, conn: int)
    requires Inv(s) && Enumerates(aks, s.activeMap)
    ensures Inv(DoLogout(s, aks, conn))
  {
    match Owner(s, aks, conn)
    case Some(u) =>
      SessionKeeps(s, u, false, s.users[u].connId);
      SendKeeps(SetUser(s, u, s.users[u].(active := false)), conn, Ack("03"), Answer);
    case None =>
      SendKeeps(s, conn, Error("03"), Answer);
  }

  lemma AddEdgeKeeps(s: Social, m: UserId, o: UserId)
    requires Inv(s) && m < |s.users| && MayFollow(s, m, o) && o !in s.users[m].follows
    ensures Inv(AddEdge(s, m, o))
  {
    var me := s.users[m];
    assert UserOk(s, m);
    UpdateUser(s, m, me.(follows := me.follows + [o], following := Short(me.following + 1)));
    CountUpdate(s, m, me.(follows := me.follows + [o], following := Short(me.following + 1)));
  }

  lemma DropEdgeKeeps(s: Social, m: UserId, o: UserId)
    requires Inv(s) && m < |s.users| && o in s.users[m].follows
    ensures Inv(DropEdge(s, m, o))
  {
    var me := s.users[m];
    assert UserOk(s, m);
    RemoveFirstSpec(me.follows, o);
    UpdateUser(s, m, me.(follows := RemoveFirst(me.follows, o), following := Short(me.following - 1)));
    CountUpdate(s, m, me.(follows := RemoveFirst(me.follows, o), following := Short(me.following - 1)));
  }

  lemma EdgeKeeps(s: Social, m: UserId, o: UserId, conn: int, action: char, rest: string)
    requires Inv(s) && m < |s.users| && o < |s.users|
    ensures Inv(ChangeEdge(s, m, o, conn, action, rest))
  {
    if action == '0' && o !in s.users[m].follows && m !in s.users[o].blocks {
      AddEdgeKeeps(s, m, o);
      SendKeeps(AddEdge(s, m, o), conn, FollowAck(true, rest), Answer);
    } else if action == '1' && o in s.users[m].follows {
      DropEdgeKeeps(s, m, o);
      SendKeeps(DropEdge(s, m, o), conn, FollowAck(false, rest), Answer);
    } else {
      SendKeeps(s, conn, Error("04"), Answer);
    }
  }

  lemma FollowKeeps(s: Social, uks: seq<string>, aks: seq<string>, conn: int, action: char, rest: string)
    requires Inv(s) && Scannable(s, uks, aks)
    ensures Inv(DoFollow(s, uks, aks, conn, action, rest))
  {
    var other, owner := Named(s, uks, rest), Owner(s, aks, conn);
    if other.None? {
      SendKeeps(s, conn, Error("04"), Answer);
    } else if owner.Some? {
      EdgeKeeps(s, owner.value, other.value, conn, action, rest);
    }
  }

  /** Counting one more notification that was sent. */
  lemma CountSent(s: Social, conn: int, msg: ServerMessage, origin: Origin)
    requires Inv(s) && origin.Live?
    ensures Inv(Send(s, conn, msg, origin).(posts := Int32(s.posts + 1)))
  {
    var t := Send(s, conn, msg, origin).(posts := Int32(s.posts + 1));
    SameUsers(s, t);
    LiveSnoc(s.log, Sent(conn, msg, origin));
    CountedMore(s, t);
  }

  /** One more to count, and counted. */
  lemma CountedMore(s: Social, t: Social)
    requires Counted(s) && t.posts == Int32(s.posts + 1)
    requires LiveCount(t.log) + WaitingCount(t.users) + t.lost == LiveCount(s.log) + WaitingCount(s.users) + s.lost + 1
    ensures Counted(t)
  {
    CountOneMore(LiveCount(s.log) + WaitingCount(s.users) + s.lost);
  }

  /** Counting one more post that waits. */
  lemma CountWaiting(s: Social, u: UserId, e: string)
    requires Inv(s) && u < |s.users| && ' ' in e
    ensures Inv(SetUser(s, u, s.users[u].(waiting := s.users[u].waiting + [e])).(posts := Int32(s.posts + 1)))
  {
    var user := s.users[u].(waiting := s.users[u].waiting + [e]);
    assert UserOk(s, u);
    UpdateUser(s, u, user);
    var t := SetUser(s, u, user).(posts := Int32(s.posts + 1));
    SameUsers(SetUser(s, u, user), t);
    WaitingUpdate(s.users, u, user);
    CountedMore(s, t);
  }

  lemma DeliverKeeps(s: Social, author: UserId, text: string, u: UserId)
    requires Inv(s) && author < |s.users| && u < |s.users|
    ensures Inv(Deliver(s, author, text, u))
  {
    var name := s.users[author].name;
    if s.users[u].active {
      CountSent(s, s.users[u].connId, Notification(true, name, text), Live(author, u, true));
    } else {
      assert (name + " " + text)[|name|] == ' ';
      CountWaiting(s, u, name + " " + text);
    }
  }

  lemma {:induction false} DeliverAllKeeps(s: Social, author: UserId, text: string, us: seq<UserId>)
    requires Inv(s) && author < |s.users| && AreUsers(s, us)
    ensures Inv(DeliverAll(s, author, text, us))
  {
    if us != [] {
      DeliverAllKeeps(s, author, text, us[..|us| - 1]);
      DeliverKeeps(DeliverAll(s, author, text, us[..|us| - 1]), author, text, us[|us| - 1]);
    }
  }

  lemma PostKeeps(s: Social, uks: seq<string>, aks: seq<string>, conn: int, text: string)
    requires Inv(s) && Scannable(s, uks, aks)
    ensures Inv(DoPost(s, uks, aks, conn, text))
  {
    match Owner(s, aks, conn)
    case None => SendKeeps(s, conn, Error("05"), Answer);
    case Some(author) =>
      RecipientsAreUsers(s, uks, author, text);
      DeliverAllKeeps(s, author, text, Recipients(s, uks, author, text));
      SendKeeps(DeliverAll(s, author, text, Recipients(s, uks, author, text)), conn, Ack("05"), Answer);
  }

  /** Counting a PM that then throws. */
  lemma CountLost(s: Social)
    requires Inv(s)
    ensures Inv(s.(posts := Int32(s.posts + 1), lost := s.lost + 1))
  {
    var t := s.(posts := Int32(s.posts + 1), lost := s.lost + 1);
    SameUsers(s, t);
    CountedMore(s, t);
  }

  lemma MessageKeeps(s: Social, m: UserId, o: UserId, conn: int, text: string)
    requires Inv(s) && m < |s.users| && o < |s.users|
    ensures Inv(SendPm(s, m, o, conn, text).state)
  {
    var skip := |s.users[o].name| + 1;
    if |text| < skip {
      CountLost(s);
    } else {
      var msg := Notification(false, s.users[m].name, text[skip..]);
      CountSent(s, s.users[o].connId, msg, Live(m, o, false));
      SendKeeps(Send(s, s.users[o].connId, msg, Live(m, o, false)).(posts := Int32(s.posts + 1)), conn, Ack("06"),
                Answer);
    }
  }

  lemma PmKeeps(s: Social, uks: seq<string>, aks: seq<string>, conn: int, text: string)
    requires Inv(s) && Scannable(s, uks, aks)
    ensures Inv(DoPm(s, uks, aks, conn, text).state)
  {
    SendKeeps(s, conn, Error("06"), Answer);
    var sender := OrLast(Owner(s, aks, conn), s.activeMap, aks);
    var other := OrLast(Named(s, uks, text), s.usersMap, uks);
    if sender.Some? && other.Some? { MessageKeeps(s, sender.value, other.value, conn, text); }
  }

  /** Cutting an edge removes it and counts it. */
  lemma CutKeeps(s: Social, u: UserId, v: UserId)
    requires Inv(s) && u < |s.users|
    ensures Inv(Cut(s, u, v)) && v !in Cut(s, u, v).users[u].follows
    ensures forall w :: w in Cut(s, u, v).users[u].follows ==> w in s.users[u].follows
  {
    var user := s.users[u];
    assert UserOk(s, u);
    RemoveFirstSpec(user.follows, v);
    if v in user.follows {
      UpdateUser(s, u, user.(follows := RemoveFirst(user.follows, v), cuts := user.cuts + 1));
      CountUpdate(s, u, user.(follows := RemoveFirst(user.follows, v), cuts := user.cuts + 1));
    }
  }

  /** A user who is not followed by `o` may block `o`. */
  lemma AddBlock(s: Social, m: UserId, o: UserId)
    requires Inv(s) && m < |s.users| && o < |s.users| && o !in s.users[m].blocks && m !in s.users[o].follows
    ensures Inv(SetUser(s, m, s.users[m].(blocks := s.users[m].blocks + [o])))
  {
    var user := s.users[m].(blocks := s.users[m].blocks + [o]);
    var s' := SetUser(s, m, user);
    assert UserOk(s, m);
    forall i: UserId ensures UserOk(s', i) {
      assert UserOk(s, i);
      forall v | MayFollow(s, i, v) && !(i == o && v == m) ensures MayFollow(s', i, v) { }
    }
    CountUpdate(s, m, user);
  }

  /** The order of the three updates of BLOCK does not matter. */
  lemma BlockOrder(s: Social, m: UserId, o: UserId)
    requires m < |s.users| && o < |s.users|
    ensures var s1 := SetUser(s, m, s.users[m].(blocks := s.users[m].blocks + [o]));
            var t := Cut(Cut(s, m, o), o, m);
            Cut(Cut(s1, m, o), o, m) == SetUser(t, m, t.users[m].(blocks := t.users[m].blocks + [o]))
  {
    var s1 := SetUser(s, m, s.users[m].(blocks := s.users[m].blocks + [o]));
    var t := Cut(Cut(s, m, o), o, m);
    assert Cut(Cut(s1, m, o), o, m).users == SetUser(t, m, t.users[m].(blocks := t.users[m].blocks + [o])).users;
  }

  lemma BlockUserKeeps(s: Social, m: UserId, o: UserId)
    requires Inv(s) && m < |s.users| && o < |s.users| && o !in s.users[m].blocks
    ensures Inv(BlockUser(s, m, o))
  {
    CutKeeps(s, m, o);
    CutKeeps(Cut(s, m, o), o, m);
    BlockOrder(s, m, o);
    AddBlock(Cut(Cut(s, m, o), o, m), m, o);
  }

  lemma BlockKeeps(s: Social, uks: seq<string>, aks: seq<string>, conn: int, rest: string)
    requires Inv(s) && Scannable(s, uks, aks)
    ensures Inv(DoBlock(s, uks, aks, conn, rest).state)
  {
    SendKeeps(s, conn, Error("12"), Answer);
    var owner, other := Owner(s, aks, conn), Named(s, uks, rest);
    if owner.Some? && other.Some? && other.value !in s.users[owner.value].blocks && rest != [] {
      BlockUserKeeps(s, owner.value, other.value);
      SendKeeps(BlockUser(s, owner.value, other.value), conn, Ack("12"), Answer);
    }
  }

  lemma {:induction false} RecordsKeep(s: Social, aks: seq<string>, viewer: UserId, now: int, conn: int)
    requires Inv(s) && forall k :: k in aks ==> k in s.activeMap
    ensures Inv(Records(s, aks, viewer, now, conn).state)
    decreases |aks|
  {
    if aks != [] {
      match RecordOf(s, viewer, s.activeMap[aks[0]], now)
      case Refused =>
        SendKeeps(s, conn, Error("07"), Answer);
        RecordsKeep(Reply(s, conn, Error("07")), aks[1..], viewer, now, conn);
      case Broken =>
      case Sendable(m) =>
        SendKeeps(s, conn, m, Answer);
        RecordsKeep(Reply(s, conn, m), aks[1..], viewer, now, conn);
    }
  }

  lemma StatsKeep(s: Social, aks: seq<string>, now: int, conn: int)
    requires Inv(s) && Enumerates(aks, s.activeMap)
    ensures Inv(DoLogstat(s, aks, now, conn).state) && Inv(DoStat(s, aks, conn).state)
  {
    SendKeeps(s, conn, Error("08"), Answer);
    var viewer := OrLast(Owner(s, aks, conn), s.activeMap, aks);
    if viewer.Some? { RecordsKeep(s, aks, viewer.value, now, conn); }
  }

  lemma PerformKeeps(s: Social, uks: seq<string>, aks: seq<string>, now: int, conn: int, request: Request)
    requires Inv(s) && Scannable(s, uks, aks)
    ensures Inv(Perform(s, uks, aks, now, conn, request).state)
  {
    match request
    case Register(name, password, birthday) => RegisterKeeps(s, uks, conn, name, password, birthday);
    case Login(name, password, captcha) => LoginKeeps(s, uks, conn, name, password, captcha);
    case Logout => LogoutKeeps(s, aks, conn);
    case Follow(action, rest) => FollowKeeps(s, uks, aks, conn, action, rest);
    case Post(text) => PostKeeps(s, uks, aks, conn, text);
    case Pm(text) => PmKeeps(s, uks, aks, conn, text);
    case Block(rest) => BlockKeeps(s, uks, aks, conn, rest);
    case Ignored =>
    case _ => StatsKeep(s, aks, now, conn);
  }

  /** Every request of every connection, in every scan order, keeps the invariant. */
  lemma ProcessKeeps(s: Social, uks: seq<string>, aks: seq<string>, now: int, conn: int, message: string)
    requires Inv(s) && Scannable(s, uks, aks)
    ensures Inv(Process(s, uks, aks, now, conn, message).state)
  {
    match Parse(message)
    case None =>
    case Some(request) => PerformKeeps(s, uks, aks, now, conn, request);
  }
}
