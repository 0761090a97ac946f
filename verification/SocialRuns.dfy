/** Runs of the server: any sequence of requests from any connections, each scanning the maps in any
    order. */
module SocialRuns {
  import opened Options
  import opened Text
  import opened ServerMessages
  import opened Requests
  import opened Social
  import opened SocialInvariant

  datatype Event = Event(conn: int, message: string, uks: seq<string>, aks: seq<string>, now: int)

  const EMPTY: Social := Social([], map[], map[], 0, [], 0)

  predicate CanHandle(s: Social, e: Event) { Scannable(s, e.uks, e.aks) }

  function Handle(s: Social, e: Event): Social
    requires CanHandle(s, e)
  {
    Process(s, e.uks, e.aks, e.now, e.conn, e.message).state
  }

  predicate CanRun(s: Social, es: seq<Event>)
    decreases |es|
  {
    es == [] || (CanHandle(s, es[0]) && CanRun(Handle(s, es[0]), es[1..]))
  }

  function RunAll(s: Social, es: seq<Event>): Social
    requires CanRun(s, es)
    decreases |es|
  {
    if es == [] then s else RunAll(Handle(s, es[0]), es[1..])
  }

  lemma {:induction false} RunInv(s: Social, es: seq<Event>)
    requires Inv(s) && CanRun(s, es)
    ensures Inv(RunAll(s, es))
    decreases |es|
  {
    if es != [] {
      ProcessKeeps(s, es[0].uks, es[0].aks, es[0].now, es[0].conn, es[0].message);
      RunInv(Handle(s, es[0]), es[1..]);
    }
  }

  lemma EmptyInv()
    ensures Inv(EMPTY)
  {
  }

  lemma InitRunInv(es: seq<Event>)
    requires CanRun(EMPTY, es)
    ensures Inv(RunAll(EMPTY, es))
  {
    EmptyInv();
    RunInv(EMPTY, es);
  }

  // ---------------------------------------------------------------- accounting

  /** Follow and block lists have no duplicates, and `following` is the size of the follow list plus the
      edges cut by BLOCK, so it is never too small below the 16-bit limit. */
  lemma FollowAccounting(es: seq<Event>, i: UserId)
    requires CanRun(EMPTY, es) && i < |RunAll(EMPTY, es).users|
    ensures var u := RunAll(EMPTY, es).users[i];
            && NoDuplicates(u.follows) && NoDuplicates(u.blocks)
            && u.following == Short(|u.follows| + u.cuts)
            && (|u.follows| + u.cuts < 0x8000 ==>
                  u.following >= |u.follows| && (u.following == |u.follows| <==> u.cuts == 0))
  {
    InitRunInv(es);
    assert UserOk(RunAll(EMPTY, es), i);
  }

  // ---------------------------------------------------------------- what only grows

  /** What a user never loses. */
  ghost predicate UserGrows(u: User, v: User) {
    && v.name == u.name && v.password == u.password && v.birthday == u.birthday
    && u.blocks <= v.blocks && u.waiting <= v.waiting && u.cuts <= v.cuts
  }

  /** Users, accounts, active entries and sent messages are never removed or replaced. */
  ghost predicate Grows(s: Social, s': Social) {
    && |s.users| <= |s'.users| && (forall i :: 0 <= i < |s.users| ==> UserGrows(s.users[i], s'.users[i]))
    && (forall k :: k in s.usersMap ==> k in s'.usersMap && s'.usersMap[k] == s.usersMap[k])
    && (forall k :: k in s.activeMap ==> k in s'.activeMap)
    && s.log <= s'.log
  }

  /** No private message is among the calls of send from position `from` on. */
  ghost predicate NoPmFrom(log: seq<Sent>, from: nat) {
    forall i :: from <= i < |log| && log[i].origin.Live? ==> log[i].origin.isPublic
  }

  lemma {:induction false} DeliverAllGrows(s: Social, author: UserId, text: string, us: seq<UserId>)
    requires author < |s.users| && AreUsers(s, us)
    ensures Grows(s, DeliverAll(s, author, text, us)) && NoPmFrom(DeliverAll(s, author, text, us).log, |s.log|)
  {
    if us != [] {
      DeliverAllGrows(s, author, text, us[..|us| - 1]);
      var t := DeliverAll(s, author, text, us[..|us| - 1]);
      var t' := Deliver(t, author, text, us[|us| - 1]);
      forall i | 0 <= i < |s.users| ensures UserGrows(s.users[i], t'.users[i]) {
        assert UserGrows(s.users[i], t.users[i]) && UserGrows(t.users[i], t'.users[i]);
      }
    }
  }

  lemma {:induction false} ReplayGrows(s: Social, u: UserId, entries: seq<string>, senderName: string, limit: nat)
    requires u < |s.users|
    ensures var t := ReplayAll(s, u, entries, senderName, limit);
            t == s.(log := t.log) && s.log <= t.log && NoPmFrom(t.log, |s.log|)
    decreases |entries|
  {
    if entries != [] {
      var e := entries[0];
      ReplayGrows(Replayed(s, u, e, senderName, limit), u, entries[1..], ReplayName(e, senderName),
                  ReplayCut(e, limit));
    }
  }

  lemma LoginGrows(s: Social, uks: seq<string>, conn: int, name: string, password: string, captcha: string)
    requires MapsOk(s) && Enumerates(uks, s.usersMap)
    ensures var t := DoLogin(s, uks, conn, name, password, captcha); Grows(s, t) && NoPmFrom(t.log, |s.log|)
  {
    var found := Matching(s, uks, name);
    if found.Some? && s.users[found.value].password == password && captcha == "1" && !s.users[found.value].active {
      var u := found.value;
      var s1 := SetUser(s, u, s.users[u].(active := true, connId := conn)).(activeMap := s.activeMap[name := u]);
      ReplayGrows(Reply(s1, conn, Ack("02")), u, s.users[u].waiting, "", 0);
    }
  }

  lemma PostGrows(s: Social, uks: seq<string>, aks: seq<string>, conn: int, text: string)
    requires Scannable(s, uks, aks)
    ensures var t := DoPost(s, uks, aks, conn, text); Grows(s, t) && NoPmFrom(t.log, |s.log|)
  {
    if Owner(s, aks, conn).Some? {
      var author := Owner(s, aks, conn).value;
      RecipientsAreUsers(s, uks, author, text);
      DeliverAllGrows(s, author, text, Recipients(s, uks, author, text));
    }
  }

  lemma CutGrows(s: Social, u: UserId, v: UserId)
    requires u < |s.users|
    ensures Grows(s, Cut(s, u, v)) && Cut(s, u, v).log == s.log && |Cut(s, u, v).users| == |s.users|
  {
  }

  lemma BlockUserGrows(s: Social, m: UserId, o: UserId)
    requires m < |s.users| && o < |s.users|
    ensures Grows(s, BlockUser(s, m, o)) && BlockUser(s, m, o).log == s.log
  {
    var s1 := SetUser(s, m, s.users[m].(blocks := s.users[m].blocks + [o]));
    CutGrows(s1, m, o);
    CutGrows(Cut(s1, m, o), o, m);
    forall i | 0 <= i < |s.users| ensures UserGrows(s.users[i], BlockUser(s, m, o).users[i]) {
      assert UserGrows(s.users[i], s1.users[i]) && UserGrows(s1.users[i], Cut(s1, m, o).users[i]);
    }
  }

  lemma BlockGrows(s: Social, uks: seq<string>, aks: seq<string>, conn: int, rest: string)
    requires Scannable(s, uks, aks)
    ensures var t := DoBlock(s, uks, aks, conn, rest).state; Grows(s, t) && NoPmFrom(t.log, |s.log|)
  {
    var owner, other := Owner(s, aks, conn), Named(s, uks, rest);
    if owner.Some? && other.Some? { BlockUserGrows(s, owner.value, other.value); }
  }

  lemma RegisterGrows(s: Social, uks: seq<string>, conn: int, name: string, password: string, birthday: string)
    requires Users(s) && Enumerates(uks, s.usersMap)
    ensures var t := DoRegister(s, uks, conn, name, password, birthday); Grows(s, t) && NoPmFrom(t.log, |s.log|)
  {
    if Matching(s, uks, name).None? { RegisterIsNew(s, uks, name); }
  }

  lemma LogoutGrows(s: Social, aks: seq<string>, conn: int)
    requires MapsOk(s) && Enumerates(aks, s.activeMap)
    ensures var t := DoLogout(s, aks, conn); Grows(s, t) && NoPmFrom(t.log, |s.log|)
  {
  }

  lemma ChangeGrows(s: Social, m: UserId, o: UserId, conn: int, action: char, rest: string)
    requires m < |s.users| && o < |s.users|
    ensures var t := ChangeEdge(s, m, o, conn, action, rest); Grows(s, t) && NoPmFrom(t.log, |s.log|)
  {
  }

  lemma FollowGrows(s: Social, uks: seq<string>, aks: seq<string>, conn: int, action: char, rest: string)
    requires Scannable(s, uks, aks)
    ensures var t := DoFollow(s, uks, aks, conn, action, rest); Grows(s, t) && NoPmFrom(t.log, |s.log|)
  {
    var other, owner := Named(s, uks, rest), Owner(s, aks, conn);
    if other.Some? && owner.Some? { ChangeGrows(s, owner.value, other.value, conn, action, rest); }
  }

  lemma PmGrows(s: Social, uks: seq<string>, aks: seq<string>, conn: int, text: string)
    requires Scannable(s, uks, aks)
    ensures Grows(s, DoPm(s, uks, aks, conn, text).state)
  {
  }

  lemma {:induction false} RecordsGrow(s: Social, aks: seq<string>, viewer: UserId, now: int, conn: int)
    requires MapsOk(s) && forall k :: k in aks ==> k in s.activeMap
    ensures var t := Records(s, aks, viewer, now, conn).state;
            t == s.(log := t.log) && s.log <= t.log && NoPmFrom(t.log, |s.log|)
    decreases |aks|
  {
    if aks != [] {
      match RecordOf(s, viewer, s.activeMap[aks[0]], now)
      case Refused => RecordsGrow(Reply(s, conn, Error("07")), aks[1..], viewer, now, conn);
      case Broken =>
      case Sendable(m) => RecordsGrow(Reply(s, conn, m), aks[1..], viewer, now, conn);
    }
  }

  lemma StatsGrow(s: Social, aks: seq<string>, now: int, conn: int)
    requires MapsOk(s) && Enumerates(aks, s.activeMap)
    ensures var t := DoLogstat(s, aks, now, conn).state;
            t == s.(log := t.log) && s.log <= t.log && NoPmFrom(t.log, |s.log|)
  {
    var viewer := OrLast(Owner(s, aks, conn), s.activeMap, aks);
    if viewer.Some? { RecordsGrow(s, aks, viewer.value, now, conn); }
  }

  predicate OfSession(r: Request) { r.Register? || r.Login? || r.Logout? || r.Follow? }

  lemma SessionGrows(s: Social, e: Event)
    requires Inv(s) && CanHandle(s, e) && Parse(e.message).Some? && OfSession(Parse(e.message).value)
    ensures Grows(s, Handle(s, e)) && NoPmFrom(Handle(s, e).log, |s.log|)
  {
    match Parse(e.message).value
    case Register(name, password, birthday) => RegisterGrows(s, e.uks, e.conn, name, password, birthday);
    case Login(name, password, captcha) => LoginGrows(s, e.uks, e.conn, name, password, captcha);
    case Logout => LogoutGrows(s, e.aks, e.conn);
    case Follow(action, rest) => FollowGrows(s, e.uks, e.aks, e.conn, action, rest);
  }

  /** Nothing a request does takes an account, a block, a waiting post or a sent message away. */
  lemma ProcessGrows(s: Social, e: Event)
    requires Inv(s) && CanHandle(s, e)
    ensures Grows(s, Handle(s, e))
    ensures !(Parse(e.message).Some? && Parse(e.message).value.Pm?) ==> NoPmFrom(Handle(s, e).log, |s.log|)
  {
    match Parse(e.message)
    case Some(Post(text)) => PostGrows(s, e.uks, e.aks, e.conn, text);
    case Some(Pm(text)) => PmGrows(s, e.uks, e.aks, e.conn, text);
    case Some(Block(rest)) => BlockGrows(s, e.uks, e.aks, e.conn, rest);
    case Some(Logstat) => StatsGrow(s, e.aks, e.now, e.conn);
    case Some(r) => if OfSession(r) { SessionGrows(s, e); }
    case None =>
  }

  lemma GrowsTrans(s: Social, t: Social, u: Social)
    requires Grows(s, t) && Grows(t, u)
    ensures Grows(s, u)
  {
    forall i | 0 <= i < |s.users| ensures UserGrows(s.users[i], u.users[i]) {
      assert UserGrows(s.users[i], t.users[i]) && UserGrows(t.users[i], u.users[i]);
    }
  }

  lemma {:induction false} RunGrows(s: Social, es: seq<Event>)
    requires Inv(s) && CanRun(s, es)
    ensures Grows(s, RunAll(s, es))
    decreases |es|
  {
    if es != [] {
      ProcessKeeps(s, es[0].uks, es[0].aks, es[0].now, es[0].conn, es[0].message);
      ProcessGrows(s, es[0]);
      RunGrows(Handle(s, es[0]), es[1..]);
      GrowsTrans(s, Handle(s, es[0]), RunAll(s, es));
    }
  }

  /** Accounts are never overwritten, renamed or re-numbered, over any run. */
  lemma AccountsStay(s: Social, es: seq<Event>, k: string)
    requires Inv(s) && CanRun(s, es) && k in s.usersMap
    ensures var t := RunAll(s, es);
            && k in t.usersMap && t.usersMap[k] == s.usersMap[k] && t.usersMap[k] < |t.users|
            && t.users[t.usersMap[k]].name == k
            && t.users[t.usersMap[k]].password == s.users[s.usersMap[k]].password
  {
    RunInv(s, es);
    RunGrows(s, es);
    assert UserGrows(s.users[s.usersMap[k]], RunAll(s, es).users[s.usersMap[k]]);
  }

  // ---------------------------------------------------------------- blocking

  lemma PmBetweenNeeds(s: Social, sender: Option<UserId>, other: Option<UserId>, conn: int, text: string, i: nat)
    requires IsUser(s, sender) && IsUser(s, other) && |s.log| <= i < |PmBetween(s, sender, other, conn, text).state.log|
    requires PmBetween(s, sender, other, conn, text).state.log[i].origin.Live?
    ensures var o := PmBetween(s, sender, other, conn, text).state.log[i].origin;
            && o.author < |s.users| && o.to < |s.users|
            && o.to in s.users[o.author].follows && o.author !in s.users[o.to].blocks
  {
  }

  /** A private message is sent only to a user the sender follows and who has not blocked the sender. */
  lemma PmNeedsFollow(s: Social, e: Event, i: nat)
    requires Inv(s) && CanHandle(s, e) && |s.log| <= i < |Handle(s, e).log|
    requires Handle(s, e).log[i].origin.Live? && !Handle(s, e).log[i].origin.isPublic
    ensures var o := Handle(s, e).log[i].origin;
            && o.author < |s.users| && o.to < |s.users|
            && o.to in s.users[o.author].follows && o.author !in s.users[o.to].blocks
  {
    ProcessGrows(s, e);
    var Pm(text) := Parse(e.message).value;
    var sender := OrLast(Owner(s, e.aks, e.conn), s.activeMap, e.aks);
    PmBetweenNeeds(s, sender, OrLast(Named(s, e.uks, text), s.usersMap, e.uks), e.conn, text, i);
  }

  /** Once `a` has blocked `b`, in every later state of every run `b` does not follow `a`, and no private
      message of `b` is sent to `a` any more, whatever anybody requests. */
  lemma {:induction false} BlockedForGood(s: Social, es: seq<Event>, a: UserId, b: UserId)
    requires Inv(s) && CanRun(s, es) && a < |s.users| && b < |s.users| && b in s.users[a].blocks
    ensures var t := RunAll(s, es);
            && a < |t.users| && b < |t.users|
            && b in t.users[a].blocks && a !in t.users[b].follows
            && |s.log| <= |t.log|
            && forall i :: |s.log| <= i < |t.log| ==> t.log[i].origin != Live(b, a, false)
    decreases |es|
  {
    assert UserOk(s, b);
    assert a in s.users[b].follows ==> MayFollow(s, b, a);
    if es != [] {
      var t := Handle(s, es[0]);
      ProcessKeeps(s, es[0].uks, es[0].aks, es[0].now, es[0].conn, es[0].message);
      ProcessGrows(s, es[0]);
      assert UserGrows(s.users[a], t.users[a]);
      BlockedForGood(t, es[1..], a, b);
      RunGrows(t, es[1..]);
      forall i | |s.log| <= i < |t.log| ensures t.log[i].origin != Live(b, a, false) {
        if t.log[i].origin == Live(b, a, false) { PmNeedsFollow(s, es[0], i); }
      }
    }
  }
}
