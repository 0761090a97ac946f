/** What each request does, as its sender and the others see it: who changes and how, what is sent to whom, and
    that nothing else happens.  Every lemma is about one whole request; the scans are those of `SocialScans`. */
module SocialRequests {
  import opened Options
  import opened Text
  import opened ServerMessages
  import opened Requests
  import opened Social
  import opened SocialInvariant
  import opened SocialRuns
  import opened SocialPosts
  import opened SocialTags
  import opened StatCodec

  /** The request only gets an answer. */
  predicate OnlyAnswers(s: Social, t: Social, conn: int, m: ServerMessage) {
    t == s.(log := s.log + [Sent(conn, m, Answer)])
  }

  // ---------------------------------------------------------------- REGISTER, LOGIN, LOGOUT

  lemma TakenIff(s: Social, uks: seq<string>, name: string)
    requires Inv(s) && Enumerates(uks, s.usersMap)
    ensures Matching(s, uks, name).Some? <==> exists u :: 0 <= u < |s.users| && Occurs(name, s.users[u].name)
  {
    forall u | 0 <= u < |s.users| ensures Contains(s.users[u].name, name) <==> Occurs(name, s.users[u].name) {
      ContainsIff(s.users[u].name, name);
    }
    if u :| 0 <= u < |s.users| && Occurs(name, s.users[u].name) {
      assert UserOk(s, u) && s.users[u].name in uks;
      assert Passes(s.users[s.usersMap[s.users[u].name]], NameHas(name));
    }
  }

  /** REGISTER is refused if and only if the name stands in a registered name; otherwise it adds one account with
      the given fields, and nothing else changes. */
  lemma RegisterDoes(s: Social, e: Event, name: string, password: string, birthday: string)
    requires Inv(s) && CanHandle(s, e) && Parse(e.message) == Some(Register(name, password, birthday))
    ensures var t := Handle(s, e);
            if exists u :: 0 <= u < |s.users| && Occurs(name, s.users[u].name) then
              OnlyAnswers(s, t, e.conn, Error("01"))
            else
              t == s.(users := s.users + [User(name, password, birthday, false, -1, [], [], 0, [], 0)],
                      usersMap := s.usersMap[name := |s.users|], log := s.log + [Sent(e.conn, Ack("01"), Answer)])
  {
    TakenIff(s, e.uks, name);
  }

  lemma {:induction false} ReplayLog(s: Social, u: UserId, entries: seq<string>, senderName: string, limit: nat)
    requires u < |s.users|
    ensures var t := ReplayAll(s, u, entries, senderName, limit);
            && t == s.(log := t.log) && |t.log| == |s.log| + |entries| && t.log[..|s.log|] == s.log
            && forall k :: |s.log| <= k < |t.log| ==> IsReplay(t.log[k], s.users[u].connId, u)
    decreases |entries|
  {
    if entries != [] {
      var e := entries[0];
      var s1 := Replayed(s, u, e, senderName, limit);
      ReplayLog(s1, u, entries[1..], ReplayName(e, senderName), ReplayCut(e, limit));
      var t := ReplayAll(s, u, entries, senderName, limit);
      assert t.log[|s.log|] == t.log[..|s1.log|][|s.log|] == s1.log[|s.log|];
      assert t.log[..|s.log|] == t.log[..|s1.log|][..|s.log|] == s.log;
    }
  }

  /** A waiting post of user `u`, sent to his connection. */
  predicate IsReplay(m: Sent, conn: int, u: UserId) {
    m.conn == conn && m.origin == Replay(u) && m.msg.Notification? && m.msg.isPublic
  }

  /** LOGIN succeeds for the user found if the password is his, the captcha is right and he is not logged in: he
      gets the session and the connection, his entry becomes active, the acknowledgement is sent first and then
      each of his waiting posts, which stay.  Otherwise only an error is sent. */
  lemma LoginDoes(s: Social, e: Event, name: string, password: string, captcha: string)
    requires CanHandle(s, e) && Parse(e.message) == Some(Login(name, password, captcha))
    ensures var t, found := Handle(s, e), Matching(s, e.uks, name);
            if found.Some? && s.users[found.value].password == password && captcha == "1"
               && !s.users[found.value].active
            then
              var u := found.value;
              && t == s.(users := s.users[u := s.users[u].(active := true, connId := e.conn)],
                         activeMap := s.activeMap[name := u], log := t.log)
              && |t.log| == |s.log| + 1 + |s.users[u].waiting| && t.log[..|s.log|] == s.log
              && t.log[|s.log|] == Sent(e.conn, Ack("02"), Answer)
              && forall k :: |s.log| < k < |t.log| ==> IsReplay(t.log[k], e.conn, u)
            else OnlyAnswers(s, t, e.conn, Error("02"))
  {
    var found := Matching(s, e.uks, name);
    if found.Some? && s.users[found.value].password == password && captcha == "1" && !s.users[found.value].active {
      var u := found.value;
      var s1 := SetUser(s, u, s.users[u].(active := true, connId := e.conn)).(activeMap := s.activeMap[name := u]);
      var s2 := Reply(s1, e.conn, Ack("02"));
      ReplayLog(s2, u, s.users[u].waiting, "", 0);
      var t := Handle(s, e);
      assert t.log[|s.log|] == t.log[..|s2.log|][|s.log|] == s2.log[|s.log|];
      assert t.log[..|s.log|] == t.log[..|s2.log|][..|s.log|] == s.log;
    }
  }

  /** LOGOUT clears the session flag of the connection's owner, and is an error when there is none. */
  lemma LogoutDoes(s: Social, e: Event)
    requires CanHandle(s, e) && Parse(e.message) == Some(Logout)
    ensures var t, owner := Handle(s, e), Owner(s, e.aks, e.conn);
            match owner
            case None => OnlyAnswers(s, t, e.conn, Error("03"))
            case Some(u) =>
              t == s.(users := s.users[u := s.users[u].(active := false)],
                      log := s.log + [Sent(e.conn, Ack("03"), Answer)])
  {
  }

  // ---------------------------------------------------------------- FOLLOW

  predicate WithoutAt(before: seq<UserId>, after: seq<UserId>, x: UserId, i: nat) {
    i < |before| && before[i] == x && after == before[..i] + before[i + 1..]
  }

  /** `after` is `before` without its only occurrence of `x`, in the same order. */
  ghost predicate Without(before: seq<UserId>, after: seq<UserId>, x: UserId) {
    x !in after && exists i: nat :: WithoutAt(before, after, x, i)
  }

  lemma WithoutCons(before: seq<UserId>, after: seq<UserId>, x: UserId, i: nat)
    requires before != [] && WithoutAt(before[1..], after, x, i)
    ensures WithoutAt(before, [before[0]] + after, x, i + 1)
  {
    assert before[..i + 1] == [before[0]] + before[1..][..i];
    assert before[i + 2..] == before[1..][i + 1..];
  }

  lemma {:induction false} RemoveAt(s: seq<UserId>, x: UserId) returns (i: nat)
    requires x in s
    ensures WithoutAt(s, RemoveFirst(s, x), x, i)
  {
    if s[0] == x {
      i := 0;
    } else {
      var k := RemoveAt(s[1..], x);
      WithoutCons(s, RemoveFirst(s[1..], x), x, k);
      i := k + 1;
    }
  }

  lemma RemoveIsWithout(s: seq<UserId>, x: UserId)
    requires x in s && NoDuplicates(s)
    ensures Without(s, RemoveFirst(s, x), x)
  {
    RemoveFirstSpec(s, x);
    var i := RemoveAt(s, x);
  }

  lemma WithoutMembers(before: seq<UserId>, after: seq<UserId>, x: UserId, v: UserId)
    requires Without(before, after, x)
    ensures v in after <==> v in before && v != x
  {
    var i: nat :| WithoutAt(before, after, x, i);
    assert before == before[..i] + [x] + before[i + 1..];
  }

  /** What a FOLLOW of `o` by the owner `m` comes to. */
  ghost predicate Followed(s: Social, t: Social, m: UserId, o: UserId, conn: int, action: char, rest: string)
    requires m < |s.users| && o < |s.users|
  {
    var me := s.users[m];
    if action == '0' && o !in me.follows && m !in s.users[o].blocks then
      t == s.(users := s.users[m := me.(follows := me.follows + [o], following := Short(me.following + 1))],
              log := s.log + [Sent(conn, FollowAck(true, rest), Answer)])
    else if action == '1' && o in me.follows then
      && m < |t.users| && Without(me.follows, t.users[m].follows, o)
      && t == s.(users := s.users[m := me.(follows := t.users[m].follows, following := Short(me.following - 1))],
                 log := s.log + [Sent(conn, FollowAck(false, rest), Answer)])
    else OnlyAnswers(s, t, conn, Error("04"))
  }

  lemma ChangeIs(s: Social, m: UserId, o: UserId, conn: int, action: char, rest: string)
    requires m < |s.users| && o < |s.users| && NoDuplicates(s.users[m].follows)
    ensures Followed(s, ChangeEdge(s, m, o, conn, action, rest), m, o, conn, action, rest)
  {
    if o in s.users[m].follows { RemoveIsWithout(s.users[m].follows, o); }
  }

  /** FOLLOW changes only the owner of the connection, if he is logged in: '0' puts the named user at the end of
      his list unless he is there or has blocked the owner, '1' takes him out; the other cases are errors.  An
      unknown name is an error; without a logged-in owner nothing happens at all. */
  lemma FollowDoes(s: Social, e: Event, action: char, rest: string)
    requires Inv(s) && CanHandle(s, e) && Parse(e.message) == Some(Follow(action, rest))
    ensures var t, named, owner := Handle(s, e), Named(s, e.uks, rest), Owner(s, e.aks, e.conn);
            if named.None? then OnlyAnswers(s, t, e.conn, Error("04"))
            else if owner.None? || !s.users[owner.value].active then t == s
            else Followed(s, t, owner.value, named.value, e.conn, action, rest)
  {
    var named, owner := Named(s, e.uks, rest), Owner(s, e.aks, e.conn);
    if named.Some? && owner.Some? {
      assert UserOk(s, owner.value);
      ChangeIs(s, owner.value, named.value, e.conn, action, rest);
    }
  }

  lemma FollowedLists(s: Social, t: Social, m: UserId, o: UserId, conn: int, action: char, rest: string,
                      u: UserId, v: UserId)
    requires m < |s.users| && o < |s.users| && u < |s.users| && Followed(s, t, m, o, conn, action, rest)
    requires o in s.users[m].follows ==> m !in s.users[o].blocks
    ensures |t.users| == |s.users|
    ensures v in t.users[u].follows <==>
              if u == m && v == o then
                (action == '0' && m !in s.users[o].blocks) || (action != '1' && o in s.users[m].follows)
              else v in s.users[u].follows
  {
    if action == '1' && o in s.users[m].follows {
      WithoutMembers(s.users[m].follows, t.users[m].follows, o, v);
    }
  }

  /** Afterwards the owner follows the named user exactly if he asked to and was not blocked, or did so before and
      did not ask to stop; nobody else's list changes. */
  lemma FollowsAfterIff(s: Social, e: Event, action: char, rest: string, m: UserId, o: UserId, u: UserId, v: UserId)
    requires Inv(s) && CanHandle(s, e) && Parse(e.message) == Some(Follow(action, rest))
    requires Named(s, e.uks, rest) == Some(o) && Owner(s, e.aks, e.conn) == Some(m) && s.users[m].active
    requires u < |s.users|
    ensures var t := Handle(s, e);
            && |t.users| == |s.users|
            && (v in t.users[u].follows <==>
                  if u == m && v == o then
                    (action == '0' && m !in s.users[o].blocks) || (action != '1' && o in s.users[m].follows)
                  else v in s.users[u].follows)
  {
    FollowDoes(s, e, action, rest);
    assert UserOk(s, m);
    assert o in s.users[m].follows ==> MayFollow(s, m, o);
    FollowedLists(s, Handle(s, e), m, o, e.conn, action, rest, u, v);
  }

  // ---------------------------------------------------------------- POST and PM

  /** POST without an owner of the connection is an error.  Otherwise the text goes out under the owner's name, to
      logged-in users at once, in the order of the recipients, and to the others' waiting posts, and the
      acknowledgement comes last. */
  lemma PostDoes(s: Social, e: Event, text: string)
    requires CanHandle(s, e) && Parse(e.message) == Some(Post(text))
    ensures var t := Handle(s, e);
            match Owner(s, e.aks, e.conn)
            case None => OnlyAnswers(s, t, e.conn, Error("05"))
            case Some(author) =>
              var n := |t.log| - 1;
              && n >= |s.log| && t.log[n] == Sent(e.conn, Ack("05"), Answer)
              && Faithful(s, t.(log := t.log[..n]), author, text)
              && InOrder(s, t.(log := t.log[..n]), author, Recipients(s, e.uks, author, text))
  {
    match Owner(s, e.aks, e.conn)
    case None =>
    case Some(author) =>
      var us := Recipients(s, e.uks, author, text);
      RecipientsAreUsers(s, e.uks, author, text);
      DeliverAllFaithful(s, author, text, us);
      DeliveredInOrder(s, author, text, us);
      var p := DeliverAll(s, author, text, us);
      assert Handle(s, e) == p.(log := p.log + [Sent(e.conn, Ack("05"), Answer)]);
      assert Handle(s, e).log[..|p.log|] == p.log;
  }

  /** Every user gets a post exactly as often as this: once if he follows the author, and otherwise once for each
      tag that stands in his name. */
  lemma PostIsReceived(s: Social, e: Event, text: string, author: UserId, u: UserId)
    requires Inv(s) && CanHandle(s, e) && Parse(e.message) == Some(Post(text)) && u < |s.users|
    requires Owner(s, e.aks, e.conn) == Some(author)
    ensures |Handle(s, e).users| == |s.users|
    ensures Received(Handle(s, e), u) == Received(s, u) +
            if author in s.users[u].follows then 1 else Hits(Tags(text, 0), s.users[u].name)
  {
    PostReaches(s, e.uks, e.aks, e.conn, text, u);
  }

  /** Who sends a PM: the owner of the connection, or the last active entry scanned. */
  function Sender(s: Social, e: Event): Option<UserId>
    requires CanHandle(s, e)
  {
    if Owner(s, e.aks, e.conn).Some? then Owner(s, e.aks, e.conn)
    else if e.aks == [] then None
    else Some(s.activeMap[e.aks[|e.aks| - 1]])
  }

  /** Who gets it: the user named, or the last one scanned. */
  function Addressee(s: Social, e: Event, text: string): Option<UserId>
    requires CanHandle(s, e)
  {
    if Named(s, e.uks, text).Some? then Named(s, e.uks, text)
    else if e.uks == [] then None
    else Some(s.usersMap[e.uks[|e.uks| - 1]])
  }

  predicate MayWrite(s: Social, m: Option<UserId>, o: Option<UserId>) {
    && m.Some? && o.Some? && m.value < |s.users| && o.value < |s.users|
    && o.value in s.users[m.value].follows && m.value !in s.users[o.value].blocks
  }

  /** What a PM of the sender `m` to the addressee `o` comes to. */
  predicate Messaged(s: Social, t: Social, m: Option<UserId>, o: Option<UserId>, conn: int, text: string) {
    if !MayWrite(s, m, o) then OnlyAnswers(s, t, conn, Error("06"))
    else
      var from, to := s.users[m.value], s.users[o.value];
      var skip := |to.name| + 1;
      if |text| < skip then t == s.(posts := Int32(s.posts + 1), lost := s.lost + 1)
      else
        var note := Notification(false, from.name, text[skip..]);
        t == s.(posts := Int32(s.posts + 1),
                log := s.log + [Sent(to.connId, note, Live(m.value, o.value, false))]
                             + [Sent(conn, Ack("06"), Answer)])
  }

  lemma PmIs(s: Social, m: Option<UserId>, o: Option<UserId>, conn: int, text: string)
    requires IsUser(s, m) && IsUser(s, o)
    ensures Messaged(s, PmBetween(s, m, o, conn, text).state, m, o, conn, text)
  {
  }

  /** PM is an error unless the sender follows the addressee, who has not blocked him.  Then the counter goes up; a
      text shorter than the name and a space is lost, otherwise what follows them goes to the addressee's
      connection under the sender's name, and the acknowledgement after it. */
  lemma PmDoes(s: Social, e: Event, text: string)
    requires CanHandle(s, e) && Parse(e.message) == Some(Pm(text))
    ensures Messaged(s, Handle(s, e), Sender(s, e), Addressee(s, e, text), e.conn, text)
  {
    PmIs(s, Sender(s, e), Addressee(s, e, text), e.conn, text);
  }

  // ---------------------------------------------------------------- BLOCK

  /** The user loses `x` from his list, if it is there; the number he shows stays. */
  ghost predicate Dropped(before: User, after: User, x: UserId) {
    && after == before.(follows := after.follows, cuts := after.cuts, blocks := after.blocks)
    && if x in before.follows then Without(before.follows, after.follows, x) && after.cuts == before.cuts + 1
       else after.follows == before.follows && after.cuts == before.cuts
  }

  /** What a BLOCK of `o` by the owner `m` comes to. */
  ghost predicate Blocked(s: Social, t: Social, m: UserId, o: UserId, conn: int)
    requires m < |s.users| && o < |s.users|
  {
    && |t.users| == |s.users|
    && t == s.(users := t.users, log := s.log + [Sent(conn, Ack("12"), Answer)])
    && t.users[m].blocks == s.users[m].blocks + [o]
    && Dropped(s.users[m], t.users[m], o) && Dropped(s.users[o], t.users[o], m)
    && forall u :: 0 <= u < |s.users| && u != m ==>
         t.users[u].blocks == s.users[u].blocks && (u != o ==> t.users[u] == s.users[u])
  }

  lemma CutDrops(s: Social, u: UserId, x: UserId)
    requires u < |s.users| && NoDuplicates(s.users[u].follows)
    ensures |Cut(s, u, x).users| == |s.users| && Cut(s, u, x) == s.(users := Cut(s, u, x).users)
    ensures Dropped(s.users[u], Cut(s, u, x).users[u], x) && x !in Cut(s, u, x).users[u].follows
    ensures Cut(s, u, x).users[u].blocks == s.users[u].blocks
    ensures forall v :: 0 <= v < |s.users| && v != u ==> Cut(s, u, x).users[v] == s.users[v]
  {
    if x in s.users[u].follows { RemoveIsWithout(s.users[u].follows, x); }
  }

  lemma BlockIs(s: Social, m: UserId, o: UserId, conn: int)
    requires Inv(s) && m < |s.users| && o < |s.users|
    ensures Blocked(s, Reply(BlockUser(s, m, o), conn, Ack("12")), m, o, conn)
  {
    assert UserOk(s, m) && UserOk(s, o);
    var s1 := SetUser(s, m, s.users[m].(blocks := s.users[m].blocks + [o]));
    var s2 := Cut(s1, m, o);
    CutDrops(s1, m, o);
    if m != o { CutDrops(s2, o, m); }
  }

  /** BLOCK of a user who is not blocked yet puts him on the owner's block list and ends both follow edges; every
      other list stays.  A request without a body throws then; in all other cases it is an error. */
  lemma BlockDoes(s: Social, e: Event, rest: string)
    requires Inv(s) && CanHandle(s, e) && Parse(e.message) == Some(Block(rest))
    ensures var t, owner, named := Handle(s, e), Owner(s, e.aks, e.conn), Named(s, e.uks, rest);
            if owner.Some? && named.Some? && named.value !in s.users[owner.value].blocks then
              if rest == [] then t == s else Blocked(s, t, owner.value, named.value, e.conn)
            else OnlyAnswers(s, t, e.conn, Error("12"))
  {
    var owner, named := Owner(s, e.aks, e.conn), Named(s, e.uks, rest);
    if owner.Some? && named.Some? { BlockIs(s, owner.value, named.value, e.conn); }
  }

  lemma BlockLasts(s: Social, e: Event, rest: string, m: UserId, o: UserId)
    requires Inv(s) && CanHandle(s, e) && Parse(e.message) == Some(Block(rest)) && rest != []
    requires Owner(s, e.aks, e.conn) == Some(m) && Named(s, e.uks, rest) == Some(o)
    ensures var t := Handle(s, e); Inv(t) && |t.users| == |s.users| && o in t.users[m].blocks
  {
    BlockDoes(s, e, rest);
    ProcessKeeps(s, e.uks, e.aks, e.now, e.conn, e.message);
  }

  /** From the BLOCK on, and over every later run, the blocked user does not follow the owner and no private message
      of his is addressed to the owner. */
  lemma BlockEndsIt(s: Social, e: Event, rest: string, m: UserId, o: UserId, es: seq<Event>)
    requires Inv(s) && CanHandle(s, e) && Parse(e.message) == Some(Block(rest)) && rest != []
    requires Owner(s, e.aks, e.conn) == Some(m) && Named(s, e.uks, rest) == Some(o)
    requires CanRun(Handle(s, e), es)
    ensures var t := RunAll(Handle(s, e), es);
            && m < |t.users| && o < |t.users| && o in t.users[m].blocks && m !in t.users[o].follows
            && |s.log| <= |t.log| && forall i :: |s.log| <= i < |t.log| ==> t.log[i].origin != Live(o, m, false)
  {
    var t1 := Handle(s, e);
    BlockLasts(s, e, rest, m, o);
    BlockAnswers(s, e, rest);
    BlockedForGood(t1, es, m, o);
    RunGrows(t1, es);
    NotLive(s.log, t1.log, RunAll(t1, es).log, Live(o, m, false));
  }

  /** A BLOCK sends at most its answer. */
  lemma BlockAnswers(s: Social, e: Event, rest: string)
    requires Inv(s) && CanHandle(s, e) && Parse(e.message) == Some(Block(rest))
    ensures var log := Handle(s, e).log;
            s.log <= log && forall i :: |s.log| <= i < |log| ==> log[i].origin == Answer
  {
    BlockDoes(s, e, rest);
  }

  lemma NotLive(a: seq<Sent>, b: seq<Sent>, c: seq<Sent>, o: Origin)
    requires a <= b && b <= c && o.Live?
    requires forall i :: |a| <= i < |b| ==> b[i].origin == Answer
    requires forall i :: |b| <= i < |c| ==> c[i].origin != o
    ensures forall i :: |a| <= i < |c| ==> c[i].origin != o
  {
    forall i | |a| <= i < |c| ensures c[i].origin != o {
      if i < |b| { assert c[i] == b[i]; }
    }
  }

  // ---------------------------------------------------------------- LOGSTAT and STAT

  predicate HasYear(birthday: string, year: int) { |birthday| >= 6 && ParseInt(birthday[6..]) == Some(year) }

  /** A birthday that ends in the decimal text of a year, behind six characters, has that year. */
  lemma YearIs(day: string, year: int)
    requires |day| == 6 && -0x8000_0000 <= year < 0x8000_0000
    ensures HasYear(day + Decimal(year), year)
  {
    ParseDecimal(year);
    assert (day + Decimal(year))[6..] == Decimal(year);
  }

  /** The answer about user `u`: refused, or his age and the three numbers. */
  ghost predicate Tells(s: Social, viewer: UserId, u: UserId, now: int, m: ServerMessage) {
    && u < |s.users|
    && var user := s.users[u];
       if viewer in user.blocks then m == Error("07")
       else
         exists year :: HasYear(user.birthday, year)
                        && m == Stats(Int32(now - year - 1), |user.follows|, user.following, |user.waiting|)
  }

  lemma RecordTells(s: Social, viewer: UserId, u: UserId, now: int)
    requires u < |s.users|
    ensures var r := RecordOf(s, viewer, u, now);
            && (r.Refused? ==> Tells(s, viewer, u, now, Error("07")))
            && (r.Sendable? ==> Tells(s, viewer, u, now, r.m))
  {
    var b := s.users[u].birthday;
    if RecordOf(s, viewer, u, now).Sendable? { assert HasYear(b, ParseInt(b[6..]).value); }
  }

  /** A record cannot be made if and only if the asker is not blocked and there is no year or a number that is no
      16-bit number. */
  lemma BrokenIff(s: Social, viewer: UserId, u: UserId, now: int)
    requires u < |s.users|
    ensures var user := s.users[u];
            RecordOf(s, viewer, u, now).Broken? <==>
              && viewer !in user.blocks
              && !exists year :: && HasYear(user.birthday, year) && IsShort(Int32(now - year - 1))
                                 && IsShort(|user.follows|) && IsShort(user.following) && IsShort(|user.waiting|)
  {
    var b := s.users[u].birthday;
    if Age(b, now).Some? { assert HasYear(b, ParseInt(b[6..]).value); }
  }

  lemma {:induction false} RecordsTell(s: Social, aks: seq<string>, viewer: UserId, now: int, conn: int)
    requires MapsOk(s) && forall k :: k in aks ==> k in s.activeMap
    ensures var t := Records(s, aks, viewer, now, conn).state;
            && t == s.(log := t.log) && |s.log| <= |t.log| <= |s.log| + |aks| && t.log[..|s.log|] == s.log
            && forall i :: 0 <= i < |t.log| - |s.log| ==>
                 Told(s, viewer, s.activeMap[aks[i]], now, conn, t.log[|s.log| + i])
    decreases |aks|
  {
    if aks != [] {
      var u := s.activeMap[aks[0]];
      RecordTells(s, viewer, u, now);
      match RecordOf(s, viewer, u, now)
      case Refused => NextRecords(s, aks, viewer, now, conn, Error("07"));
      case Broken =>
      case Sendable(m) => NextRecords(s, aks, viewer, now, conn, m);
    }
  }

  ghost predicate Told(s: Social, viewer: UserId, u: UserId, now: int, conn: int, sent: Sent) {
    sent.conn == conn && sent.origin == Answer && Tells(s, viewer, u, now, sent.msg)
  }

  lemma NextRecords(s: Social, aks: seq<string>, viewer: UserId, now: int, conn: int, m: ServerMessage)
    requires MapsOk(s) && aks != [] && (forall k :: k in aks ==> k in s.activeMap)
    requires Tells(s, viewer, s.activeMap[aks[0]], now, m)
    ensures var t := Records(Reply(s, conn, m), aks[1..], viewer, now, conn).state;
            && t == s.(log := t.log) && |s.log| <= |t.log| <= |s.log| + |aks| && t.log[..|s.log|] == s.log
            && forall i :: 0 <= i < |t.log| - |s.log| ==>
                 Told(s, viewer, s.activeMap[aks[i]], now, conn, t.log[|s.log| + i])
    decreases |aks|, 0
  {
    var s1 := Reply(s, conn, m);
    RecordsTell(s1, aks[1..], viewer, now, conn);
    var t := Records(s1, aks[1..], viewer, now, conn).state;
    assert t.log[..|s.log|] == t.log[..|s1.log|][..|s.log|] == s.log;
    assert t.log[|s.log|] == t.log[..|s1.log|][|s.log|] == s1.log[|s.log|];
    forall i | 0 <= i < |t.log| - |s.log| ensures Told(s, viewer, s.activeMap[aks[i]], now, conn, t.log[|s.log| + i]) {
      if i > 0 {
        assert Told(s1, viewer, s1.activeMap[aks[1..][i - 1]], now, conn, t.log[|s1.log| + (i - 1)]);
      }
    }
  }

  /** LOGSTAT answers about the active users in scan order, from the first on: an error for each who has blocked the
      asker, else his age in the given year, how many he follows, the number he shows and his waiting posts. */
  lemma LogstatDoes(s: Social, e: Event)
    requires CanHandle(s, e) && Parse(e.message) == Some(Logstat)
    ensures var t, viewer := Handle(s, e), Sender(s, e);
            if viewer.None? then t == s
            else
              && t == s.(log := t.log) && |s.log| <= |t.log| <= |s.log| + |e.aks| && t.log[..|s.log|] == s.log
              && forall i :: 0 <= i < |t.log| - |s.log| ==>
                   Told(s, viewer.value, s.activeMap[e.aks[i]], e.now, e.conn, t.log[|s.log| + i])
  {
    if Sender(s, e).Some? { RecordsTell(s, e.aks, Sender(s, e).value, e.now, e.conn); }
  }

  /** STAT is an error when nobody is active; otherwise, and for a request that cannot be taken apart or has no
      branch, nothing happens. */
  lemma OthersDo(s: Social, e: Event)
    requires CanHandle(s, e)
    ensures Parse(e.message) == Some(Stat) ==>
              if s.activeMap == map[] then OnlyAnswers(s, Handle(s, e), e.conn, Error("08")) else Handle(s, e) == s
    ensures Parse(e.message) == Some(Ignored) || Parse(e.message) == None ==> Handle(s, e) == s
  {
    assert e.aks != [] ==> e.aks[0] in s.activeMap;
    if k :| k in s.activeMap { assert k in e.aks; }
  }
}
