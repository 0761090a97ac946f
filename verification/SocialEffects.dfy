/** What the commands achieve, across calls: which of them succeed, what one undoes of another, and what a
    success means for later requests. */
module SocialEffects {
  import opened Options
  import opened Text
  import opened ServerMessages
  import opened Social
  import opened SocialInvariant
  import opened SocialRuns
  import opened SocialAnswers

  // ---------------------------------------------------------------- REGISTER

  /** A name is taken for good: after any run, registering it, or any part of it, is refused and changes
      nothing, in every scan order. */
  lemma TakenForGood(s: Social, es: seq<Event>, k: string, uks: seq<string>, conn: int, name: string, password: string,
                     birthday: string)
    requires Inv(s) && CanRun(s, es) && k in s.usersMap && Occurs(name, k)
    requires Enumerates(uks, RunAll(s, es).usersMap)
    ensures var t := RunAll(s, es);
            MapsOk(t) && DoRegister(t, uks, conn, name, password, birthday) == Reply(t, conn, Error("01"))
  {
    RunInv(s, es);
    AccountsStay(s, es, k);
    ContainsIff(k, name);
    assert k in uks;
  }

  /** A name that is registered can be logged in with: the scan finds a user whose name contains it. */
  lemma RegisteredIsFound(s: Social, uks: seq<string>, uks': seq<string>, conn: int, name: string, password: string,
                          birthday: string)
    requires Inv(s) && Enumerates(uks, s.usersMap) && Matching(s, uks, name).None?
    requires Enumerates(uks', DoRegister(s, uks, conn, name, password, birthday).usersMap)
    ensures var t := DoRegister(s, uks, conn, name, password, birthday);
            && t.log == s.log + [Sent(conn, Ack("01"), Answer)]
            && MapsOk(t) && Matching(t, uks', name) == Some(|s.users|)
            && t.users[..|s.users|] == s.users && t.users[|s.users|].password == password && !t.users[|s.users|].active
  {
    var t := DoRegister(s, uks, conn, name, password, birthday);
    RegisterIsNew(s, uks, name);
    ContainsSelf(name);
    forall v | 0 <= v < |s.users| ensures !Passes(t.users[v], NameHas(name)) {
      assert UserOk(s, v) && s.users[v].name in uks;
    }
    var r := Matching(t, uks', name);
    assert name in uks';
  }

  // ---------------------------------------------------------------- LOGIN and LOGOUT

  /** LOGIN is acknowledged exactly when the user found has the password, is not logged in, and the captcha
      is right; then the connection has an owner in every later scan order of the new active map. */
  lemma LoginIff(s: Social, uks: seq<string>, conn: int, name: string, password: string, captcha: string,
                 aks: seq<string>)
    requires MapsOk(s) && Enumerates(uks, s.usersMap)
    ensures var t := DoLogin(s, uks, conn, name, password, captcha);
            var u := Matching(s, uks, name);
            && |s.log| < |t.log| && t.log[..|s.log|] == s.log
            && (t.log[|s.log|].msg == Ack("02") <==>
                  u.Some? && s.users[u.value].password == password && captcha == "1" && !s.users[u.value].active)
            && (t.log[|s.log|].msg == Ack("02") ==>
                  && |t.users| == |s.users| && t.users[u.value] == s.users[u.value].(active := true, connId := conn)
                  && (Enumerates(aks, t.activeMap) ==> MapsOk(t) && Owner(t, aks, conn).Some?))
            && (t.log[|s.log|].msg != Ack("02") ==> t == Reply(s, conn, Error("02")))
  {
    var t := DoLogin(s, uks, conn, name, password, captcha);
    var found := Matching(s, uks, name);
    if found.Some? && s.users[found.value].password == password && captcha == "1" && !s.users[found.value].active {
      var u := found.value;
      var s1 := SetUser(s, u, s.users[u].(active := true, connId := conn)).(activeMap := s.activeMap[name := u]);
      ReplayGrows(Reply(s1, conn, Ack("02")), u, s.users[u].waiting, "", 0);
      if Enumerates(aks, t.activeMap) { assert name in aks; }
    }
  }

  /** After a successful LOGIN the connection belongs to the user who logged in, in every scan order, if and only
      if no other entry of the active map was on that connection before.  An entry stays there after LOGOUT, and
      nothing refuses a second LOGIN on one connection. */
  lemma LoginOwnerIff(s: Social, uks: seq<string>, conn: int, name: string, password: string, captcha: string,
                      u: UserId)
    requires MapsOk(s) && Enumerates(uks, s.usersMap) && Matching(s, uks, name) == Some(u)
    requires s.users[u].password == password && captcha == "1" && !s.users[u].active
    ensures var t := DoLogin(s, uks, conn, name, password, captcha);
            && MapsOk(t)
            && ((forall aks :: Enumerates(aks, t.activeMap) ==> Owner(t, aks, conn) == Some(u)) <==>
                (forall k :: k in s.activeMap && k != name && s.activeMap[k] != u ==>
                 s.users[s.activeMap[k]].connId != conn))
  {
    var t := DoLogin(s, uks, conn, name, password, captcha);
    LoginKeepsUsers(s, uks, conn, name, password, captcha, u);
    FoundInMapIff(t.users, t.activeMap, OnConnection(conn), u);
    assert name in t.activeMap && t.activeMap[name] == u;
    if OnlyIn(t.users, t.activeMap, OnConnection(conn), u) {
      forall k | k in s.activeMap && k != name && s.activeMap[k] != u ensures s.users[s.activeMap[k]].connId != conn {
        assert k in t.activeMap && t.activeMap[k] == s.activeMap[k];
      }
    }
    assert (forall aks :: Enumerates(aks, t.activeMap) ==> Owner(t, aks, conn) == Some(u)) <==>
           (forall aks :: Enumerates(aks, t.activeMap) ==>
            FirstWhere(t.users, t.activeMap, aks, OnConnection(conn)) == Some(u));
  }

  lemma LoginKeepsUsers(s: Social, uks: seq<string>, conn: int, name: string, password: string, captcha: string,
                        u: UserId)
    requires MapsOk(s) && Enumerates(uks, s.usersMap) && Matching(s, uks, name) == Some(u)
    requires s.users[u].password == password && captcha == "1" && !s.users[u].active
    ensures var t := DoLogin(s, uks, conn, name, password, captcha);
            && t.users == s.users[u := s.users[u].(active := true, connId := conn)]
            && t.activeMap == s.activeMap[name := u] && t.usersMap == s.usersMap
  {
    var s1 := SetUser(s, u, s.users[u].(active := true, connId := conn)).(activeMap := s.activeMap[name := u]);
    ReplayGrows(Reply(s1, conn, Ack("02")), u, s.users[u].waiting, "", 0);
  }

  /** LOGOUT only clears the session of the owner: his lists and waiting posts stay, so does his entry in the
      active map, and the connection keeps its owner. */
  lemma LogoutKeepsOwner(s: Social, aks: seq<string>, conn: int, u: UserId)
    requires MapsOk(s) && Enumerates(aks, s.activeMap) && Owner(s, aks, conn) == Some(u)
    ensures var t := DoLogout(s, aks, conn);
            && |t.users| == |s.users| && t.users == s.users[u := s.users[u].(active := false)]
            && t.activeMap == s.activeMap && t.usersMap == s.usersMap
            && t.log == s.log + [Sent(conn, Ack("03"), Answer)]
            && MapsOk(t) && Owner(t, aks, conn) == Some(u)
  {
    var t := DoLogout(s, aks, conn);
    SameScan(s.users, t.users, s.activeMap, aks, OnConnection(conn));
  }

  /** A scan only looks at names and connections. */
  lemma {:induction false} SameScan(users: seq<User>, users': seq<User>, m: map<string, UserId>, ks: seq<string>,
                                    p: Test)
    requires |users| == |users'| && forall k :: k in ks ==> k in m && m[k] < |users|
    requires forall i :: 0 <= i < |users| ==> users'[i].name == users[i].name && users'[i].connId == users[i].connId
    ensures FirstWhere(users', m, ks, p) == FirstWhere(users, m, ks, p)
  {
    if ks != [] {
      assert ks[0] in ks;
      SameScan(users, users', m, ks[1..], p);
    }
  }

  // ---------------------------------------------------------------- FOLLOW

  lemma {:induction false} RemoveLast<T>(s: seq<T>, x: T)
    requires x !in s
    ensures RemoveFirst(s + [x], x) == s
  {
    if s == [] {
      assert s + [x] == [x] && [x][1..] == [];
    } else {
      RemoveLast(s[1..], x);
      assert (s + [x])[1..] == s[1..] + [x] && s[0] in s;
    }
  }

  /** A FOLLOW that succeeds can be followed by an unfollow that succeeds, and the two together restore every
      user, the counter included. */
  lemma UnfollowUndoesFollow(s: Social, m: UserId, o: UserId, conn: int, rest: string, rest': string)
    requires Inv(s) && m < |s.users| && o < |s.users|
    requires o !in s.users[m].follows && m !in s.users[o].blocks
    ensures var t := ChangeEdge(s, m, o, conn, '0', rest);
            && m < |t.users| && o < |t.users| && o in t.users[m].follows
            && t.log == s.log + [Sent(conn, FollowAck(true, rest), Answer)]
            && ChangeEdge(t, m, o, conn, '1', rest') ==
               s.(log := t.log + [Sent(conn, FollowAck(false, rest'), Answer)])
  {
    var t := ChangeEdge(s, m, o, conn, '0', rest);
    var me := s.users[m];
    assert UserOk(s, m);
    RemoveLast(me.follows, o);
    assert Short(Short(me.following + 1) - 1) == me.following;
    assert DropEdge(t, m, o).users == s.users;
  }

  /** A FOLLOW or unfollow is acknowledged exactly when it changes the set of followed users; it changes
      nobody else. */
  lemma FollowIff(s: Social, m: UserId, o: UserId, conn: int, action: char, rest: string, v: UserId)
    requires Inv(s) && m < |s.users| && o < |s.users| && v < |s.users|
    ensures var t := ChangeEdge(s, m, o, conn, action, rest);
            && |t.users| == |s.users| && |t.log| == |s.log| + 1 && t.log[..|s.log|] == s.log
            && (t.log[|s.log|].msg != Error("04") <==> t.users != s.users)
            && (v != m ==> t.users[v] == s.users[v])
            && (v in t.users[m].follows <==>
                  if v != o then v in s.users[m].follows
                  else if action == '0' && m !in s.users[o].blocks then true
                  else if action == '1' then false
                  else v in s.users[m].follows)
  {
    assert UserOk(s, m);
    RemoveFirstSpec(s.users[m].follows, o);
    var t := ChangeEdge(s, m, o, conn, action, rest);
    assert t.users[m].follows != s.users[m].follows ==> t.users != s.users;
  }

  // ---------------------------------------------------------------- PM

  /** A PM to a user named in front of the text carries exactly the text behind the name. */
  lemma PmCarriesText(s: Social, m: UserId, o: UserId, conn: int, body: string)
    requires m < |s.users| && o < |s.users|
    ensures var name := s.users[o].name;
            PmBetween(s, Some(m), Some(o), conn, name + " " + body) ==
            if o in s.users[m].follows && m !in s.users[o].blocks then
              Result(s.(posts := Int32(s.posts + 1),
                        log := s.log + [Sent(s.users[o].connId, Notification(false, s.users[m].name, body),
                                             Live(m, o, false)),
                                        Sent(conn, Ack("06"), Answer)]), false)
            else Result(Reply(s, conn, Error("06")), false)
  {
    var name := s.users[o].name;
    assert (name + " " + body)[|name| + 1..] == body;
    var a := Sent(s.users[o].connId, Notification(false, s.users[m].name, body), Live(m, o, false));
    assert s.log + [a] + [Sent(conn, Ack("06"), Answer)] == s.log + [a, Sent(conn, Ack("06"), Answer)];
  }

  // ---------------------------------------------------------------- BLOCK

  /** After a BLOCK neither user follows the other, every other edge is as before, and a second BLOCK of the
      same user is refused and changes nothing. */
  lemma BlockCuts(s: Social, m: UserId, o: UserId, u: UserId, v: UserId, conn: int, rest: string)
    requires Inv(s) && m < |s.users| && o < |s.users| && u < |s.users| && v < |s.users|
    ensures var t := BlockUser(s, m, o);
            && |t.users| == |s.users| && o in t.users[m].blocks
            && (Follows(t, u, v) <==> Follows(s, u, v) && !(u == m && v == o) && !(u == o && v == m))
            && (u != m ==> t.users[u].blocks == s.users[u].blocks)
            && BlockBetween(t, Some(m), Some(o), conn, rest) == Result(Reply(t, conn, Error("12")), false)
  {
    assert UserOk(s, m) && UserOk(s, o);
    RemoveFirstSpec(s.users[m].follows, o);
    RemoveFirstSpec(s.users[o].follows, m);
    var s1 := SetUser(s, m, s.users[m].(blocks := s.users[m].blocks + [o]));
    if m == o { RemoveFirstSpec(Cut(s1, m, o).users[o].follows, m); }
  }
}
