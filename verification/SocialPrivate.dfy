/** Private messages at the level of connections: several users can be known under one connection number, so a
    message that may not go to a user can still arrive where he is. */
module SocialPrivate {
  import opened Options
  import opened Requests
  import opened Social
  import opened SocialInvariant
  import opened SocialRuns

  /** The request is a PM that goes through, from `m` to `o`: both are what the scans yield, `m` follows `o` and
      is not blocked by him, and the text is long enough. */
  predicate PmPasses(s: Social, e: Event, m: UserId, o: UserId)
    requires CanHandle(s, e)
  {
    match Parse(e.message)
    case Some(Pm(text)) =>
      && OrLast(Owner(s, e.aks, e.conn), s.activeMap, e.aks) == Some(m)
      && OrLast(Named(s, e.uks, text), s.usersMap, e.uks) == Some(o)
      && o in s.users[m].follows && m !in s.users[o].blocks
      && |s.users[o].name| < |text|
    case _ => false
  }

  ghost predicate IsPrivate(s: Social, t: Social, i: nat, m: UserId) {
    |s.log| <= i < |t.log| && t.log[i].origin.Live? && !t.log[i].origin.isPublic && t.log[i].origin.author == m
  }

  /** A private message of `m` is sent exactly when a PM of his goes through, and then to the connection of the
      addressee. */
  lemma PrivateIff(s: Social, e: Event, m: UserId, conn: int)
    requires Inv(s) && CanHandle(s, e)
    ensures (exists i: nat :: IsPrivate(s, Handle(s, e), i, m) && Handle(s, e).log[i].conn == conn) <==>
            (exists o :: 0 <= o < |s.users| && PmPasses(s, e, m, o) && s.users[o].connId == conn)
  {
    var t := Handle(s, e);
    ProcessGrows(s, e);
    if i: nat :| IsPrivate(s, t, i, m) && t.log[i].conn == conn {
      PrivateHasPm(s, e, m, i);
      var o := t.log[i].origin.to;
      assert PmPasses(s, e, m, o);
    }
    if o :| 0 <= o < |s.users| && PmPasses(s, e, m, o) && s.users[o].connId == conn {
      PmIsSent(s, e, m, o);
      assert IsPrivate(s, t, |s.log|, m);
    }
  }

  lemma PrivateHasPm(s: Social, e: Event, m: UserId, i: nat)
    requires Inv(s) && CanHandle(s, e) && IsPrivate(s, Handle(s, e), i, m)
    ensures var entry := Handle(s, e).log[i];
            && entry.origin.to < |s.users| && PmPasses(s, e, m, entry.origin.to)
            && entry.conn == s.users[entry.origin.to].connId
  {
    ProcessGrows(s, e);
    match Parse(e.message)
    case Some(Pm(text)) =>
    case _ => assert false;
  }

  lemma PmIsSent(s: Social, e: Event, m: UserId, o: UserId)
    requires CanHandle(s, e) && o < |s.users| && m < |s.users| && PmPasses(s, e, m, o)
    ensures var t := Handle(s, e);
            |s.log| < |t.log| && t.log[|s.log|].origin == Live(m, o, false) && t.log[|s.log|].conn == s.users[o].connId
  {
  }

  /** Another user is known under the connection of `a`, and a PM of `b` to him goes through. */
  ghost predicate Leaks(s: Social, e: Event, a: UserId, b: UserId)
    requires CanHandle(s, e) && a < |s.users|
  {
    exists o :: 0 <= o < |s.users| && o != a && PmPasses(s, e, b, o) && s.users[o].connId == s.users[a].connId
  }

  /** A private message of `b` is sent on the connection of `a`. */
  ghost predicate Arrives(s: Social, e: Event, a: UserId, b: UserId)
    requires CanHandle(s, e) && a < |s.users|
  {
    exists i: nat :: IsPrivate(s, Handle(s, e), i, b) && Handle(s, e).log[i].conn == s.users[a].connId
  }

  /** While `a` blocks `b`, a private message of `b` arrives on the connection of `a` if and only if it is for
      another user known under the same connection. */
  lemma ArrivesIffLeaks(s: Social, e: Event, a: UserId, b: UserId)
    requires Inv(s) && CanHandle(s, e) && a < |s.users| && b in s.users[a].blocks
    ensures Arrives(s, e, a, b) <==> Leaks(s, e, a, b)
  {
    PrivateIff(s, e, b, s.users[a].connId);
  }

  /** Some event of the run makes a private message of `b` arrive on the connection `a` has in that state. */
  ghost predicate EverArrives(s: Social, es: seq<Event>, a: UserId, b: UserId)
    requires CanRun(s, es)
    decreases |es|
  {
    es != [] && ((a < |s.users| && Arrives(s, es[0], a, b)) || EverArrives(Handle(s, es[0]), es[1..], a, b))
  }

  ghost predicate EverLeaks(s: Social, es: seq<Event>, a: UserId, b: UserId)
    requires CanRun(s, es)
    decreases |es|
  {
    es != [] && ((a < |s.users| && Leaks(s, es[0], a, b)) || EverLeaks(Handle(s, es[0]), es[1..], a, b))
  }

  /** Once `a` has blocked `b`: over every later run, private messages of `b` arrive where `a` is exactly through
      connections that `a` shares with other users. */
  lemma {:induction false} BlockedConnectionIff(s: Social, es: seq<Event>, a: UserId, b: UserId)
    requires Inv(s) && CanRun(s, es) && a < |s.users| && b < |s.users| && b in s.users[a].blocks
    ensures EverArrives(s, es, a, b) <==> EverLeaks(s, es, a, b)
    decreases |es|
  {
    if es != [] {
      ArrivesIffLeaks(s, es[0], a, b);
      ProcessKeeps(s, es[0].uks, es[0].aks, es[0].now, es[0].conn, es[0].message);
      ProcessGrows(s, es[0]);
      assert UserGrows(s.users[a], Handle(s, es[0]).users[a]);
      BlockedConnectionIff(Handle(s, es[0]), es[1..], a, b);
    }
  }
}
