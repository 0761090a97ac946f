/** What the scans of the maps find, in terms of positions: where a name stands in a text, and which entry of the
    scan order comes first. */
module SocialScans {
  import opened Options
  import opened Text
  import opened Social

  /** The entry at position `i` of the scan passes, and none before it. */
  predicate FirstAt(users: seq<User>, m: map<string, UserId>, ks: seq<string>, p: Test, i: nat)
    requires forall k :: k in ks ==> k in m && m[k] < |users|
  {
    i < |ks| && Passes(users[m[ks[i]]], p) && forall j :: 0 <= j < i ==> !Passes(users[m[ks[j]]], p)
  }

  lemma {:induction false} FirstIff(users: seq<User>, m: map<string, UserId>, ks: seq<string>, p: Test, u: UserId)
    requires forall k :: k in ks ==> k in m && m[k] < |users|
    ensures FirstWhere(users, m, ks, p) == Some(u) <==> exists i: nat :: FirstAt(users, m, ks, p, i) && m[ks[i]] == u
  {
    if ks != [] && !Passes(users[m[ks[0]]], p) {
      FirstIff(users, m, ks[1..], p, u);
      if i: nat :| FirstAt(users, m, ks[1..], p, i) && m[ks[1..][i]] == u {
        FirstShift(users, m, ks, p, i);
      }
      if i: nat :| FirstAt(users, m, ks, p, i) && m[ks[i]] == u {
        FirstShift(users, m, ks, p, i - 1);
      }
    } else if ks != [] {
      assert FirstAt(users, m, ks, p, 0);
    }
  }

  lemma FirstShift(users: seq<User>, m: map<string, UserId>, ks: seq<string>, p: Test, i: nat)
    requires (forall k :: k in ks ==> k in m && m[k] < |users|) && ks != [] && !Passes(users[m[ks[0]]], p)
    ensures FirstAt(users, m, ks[1..], p, i) <==> FirstAt(users, m, ks, p, i + 1)
    ensures i < |ks[1..]| ==> m[ks[1..][i]] == m[ks[i + 1]]
  {
    if FirstAt(users, m, ks[1..], p, i) {
      forall j | 0 <= j < i + 1 ensures !Passes(users[m[ks[j]]], p) {
        if j > 0 { assert !Passes(users[m[ks[1..][j - 1]]], p); }
      }
    }
    if FirstAt(users, m, ks, p, i + 1) {
      forall j | 0 <= j < i ensures !Passes(users[m[ks[1..][j]]], p) { assert !Passes(users[m[ks[j + 1]]], p); }
    }
  }

  /** The owner of a connection is the user of the first active entry that has the connection. */
  ghost predicate OwnsAt(s: Social, aks: seq<string>, conn: int, i: nat, u: UserId)
    requires MapsOk(s) && forall k :: k in aks ==> k in s.activeMap
  {
    && i < |aks| && s.activeMap[aks[i]] == u && s.users[u].connId == conn
    && forall j :: 0 <= j < i ==> s.users[s.activeMap[aks[j]]].connId != conn
  }

  lemma OwnerIs(s: Social, aks: seq<string>, conn: int, u: UserId)
    requires MapsOk(s) && Enumerates(aks, s.activeMap)
    ensures Owner(s, aks, conn) == Some(u) <==> exists i: nat :: OwnsAt(s, aks, conn, i, u)
  {
    FirstIff(s.users, s.activeMap, aks, OnConnection(conn), u);
    if i: nat :| OwnsAt(s, aks, conn, i, u) {
      assert FirstAt(s.users, s.activeMap, aks, OnConnection(conn), i);
    }
    if i: nat :| FirstAt(s.users, s.activeMap, aks, OnConnection(conn), i) && s.activeMap[aks[i]] == u {
      forall j | 0 <= j < i ensures s.users[s.activeMap[aks[j]]].connId != conn {
        assert !Passes(s.users[s.activeMap[aks[j]]], OnConnection(conn));
      }
      assert OwnsAt(s, aks, conn, i, u);
    }
  }

  /** The user a request names is the first one whose name stands somewhere in its text. */
  ghost predicate NamedAt(s: Social, uks: seq<string>, text: string, i: nat, u: UserId)
    requires MapsOk(s) && forall k :: k in uks ==> k in s.usersMap
  {
    && i < |uks| && s.usersMap[uks[i]] == u && Occurs(s.users[u].name, text)
    && forall j :: 0 <= j < i ==> !Occurs(s.users[s.usersMap[uks[j]]].name, text)
  }

  lemma NamedIs(s: Social, uks: seq<string>, text: string, u: UserId)
    requires MapsOk(s) && Enumerates(uks, s.usersMap)
    ensures Named(s, uks, text) == Some(u) <==> exists i: nat :: NamedAt(s, uks, text, i, u)
  {
    FirstIff(s.users, s.usersMap, uks, NameIn(text), u);
    forall v: UserId | v < |s.users| ensures Passes(s.users[v], NameIn(text)) <==> Occurs(s.users[v].name, text) {
      ContainsIff(text, s.users[v].name);
    }
    if i: nat :| NamedAt(s, uks, text, i, u) {
      assert FirstAt(s.users, s.usersMap, uks, NameIn(text), i);
    }
    if i: nat :| FirstAt(s.users, s.usersMap, uks, NameIn(text), i) && s.usersMap[uks[i]] == u {
      assert NamedAt(s, uks, text, i, u);
    }
  }

  /** The user LOGIN finds is the first one in whose name the given text stands. */
  ghost predicate MatchesAt(s: Social, uks: seq<string>, part: string, i: nat, u: UserId)
    requires MapsOk(s) && forall k :: k in uks ==> k in s.usersMap
  {
    && i < |uks| && s.usersMap[uks[i]] == u && Occurs(part, s.users[u].name)
    && forall j :: 0 <= j < i ==> !Occurs(part, s.users[s.usersMap[uks[j]]].name)
  }

  lemma MatchingIs(s: Social, uks: seq<string>, part: string, u: UserId)
    requires MapsOk(s) && Enumerates(uks, s.usersMap)
    ensures Matching(s, uks, part) == Some(u) <==> exists i: nat :: MatchesAt(s, uks, part, i, u)
  {
    FirstIff(s.users, s.usersMap, uks, NameHas(part), u);
    forall v: UserId | v < |s.users| ensures Passes(s.users[v], NameHas(part)) <==> Occurs(part, s.users[v].name) {
      ContainsIff(s.users[v].name, part);
    }
    if i: nat :| MatchesAt(s, uks, part, i, u) {
      assert FirstAt(s.users, s.usersMap, uks, NameHas(part), i);
    }
    if i: nat :| FirstAt(s.users, s.usersMap, uks, NameHas(part), i) && s.usersMap[uks[i]] == u {
      assert MatchesAt(s, uks, part, i, u);
    }
  }
}
