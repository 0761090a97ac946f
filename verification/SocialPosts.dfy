/** Whom a POST reaches, how often, and with what. */
module SocialPosts {
  import opened Text
  import opened ServerMessages
  import opened Social
  import opened SocialInvariant

  // ---------------------------------------------------------------- the tag scan

  /** An '@' at the start of the text or after a space is always seen by the scan, even when earlier tags
      contain further '@' signs: the tag that starts there is collected. */
  lemma {:induction false} TagCollected(text: string, i: nat, p: nat)
    requires i <= p && p + 1 < |text| && text[p] == '@' && (p == 0 || text[p - 1] == ' ')
    ensures text[p + 1..TagEnd(text, p + 1)] in Tags(text, i)
    decreases |text| - i
  {
    if i < p {
      if text[i] == '@' {
        TagCollected(text, TagEnd(text, i + 1) + 1, p);
      } else {
        TagCollected(text, i + 1, p);
      }
    }
  }

  /** The name `name` follows an '@' at position `p`, which starts the text or follows a space, and is
      itself followed by a space or the end of the text. */
  predicate Mentions(text: string, p: nat, name: string) {
    && p < |text| && text[p] == '@' && (p == 0 || text[p - 1] == ' ')
    && name != [] && ' ' !in name && StartsWith(text[p + 1..], name)
    && (p + 1 + |name| == |text| || text[p + 1 + |name|] == ' ')
  }

  lemma {:induction false} TagEndIs(text: string, j: nat, e: nat)
    requires j <= e < |text| && (forall i :: j <= i < e ==> text[i] != ' ')
    requires text[e] == ' ' || e == |text| - 1
    ensures TagEnd(text, j) == e
    decreases e - j
  {
    if j < e { TagEndIs(text, j + 1, e); }
  }

  /** A mentioned name is matched by a collected tag, although a tag at the end of the text loses its last
      character. */
  lemma MentionIsTagged(text: string, p: nat, name: string)
    requires Mentions(text, p, name)
    ensures exists i :: 0 <= i < |Tags(text, 0)| && Occurs(Tags(text, 0)[i], name)
  {
    var stop := p + 1 + |name|;
    forall i | p + 1 <= i < stop ensures text[i] != ' ' { assert text[i] == name[i - p - 1]; }
    var e := if stop == |text| then stop - 1 else stop;
    TagEndIs(text, p + 1, e);
    TagCollected(text, 0, p);
    assert text[p + 1..e] == name[..e - p - 1];
    assert StandsAt(name, 0, text[p + 1..e]);
  }

  // ---------------------------------------------------------------- counting deliveries

  function CountOf(us: seq<UserId>, u: UserId): nat {
    if us == [] then 0 else CountOf(us[..|us| - 1], u) + if us[|us| - 1] == u then 1 else 0
  }

  lemma {:induction false} CountAppend(us: seq<UserId>, vs: seq<UserId>, u: UserId)
    ensures CountOf(us + vs, u) == CountOf(us, u) + CountOf(vs, u)
    decreases |vs|
  {
    if vs == [] {
      assert us + vs == us;
    } else {
      CountAppend(us, vs[..|vs| - 1], u);
      assert (us + vs)[..|us + vs| - 1] == us + vs[..|vs| - 1];
    }
  }

  /** How many of the tags stand in the name. */
  ghost function Hits(tags: seq<string>, name: string): nat {
    if tags == [] then 0 else Hits(tags[..|tags| - 1], name) + if Occurs(tags[|tags| - 1], name) then 1 else 0
  }

  lemma {:induction false} HitsPositive(tags: seq<string>, name: string, i: nat)
    requires i < |tags| && Occurs(tags[i], name)
    ensures Hits(tags, name) > 0
  {
    if i < |tags| - 1 { HitsPositive(tags[..|tags| - 1], name, i); }
  }

  /** The scan order lists each account once. */
  ghost predicate Listed(s: Social, uks: seq<string>) {
    Users(s) && NoDuplicates(uks) && forall k :: k in uks ==> k in s.usersMap
  }

  lemma LastKey(s: Social, uks: seq<string>, u: UserId)
    requires Listed(s, uks) && uks != [] && u < |s.users|
    ensures Listed(s, uks[..|uks| - 1])
    ensures s.usersMap[uks[|uks| - 1]] == u <==> uks[|uks| - 1] == s.users[u].name
    ensures s.users[u].name in uks <==> s.users[u].name in uks[..|uks| - 1] || s.users[u].name == uks[|uks| - 1]
    ensures !(s.users[u].name in uks[..|uks| - 1] && s.users[u].name == uks[|uks| - 1])
  {
    assert UserOk(s, u);
    assert uks == uks[..|uks| - 1] + [uks[|uks| - 1]];
  }

  lemma {:induction false} FollowersCount(s: Social, uks: seq<string>, author: UserId, u: UserId)
    requires Listed(s, uks) && u < |s.users|
    ensures CountOf(Followers(s, uks, author), u) == if Follows(s, u, author) && s.users[u].name in uks then 1 else 0
  {
    if uks != [] {
      var init, v := uks[..|uks| - 1], s.usersMap[uks[|uks| - 1]];
      LastKey(s, uks, u);
      FollowersCount(s, init, author, u);
      CountAppend(Followers(s, init, author), if Follows(s, v, author) then [v] else [], u);
    }
  }

  lemma {:induction false} UsersWithCount(s: Social, uks: seq<string>, tag: string, u: UserId)
    requires Listed(s, uks) && u < |s.users|
    ensures CountOf(UsersWith(s, uks, tag), u) ==
            if Occurs(tag, s.users[u].name) && s.users[u].name in uks then 1 else 0
  {
    ContainsIff(s.users[u].name, tag);
    if uks != [] {
      var init, v := uks[..|uks| - 1], s.usersMap[uks[|uks| - 1]];
      LastKey(s, uks, u);
      UsersWithCount(s, init, tag, u);
      CountAppend(UsersWith(s, init, tag), if Contains(s.users[v].name, tag) then [v] else [], u);
    }
  }

  lemma {:induction false} TaggedCount(s: Social, uks: seq<string>, tags: seq<string>, u: UserId)
    requires Listed(s, uks) && u < |s.users| && s.users[u].name in uks
    ensures CountOf(Tagged(s, uks, tags), u) == Hits(tags, s.users[u].name)
  {
    if tags != [] {
      TaggedCount(s, uks, tags[..|tags| - 1], u);
      UsersWithCount(s, uks, tags[|tags| - 1], u);
      CountAppend(Tagged(s, uks, tags[..|tags| - 1]), UsersWith(s, uks, tags[|tags| - 1]), u);
    }
  }

  lemma {:induction false} NotFollowingCount(s: Social, author: UserId, us: seq<UserId>, u: UserId)
    ensures CountOf(NotFollowing(s, author, us), u) == if Follows(s, u, author) then 0 else CountOf(us, u)
  {
    if us != [] {
      var init, v := us[..|us| - 1], us[|us| - 1];
      NotFollowingCount(s, author, init, u);
      CountAppend(NotFollowing(s, author, init), if Follows(s, v, author) then [] else [v], u);
      assert CountOf(us, u) == CountOf(init, u) + if v == u then 1 else 0;
    }
  }

  lemma RecipientsCount(s: Social, uks: seq<string>, author: UserId, text: string, u: UserId)
    requires Users(s) && Enumerates(uks, s.usersMap) && u < |s.users|
    ensures CountOf(Recipients(s, uks, author, text), u) ==
            if Follows(s, u, author) then 1 else Hits(Tags(text, 0), s.users[u].name)
  {
    var tagged := Tagged(s, uks, Tags(text, 0));
    assert UserOk(s, u);
    FollowersCount(s, uks, author, u);
    TaggedCount(s, uks, Tags(text, 0), u);
    NotFollowingCount(s, author, tagged, u);
    CountAppend(Followers(s, uks, author), NotFollowing(s, author, tagged), u);
  }

  // ---------------------------------------------------------------- what arrives

  /** The public notifications sent to user `u`. */
  function PublicTo(log: seq<Sent>, u: UserId): nat {
    if log == [] then 0
    else PublicTo(log[..|log| - 1], u) +
         var o := log[|log| - 1].origin; if o.Live? && o.to == u && o.isPublic then 1 else 0
  }

  /** Posts that have reached user `u`, sent at once or put into his waiting queue. */
  function Received(s: Social, u: UserId): nat
    requires u < |s.users|
  {
    |s.users[u].waiting| + PublicTo(s.log, u)
  }

  lemma DeliverCounts(s: Social, author: UserId, text: string, v: UserId, u: UserId)
    requires author < |s.users| && v < |s.users| && u < |s.users|
    ensures Received(Deliver(s, author, text, v), u) == Received(s, u) + if u == v then 1 else 0
  {
    var s' := Deliver(s, author, text, v);
    if s.users[v].active { assert s'.log[..|s.log|] == s.log; }
  }

  lemma {:induction false} DeliverAllCounts(s: Social, author: UserId, text: string, us: seq<UserId>, u: UserId)
    requires author < |s.users| && AreUsers(s, us) && u < |s.users|
    ensures Received(DeliverAll(s, author, text, us), u) == Received(s, u) + CountOf(us, u)
  {
    if us != [] {
      DeliverAllCounts(s, author, text, us[..|us| - 1], u);
      DeliverCounts(DeliverAll(s, author, text, us[..|us| - 1]), author, text, us[|us| - 1], u);
    }
  }

  /** A successful POST reaches each user who follows the author exactly once, even if he is also tagged,
      and every other user once for each tag that stands in his name. */
  lemma PostReaches(s: Social, uks: seq<string>, aks: seq<string>, conn: int, text: string, u: UserId)
    requires Inv(s) && Scannable(s, uks, aks) && Owner(s, aks, conn).Some? && u < |s.users|
    ensures |DoPost(s, uks, aks, conn, text).users| == |s.users|
    ensures Received(DoPost(s, uks, aks, conn, text), u) == Received(s, u) +
            if Owner(s, aks, conn).value in s.users[u].follows then 1 else Hits(Tags(text, 0), s.users[u].name)
  {
    var author := Owner(s, aks, conn).value;
    var us := Recipients(s, uks, author, text);
    RecipientsAreUsers(s, uks, author, text);
    DeliverAllCounts(s, author, text, us, u);
    RecipientsCount(s, uks, author, text, u);
    var t := DeliverAll(s, author, text, us);
    assert Reply(t, conn, Ack("05")).log[..|t.log|] == t.log;
  }

  /** Every registered user whose full name is mentioned gets the post at least once - even a user who has
      blocked the author. */
  lemma MentionedIsReached(s: Social, uks: seq<string>, aks: seq<string>, conn: int, text: string, u: UserId, p: nat)
    requires Inv(s) && Scannable(s, uks, aks) && Owner(s, aks, conn).Some? && u < |s.users|
    requires Mentions(text, p, s.users[u].name)
    ensures |DoPost(s, uks, aks, conn, text).users| == |s.users|
    ensures Received(DoPost(s, uks, aks, conn, text), u) > Received(s, u)
  {
    PostReaches(s, uks, aks, conn, text, u);
    MentionIsTagged(text, p, s.users[u].name);
    var i :| 0 <= i < |Tags(text, 0)| && Occurs(Tags(text, 0)[i], s.users[u].name);
    HitsPositive(Tags(text, 0), s.users[u].name, i);
  }

  /** The new messages and waiting entries all carry the author's name and the text; messages go to the connections
      of logged-in users, entries wait for the others, and nothing else changes. */
  ghost predicate Faithful(s: Social, t: Social, author: UserId, text: string) {
    && author < |s.users| && |t.users| == |s.users| && s.log <= t.log
    && t == s.(users := t.users, log := t.log, posts := t.posts)
    && (forall i :: |s.log| <= i < |t.log| ==>
          var o := t.log[i].origin;
          && o.Live? && o.isPublic && o.author == author && o.to < |s.users|
          && s.users[o.to].active && t.log[i].conn == s.users[o.to].connId
          && t.log[i].msg == Notification(true, s.users[author].name, text))
    && (forall u :: 0 <= u < |s.users| ==>
          && t.users[u].(waiting := s.users[u].waiting) == s.users[u]
          && s.users[u].waiting <= t.users[u].waiting
          && (s.users[u].active ==> t.users[u].waiting == s.users[u].waiting)
          && forall i :: |s.users[u].waiting| <= i < |t.users[u].waiting| ==>
               t.users[u].waiting[i] == s.users[author].name + " " + text)
  }

  lemma {:induction false} DeliverAllFaithful(s: Social, author: UserId, text: string, us: seq<UserId>)
    requires author < |s.users| && AreUsers(s, us)
    ensures Faithful(s, DeliverAll(s, author, text, us), author, text)
  {
    if us != [] {
      DeliverAllFaithful(s, author, text, us[..|us| - 1]);
      DeliverFaithful(s, DeliverAll(s, author, text, us[..|us| - 1]), author, text, us[|us| - 1]);
    }
  }

  lemma DeliverFaithful(s: Social, t: Social, author: UserId, text: string, u: UserId)
    requires Faithful(s, t, author, text) && u < |s.users|
    ensures Faithful(s, Deliver(t, author, text, u), author, text)
  {
    assert t.users[author].(waiting := s.users[author].waiting) == s.users[author];
    assert t.users[u].(waiting := s.users[u].waiting) == s.users[u];
  }
}
