/** The scans of POST as wholes: which tags the text has, and in which order the recipients are served. */
module SocialTags {
  import opened Text
  import opened Social
  import opened SocialPosts

  // ---------------------------------------------------------------- the tags of a text

  /** Where a tag is: its '@', and the position that ends it. */
  datatype Span = Span(at: nat, end: nat)

  /** The tag stands between an '@' and the first space behind it, or the last character of the text. */
  predicate TagAt(text: string, tag: string, p: Span) {
    && p.at + 1 <= p.end < |text| && text[p.at] == '@' && tag == text[p.at + 1..p.end] && ' ' !in tag
    && (text[p.end] == ' ' || p.end == |text| - 1)
  }

  predicate EachAt(text: string, tags: seq<string>, ps: seq<Span>, from: nat) {
    && |ps| == |tags|
    && (forall i :: 0 <= i < |ps| ==> from <= ps[i].at && TagAt(text, tags[i], ps[i]))
    && forall i, j :: 0 <= i < j < |ps| ==> ps[i].end < ps[j].at
  }

  ghost predicate Inside(ps: seq<Span>, p: nat) { exists i :: 0 <= i < |ps| && ps[i].at <= p <= ps[i].end }

  /** Every '@' behind which there is a character starts one of the tags or stands inside one. */
  ghost predicate AllSeen(text: string, ps: seq<Span>, from: nat) {
    forall p: nat :: from <= p && p + 1 < |text| && text[p] == '@' ==> Inside(ps, p)
  }

  lemma SeenMore(text: string, ps: seq<Span>, p: Span, q: nat)
    requires AllSeen(text, ps, p.end + 1) && p.at <= q && q + 1 < |text| && text[q] == '@'
    ensures Inside([p] + ps, q)
  {
    var qs := [p] + ps;
    if q <= p.end {
      assert qs[0] == p;
    } else {
      assert Inside(ps, q);
      var i :| 0 <= i < |ps| && ps[i].at <= q <= ps[i].end;
      assert qs[i + 1] == ps[i];
    }
  }

  lemma AllSeenMore(text: string, ps: seq<Span>, p: Span)
    requires AllSeen(text, ps, p.end + 1)
    ensures AllSeen(text, [p] + ps, p.at)
  {
    forall q: nat | p.at <= q && q + 1 < |text| && text[q] == '@' ensures Inside([p] + ps, q) {
      SeenMore(text, ps, p, q);
    }
  }

  /** A character that starts no tag is passed over. */
  lemma PassOver(text: string, tags: seq<string>, ps: seq<Span>, from: nat)
    requires EachAt(text, tags, ps, from + 1) && AllSeen(text, ps, from + 1)
    requires from + 1 < |text| ==> text[from] != '@'
    ensures EachAt(text, tags, ps, from) && AllSeen(text, ps, from)
  {
  }

  lemma TagMore(text: string, tags: seq<string>, p: Span, ps: seq<Span>)
    requires p.at + 1 < |text| && text[p.at] == '@' && p.end == TagEnd(text, p.at + 1)
    requires EachAt(text, tags, ps, p.end + 1) && AllSeen(text, ps, p.end + 1)
    ensures EachAt(text, [text[p.at + 1..p.end]] + tags, [p] + ps, p.at) && AllSeen(text, [p] + ps, p.at)
  {
    TagSpan(text, p);
    OneMore(text, text[p.at + 1..p.end], tags, p, ps);
    AllSeenMore(text, ps, p);
  }

  lemma OneMore(text: string, tag: string, tags: seq<string>, p: Span, ps: seq<Span>)
    requires TagAt(text, tag, p) && EachAt(text, tags, ps, p.end + 1)
    ensures EachAt(text, [tag] + tags, [p] + ps, p.at)
  {
  }

  lemma TagSpan(text: string, p: Span)
    requires p.at + 1 < |text| && text[p.at] == '@' && p.end == TagEnd(text, p.at + 1)
    ensures TagAt(text, text[p.at + 1..p.end], p)
  {
  }

  ghost predicate TagsFrom(text: string, from: nat, tags: seq<string>, ps: seq<Span>) {
    EachAt(text, tags, ps, from) && AllSeen(text, ps, from)
  }

  lemma NoTags(text: string, from: nat)
    requires from >= |text|
    ensures TagsFrom(text, from, [], [])
  {
  }

  lemma FirstTag(text: string, from: nat, p: Span, ps: seq<Span>)
    requires from + 1 < |text| && text[from] == '@' && p == Span(from, TagEnd(text, from + 1))
    requires TagsFrom(text, p.end + 1, Tags(text, p.end + 1), ps)
    ensures TagsFrom(text, from, Tags(text, from), [p] + ps)
  {
    TagMore(text, Tags(text, p.end + 1), p, ps);
  }

  lemma LaterTag(text: string, from: nat, ps: seq<Span>)
    requires from < |text| && (from + 1 < |text| ==> text[from] != '@')
    requires TagsFrom(text, from + 1, Tags(text, from + 1), ps)
    ensures TagsFrom(text, from, Tags(text, from), ps)
  {
    PassOver(text, Tags(text, from + 1), ps, from);
  }

  /** The tags of a text stand behind its '@' characters from left to right, without overlap, and no '@' is left
      out. */
  lemma {:induction false} TagsAre(text: string, from: nat) returns (ps: seq<Span>)
    ensures TagsFrom(text, from, Tags(text, from), ps)
    decreases |text| - from
  {
    if from >= |text| {
      NoTags(text, from);
      ps := [];
    } else if text[from] == '@' && from + 1 < |text| {
      var p := Span(from, TagEnd(text, from + 1));
      var rest := TagsAre(text, p.end + 1);
      FirstTag(text, from, p, rest);
      ps := [p] + rest;
    } else {
      ps := TagsAre(text, from + 1);
      LaterTag(text, from, ps);
    }
  }

  // ---------------------------------------------------------------- the order of the recipients

  /** `us` are the users at the positions `ps` of the scan, from first to last. */
  predicate Scanned(s: Social, uks: seq<string>, us: seq<UserId>, ps: seq<nat>)
    requires forall k :: k in uks ==> k in s.usersMap
  {
    && |ps| == |us| && (forall i :: 0 <= i < |ps| ==> ps[i] < |uks| && us[i] == s.usersMap[uks[ps[i]]])
    && forall i, j :: 0 <= i < j < |ps| ==> ps[i] < ps[j]
  }

  lemma ScanMore(s: Social, uks: seq<string>, us: seq<UserId>, ps: seq<nat>, taken: bool) returns (qs: seq<nat>)
    requires uks != [] && (forall k :: k in uks ==> k in s.usersMap) && Scanned(s, uks[..|uks| - 1], us, ps)
    ensures var n := |uks| - 1;
            && Scanned(s, uks, us + (if taken then [s.usersMap[uks[n]]] else []), qs)
            && forall p: nat :: p in qs <==> p in ps || (taken && p == n)
  {
    qs := ps + if taken then [|uks| - 1] else [];
  }

  /** The followers of the author, in scan order, each as often as it is listed. */
  lemma {:induction false} FollowersAre(s: Social, uks: seq<string>, author: UserId) returns (ps: seq<nat>)
    requires MapsOk(s) && forall k :: k in uks ==> k in s.usersMap
    ensures Scanned(s, uks, Followers(s, uks, author), ps)
    ensures forall p: nat :: p in ps <==> p < |uks| && author in s.users[s.usersMap[uks[p]]].follows
  {
    if uks == [] {
      ps := [];
    } else {
      var n := |uks| - 1;
      var qs := FollowersAre(s, uks[..n], author);
      ps := ScanMore(s, uks, Followers(s, uks[..n], author), qs, Follows(s, s.usersMap[uks[n]], author));
    }
  }

  /** The users whose name the tag stands in, in scan order. */
  lemma {:induction false} UsersWithAre(s: Social, uks: seq<string>, tag: string) returns (ps: seq<nat>)
    requires MapsOk(s) && forall k :: k in uks ==> k in s.usersMap
    ensures Scanned(s, uks, UsersWith(s, uks, tag), ps)
    ensures forall p: nat :: p in ps <==> p < |uks| && Occurs(tag, s.users[s.usersMap[uks[p]]].name)
  {
    if uks == [] {
      ps := [];
    } else {
      var n := |uks| - 1;
      var u := s.usersMap[uks[n]];
      ContainsIff(s.users[u].name, tag);
      var qs := UsersWithAre(s, uks[..n], tag);
      ps := ScanMore(s, uks, UsersWith(s, uks[..n], tag), qs, Contains(s.users[u].name, tag));
    }
  }

  /** The users of the first tag come first. */
  lemma {:induction false} TaggedInOrder(s: Social, uks: seq<string>, tags: seq<string>)
    requires MapsOk(s) && (forall k :: k in uks ==> k in s.usersMap) && tags != []
    ensures Tagged(s, uks, tags) == UsersWith(s, uks, tags[0]) + Tagged(s, uks, tags[1..])
    decreases |tags|
  {
    var n := |tags| - 1;
    if n == 0 {
      assert tags[..0] == [] && tags[1..] == [];
    } else {
      TaggedInOrder(s, uks, tags[..n]);
      assert tags[..n][1..] == tags[1..][..n - 1] && tags[1..][n - 1] == tags[n];
    }
  }

  /** Among the recipients all followers come before all others. */
  lemma FollowersFirst(s: Social, uks: seq<string>, author: UserId, text: string, i: nat, j: nat)
    requires MapsOk(s) && forall k :: k in uks ==> k in s.usersMap
    requires i < j < |Recipients(s, uks, author, text)|
    ensures AreUsers(s, Recipients(s, uks, author, text))
    ensures var us := Recipients(s, uks, author, text);
            author in s.users[us[j]].follows ==> author in s.users[us[i]].follows
  {
    RecipientsAreUsers(s, uks, author, text);
    FollowersFollow(s, uks, author);
    NotFollowingOnly(s, author, Tagged(s, uks, Tags(text, 0)));
  }

  /** The users that are logged in. */
  function Awake(s: Social, us: seq<UserId>): seq<UserId> {
    if us == [] then []
    else Awake(s, us[..|us| - 1]) + var u := us[|us| - 1]; if u < |s.users| && s.users[u].active then [u] else []
  }

  /** The public notifications a post adds to the log are addressed to the recipients that are logged in, one each and
      in their order. */
  ghost predicate InOrder(s: Social, t: Social, author: UserId, us: seq<UserId>) {
    && |t.log| == |s.log| + |Awake(s, us)|
    && forall i :: 0 <= i < |Awake(s, us)| ==> t.log[|s.log| + i].origin == Live(author, Awake(s, us)[i], true)
  }

  lemma DeliverInOrder(s: Social, t: Social, author: UserId, text: string, us: seq<UserId>)
    requires us != [] && author < |s.users| && AreUsers(s, us)
    requires t == DeliverAll(s, author, text, us[..|us| - 1]) && InOrder(s, t, author, us[..|us| - 1])
    requires Faithful(s, t, author, text)
    ensures InOrder(s, Deliver(t, author, text, us[|us| - 1]), author, us)
  {
    var u := us[|us| - 1];
    assert t.users[u].(waiting := s.users[u].waiting) == s.users[u];
  }

  lemma {:induction false} DeliveredInOrder(s: Social, author: UserId, text: string, us: seq<UserId>)
    requires author < |s.users| && AreUsers(s, us)
    ensures InOrder(s, DeliverAll(s, author, text, us), author, us)
  {
    if us != [] {
      DeliveredInOrder(s, author, text, us[..|us| - 1]);
      DeliverAllFaithful(s, author, text, us[..|us| - 1]);
      DeliverInOrder(s, DeliverAll(s, author, text, us[..|us| - 1]), author, text, us);
    }
  }
}
