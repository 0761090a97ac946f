/** The login replay: what waits for a user, and under which names it is replayed. */
module SocialReplay {
  import opened Options
  import opened Text
  import opened ServerMessages
  import opened Requests
  import opened Social
  import opened SocialRuns
  import opened SocialPosts

  // ---------------------------------------------------------------- every waiting post has an author

  /** The post was queued by an author of this name. */
  predicate IsEntry(e: string, name: string) { |name| < |e| && e[..|name|] == name && e[|name|] == ' ' }

  ghost predicate HasAuthor(s: Social, e: string) { exists a :: 0 <= a < |s.users| && IsEntry(e, s.users[a].name) }

  ghost predicate UserAuthored(s: Social, u: UserId) {
    u < |s.users| ==>
      && s.users[u].name != [] && ' ' !in s.users[u].name
      && forall k :: 0 <= k < |s.users[u].waiting| ==> HasAuthor(s, s.users[u].waiting[k])
  }

  /** Names are words, and every waiting post was queued by a registered author. */
  ghost predicate Authored(s: Social) { forall u: UserId :: UserAuthored(s, u) }

  /** Nobody's name or waiting posts change, and nothing waits for new users, whose names are words. */
  ghost predicate Quiet(s: Social, t: Social) {
    && |s.users| <= |t.users|
    && (forall i :: 0 <= i < |s.users| ==>
          t.users[i].name == s.users[i].name && t.users[i].waiting == s.users[i].waiting)
    && (forall i :: |s.users| <= i < |t.users| ==>
          t.users[i].waiting == [] && t.users[i].name != [] && ' ' !in t.users[i].name)
  }

  lemma QuietKeeps(s: Social, t: Social)
    requires Authored(s) && Quiet(s, t)
    ensures Authored(t)
  {
    forall u: UserId ensures UserAuthored(t, u) {
      assert UserAuthored(s, u);
      if u < |s.users| {
        forall k | 0 <= k < |t.users[u].waiting| ensures HasAuthor(t, t.users[u].waiting[k]) {
          var a :| 0 <= a < |s.users| && IsEntry(s.users[u].waiting[k], s.users[a].name);
          assert IsEntry(t.users[u].waiting[k], t.users[a].name);
        }
      }
    }
  }

  lemma LoginQuiet(s: Social, uks: seq<string>, conn: int, name: string, password: string, captcha: string)
    requires MapsOk(s) && Enumerates(uks, s.usersMap)
    ensures Quiet(s, DoLogin(s, uks, conn, name, password, captcha))
  {
    var found := Matching(s, uks, name);
    if found.Some? && s.users[found.value].password == password && captcha == "1" && !s.users[found.value].active {
      var u := found.value;
      var s1 := SetUser(s, u, s.users[u].(active := true, connId := conn)).(activeMap := s.activeMap[name := u]);
      ReplayGrows(Reply(s1, conn, Ack("02")), u, s.users[u].waiting, "", 0);
    }
  }

  lemma BlockQuiet(s: Social, uks: seq<string>, aks: seq<string>, conn: int, rest: string)
    requires Scannable(s, uks, aks)
    ensures Quiet(s, DoBlock(s, uks, aks, conn, rest).state)
  {
  }

  lemma FollowQuiet(s: Social, uks: seq<string>, aks: seq<string>, conn: int, action: char, rest: string)
    requires Scannable(s, uks, aks)
    ensures Quiet(s, DoFollow(s, uks, aks, conn, action, rest))
  {
  }

  lemma PmQuiet(s: Social, uks: seq<string>, aks: seq<string>, conn: int, text: string)
    requires Scannable(s, uks, aks)
    ensures Quiet(s, DoPm(s, uks, aks, conn, text).state)
  {
  }

  lemma AccountQuiet(s: Social, e: Event)
    requires CanHandle(s, e) && Parse(e.message).Some?
    requires var r := Parse(e.message).value;
             r.Logout? || r.Ignored? || r.Stat? || (r.Register? && r.name != [] && ' ' !in r.name)
    ensures Quiet(s, Handle(s, e))
  {
  }

  /** A post only adds entries of its author. */
  lemma PostAuthored(s: Social, uks: seq<string>, aks: seq<string>, conn: int, text: string)
    requires Authored(s) && Scannable(s, uks, aks)
    ensures Authored(DoPost(s, uks, aks, conn, text))
  {
    match Owner(s, aks, conn)
    case None => QuietKeeps(s, DoPost(s, uks, aks, conn, text));
    case Some(author) =>
      RecipientsAreUsers(s, uks, author, text);
      var t := DeliverAll(s, author, text, Recipients(s, uks, author, text));
      DeliverAllFaithful(s, author, text, Recipients(s, uks, author, text));
      DeliveredAuthored(s, t, author, text);
      QuietKeeps(t, DoPost(s, uks, aks, conn, text));
  }

  lemma DeliveredAuthored(s: Social, t: Social, author: UserId, text: string)
    requires Authored(s) && Faithful(s, t, author, text)
    ensures Authored(t)
  {
    forall u: UserId ensures UserAuthored(t, u) {
      if u < |s.users| {
        assert UserAuthored(s, u);
        assert t.users[u].(waiting := s.users[u].waiting) == s.users[u];
        forall k | 0 <= k < |t.users[u].waiting| ensures HasAuthor(t, t.users[u].waiting[k]) {
          var a: UserId := author;
          if k < |s.users[u].waiting| {
            a :| 0 <= a < |s.users| && IsEntry(s.users[u].waiting[k], s.users[a].name);
          }
          assert t.users[a].(waiting := s.users[a].waiting) == s.users[a];
          assert IsEntry(t.users[u].waiting[k], t.users[a].name);
        }
      }
    }
  }

  /** A request that registers only a word; the client's REGISTER can register nothing with a space. */
  predicate WordsOnly(e: Event) {
    match Parse(e.message)
    case Some(Register(name, _, _)) => name != [] && ' ' !in name
    case _ => true
  }

  lemma RequestAuthored(s: Social, e: Event)
    requires Authored(s) && CanHandle(s, e) && WordsOnly(e)
    ensures Authored(Handle(s, e))
  {
    match Parse(e.message)
    case Some(Login(name, password, captcha)) =>
      LoginQuiet(s, e.uks, e.conn, name, password, captcha);
      QuietKeeps(s, Handle(s, e));
    case Some(Follow(action, rest)) =>
      FollowQuiet(s, e.uks, e.aks, e.conn, action, rest);
      QuietKeeps(s, Handle(s, e));
    case Some(Post(text)) => PostAuthored(s, e.uks, e.aks, e.conn, text);
    case Some(Pm(text)) =>
      PmQuiet(s, e.uks, e.aks, e.conn, text);
      QuietKeeps(s, Handle(s, e));
    case Some(Block(rest)) =>
      BlockQuiet(s, e.uks, e.aks, e.conn, rest);
      QuietKeeps(s, Handle(s, e));
    case Some(Logstat) =>
      StatsGrow(s, e.aks, e.now, e.conn);
      QuietKeeps(s, Handle(s, e));
    case Some(_) =>
      AccountQuiet(s, e);
      QuietKeeps(s, Handle(s, e));
    case None =>
  }

  lemma {:induction false} RunAuthored(s: Social, es: seq<Event>)
    requires Authored(s) && CanRun(s, es) && forall i :: 0 <= i < |es| ==> WordsOnly(es[i])
    ensures Authored(RunAll(s, es))
    decreases |es|
  {
    if es != [] {
      RequestAuthored(s, es[0]);
      RunAuthored(Handle(s, es[0]), es[1..]);
    }
  }

  // ---------------------------------------------------------------- the replay

  function Join(ws: seq<string>): string {
    if ws == [] then [] else Join(ws[..|ws| - 1]) + ws[|ws| - 1]
  }

  function Entries(authors: seq<string>, texts: seq<string>): (es: seq<string>)
    requires |authors| == |texts|
    ensures |es| == |authors|
    ensures forall k :: 0 <= k < |es| ==> es[k] == authors[k] + " " + texts[k]
  {
    seq(|authors|, k requires 0 <= k < |authors| => authors[k] + " " + texts[k])
  }

  lemma JoinCons(w: string, ws: seq<string>)
    ensures Join([w] + ws) == w + Join(ws)
    decreases |ws|
  {
    if ws == [] {
      assert ([w] + ws)[..0] == [];
    } else {
      JoinCons(w, ws[..|ws| - 1]);
      assert ([w] + ws)[..|ws|] == [w] + ws[..|ws| - 1];
    }
  }

  lemma {:induction false} IndexIs(s: string, c: char, n: nat)
    requires n < |s| && s[n] == c && c !in s[..n]
    ensures IndexOf(s, c) == n
  {
    if n > 0 {
      assert s[0] in s[..n];
      assert s[1..][..n - 1] == s[..n][1..];
      IndexIs(s[1..], c, n - 1);
    }
  }

  /** An entry is taken apart into the author and the text it was made of. */
  lemma EntrySplits(author: string, text: string)
    requires ' ' !in author
    ensures var e := author + " " + text;
            IndexOf(e, ' ') == |author| && e[..|author|] == author && e[|author| + 1..] == text
  {
    var e := author + " " + text;
    assert e[..|author|] == author;
    IndexIs(e, ' ', |author|);
  }

  lemma NameShift(name: string, author: string, authors: seq<string>, k: nat)
    requires k <= |authors|
    ensures name + Join(([author] + authors)[..k + 1]) == name + author + Join(authors[..k])
  {
    assert ([author] + authors)[..k + 1] == [author] + authors[..k];
    JoinCons(author, authors[..k]);
  }

  /** One step of the replay. */
  lemma ReplayFirst(s: Social, u: UserId, authors: seq<string>, texts: seq<string>, name: string, limit: nat)
    requires u < |s.users| && 0 < |authors| == |texts| && ' ' !in authors[0]
    ensures var s1 := Send(s, s.users[u].connId, Notification(true, name + authors[0], texts[0]), Replay(u));
            ReplayAll(s, u, Entries(authors, texts), name, limit) ==
            ReplayAll(s1, u, Entries(authors[1..], texts[1..]), name + authors[0], |authors[0]| + 1)
  {
    EntrySplits(authors[0], texts[0]);
    assert Entries(authors, texts)[1..] == Entries(authors[1..], texts[1..]);
  }

  /** The k-th entry of a replay arrives with its text intact, but under the names of the first k + 1
      authors run together. */
  lemma {:induction false} ReplayIs(s: Social, u: UserId, authors: seq<string>, texts: seq<string>, name: string,
                                    limit: nat, k: nat)
    requires u < |s.users| && k < |authors| == |texts|
    requires forall i :: 0 <= i < |authors| ==> ' ' !in authors[i]
    ensures var t := ReplayAll(s, u, Entries(authors, texts), name, limit);
            && |s.log| + k < |t.log|
            && t.log[|s.log| + k] ==
               Sent(s.users[u].connId, Notification(true, name + Join(authors[..k + 1]), texts[k]), Replay(u))
    decreases |authors|
  {
    var s1 := Send(s, s.users[u].connId, Notification(true, name + authors[0], texts[0]), Replay(u));
    ReplayFirst(s, u, authors, texts, name, limit);
    assert authors == [authors[0]] + authors[1..];
    NameShift(name, authors[0], authors[1..], k);
    if k == 0 {
      ReplayGrows(s1, u, Entries(authors[1..], texts[1..]), name + authors[0], |authors[0]| + 1);
      assert name + authors[0] + Join([]) == name + authors[0];
    } else {
      ReplayIs(s1, u, authors[1..], texts[1..], name + authors[0], |authors[0]| + 1, k - 1);
    }
  }

  /** The author and the text of a waiting post. */
  function AuthorOf(e: string): string { e[..IndexOf(e, ' ')] }

  function TextAfter(e: string): string {
    var i := IndexOf(e, ' ');
    if i < |e| then e[i + 1..] else []
  }

  function AuthorsOf(es: seq<string>): (r: seq<string>)
    ensures |r| == |es| && forall k :: 0 <= k < |es| ==> r[k] == AuthorOf(es[k])
  {
    if es == [] then [] else [AuthorOf(es[0])] + AuthorsOf(es[1..])
  }

  function TextsOf(es: seq<string>): (r: seq<string>)
    ensures |r| == |es| && forall k :: 0 <= k < |es| ==> r[k] == TextAfter(es[k])
  {
    if es == [] then [] else [TextAfter(es[0])] + TextsOf(es[1..])
  }

  /** A waiting post is its author, a space and its text, and the author is a registered user. */
  lemma EntryIs(s: Social, u: UserId, k: nat)
    requires Authored(s) && u < |s.users| && k < |s.users[u].waiting|
    ensures var e := s.users[u].waiting[k];
            && e == AuthorOf(e) + " " + TextAfter(e) && ' ' !in AuthorOf(e) && AuthorOf(e) != []
            && exists a :: 0 <= a < |s.users| && s.users[a].name == AuthorOf(e)
  {
    var e := s.users[u].waiting[k];
    assert UserAuthored(s, u) && HasAuthor(s, e);
    var a :| 0 <= a < |s.users| && IsEntry(e, s.users[a].name);
    assert UserAuthored(s, a);
    IndexIs(e, ' ', |s.users[a].name|);
    assert AuthorOf(e) == s.users[a].name;
  }

  lemma WaitingSplits(s: Social, u: UserId)
    requires Authored(s) && u < |s.users|
    ensures var w := s.users[u].waiting;
            && Entries(AuthorsOf(w), TextsOf(w)) == w
            && forall i :: 0 <= i < |w| ==> ' ' !in AuthorsOf(w)[i] && AuthorsOf(w)[i] != []
  {
    var w := s.users[u].waiting;
    forall i | 0 <= i < |w|
      ensures w[i] == AuthorsOf(w)[i] + " " + TextsOf(w)[i] && ' ' !in AuthorsOf(w)[i] && AuthorsOf(w)[i] != []
    {
      EntryIs(s, u, i);
    }
  }

  /** The server after a successful LOGIN, before the replay. */
  function Admitted(s: Social, u: UserId, name: string, conn: int): Social
    requires u < |s.users|
  {
    Reply(SetUser(s, u, s.users[u].(active := true, connId := conn)).(activeMap := s.activeMap[name := u]), conn,
          Ack("02"))
  }

  lemma LoginIsReplay(s: Social, uks: seq<string>, conn: int, name: string, password: string, captcha: string,
                      u: UserId)
    requires MapsOk(s) && Enumerates(uks, s.usersMap) && Matching(s, uks, name) == Some(u)
    requires s.users[u].password == password && captcha == "1" && !s.users[u].active
    ensures DoLogin(s, uks, conn, name, password, captcha) ==
            ReplayAll(Admitted(s, u, name, conn), u, s.users[u].waiting, "", 0)
  {
  }

  /** What the message for the k-th waiting post says: its own text under all names so far. */
  ghost predicate NoteIs(log: seq<Sent>, at: nat, w: seq<string>, k: nat)
    requires k < |w|
  {
    at < |log| && log[at].msg == Notification(true, Join(AuthorsOf(w)[..k + 1]), TextAfter(w[k]))
  }

  ghost predicate ReplayedAs(s: Social, t: Social, u: UserId, k: nat)
    requires u < |s.users| && k < |s.users[u].waiting|
  {
    NoteIs(t.log, |s.log| + 1 + k, s.users[u].waiting, k)
  }

  lemma LoginReplays(s: Social, name: string, conn: int, u: UserId, k: nat)
    requires Authored(s) && u < |s.users| && k < |s.users[u].waiting|
    ensures ReplayedAs(s, ReplayAll(Admitted(s, u, name, conn), u, s.users[u].waiting, "", 0), u, k)
  {
    var t, w := Admitted(s, u, name, conn), s.users[u].waiting;
    WaitingSplits(s, u);
    AdmittedSize(s, u, name, conn);
    ReplaysWaiting(t, u, w, k);
  }

  lemma AdmittedSize(s: Social, u: UserId, name: string, conn: int)
    requires u < |s.users|
    ensures |Admitted(s, u, name, conn).users| == |s.users| && |Admitted(s, u, name, conn).log| == |s.log| + 1
  {
  }

  lemma ReplaysWaiting(t: Social, u: UserId, w: seq<string>, k: nat)
    requires u < |t.users| && k < |w| && Entries(AuthorsOf(w), TextsOf(w)) == w
    requires forall i :: 0 <= i < |w| ==> ' ' !in AuthorsOf(w)[i]
    ensures NoteIs(ReplayAll(t, u, w, "", 0).log, |t.log| + k, w, k)
  {
    ReplayIs(t, u, AuthorsOf(w), TextsOf(w), "", 0, k);
    assert "" + Join(AuthorsOf(w)[..k + 1]) == Join(AuthorsOf(w)[..k + 1]);
  }

  lemma JoinsRightIff(authors: seq<string>)
    requires forall k :: 0 <= k < |authors| ==> authors[k] != []
    ensures (forall k :: 0 <= k < |authors| ==> Join(authors[..k + 1]) == authors[k]) <==> |authors| <= 1
  {
    if |authors| == 1 {
      assert authors[..1] == [authors[0]] + [];
      JoinCons(authors[0], []);
    } else if |authors| > 1 {
      assert authors[..2] == [authors[0]] + [authors[1]];
      assert [authors[1]] == [authors[1]] + [];
      JoinCons(authors[1], []);
      JoinCons(authors[0], [authors[1]]);
      assert |Join(authors[..1 + 1])| == |authors[0]| + |authors[1]|;
    }
  }

  /** The k-th replayed message names the author of the k-th waiting post. */
  ghost predicate NamedRight(s: Social, t: Social, u: UserId, k: nat)
    requires u < |s.users| && k < |s.users[u].waiting|
  {
    var e := s.users[u].waiting[k];
    |s.log| + 1 + k < |t.log| && t.log[|s.log| + 1 + k].msg == Notification(true, AuthorOf(e), TextAfter(e))
  }

  lemma NamesRightIff(s: Social, t: Social, u: UserId)
    requires u < |s.users| && forall k :: 0 <= k < |s.users[u].waiting| ==> ReplayedAs(s, t, u, k)
    requires forall k :: 0 <= k < |s.users[u].waiting| ==> AuthorsOf(s.users[u].waiting)[k] != []
    ensures (forall k :: 0 <= k < |s.users[u].waiting| ==> NamedRight(s, t, u, k)) <==> |s.users[u].waiting| <= 1
  {
    var w := s.users[u].waiting;
    JoinsRightIff(AuthorsOf(w));
    forall k | 0 <= k < |w| ensures NamedRight(s, t, u, k) <==> Join(AuthorsOf(w)[..k + 1]) == AuthorsOf(w)[k] {
      assert ReplayedAs(s, t, u, k);
    }
  }

  /** A successful LOGIN shows every waiting post under the name of its own author if and only if at most one
      post is waiting. */
  lemma LoginNamesRightIff(s: Social, uks: seq<string>, conn: int, name: string, password: string, captcha: string,
                           u: UserId)
    requires Authored(s) && MapsOk(s) && Enumerates(uks, s.usersMap) && Matching(s, uks, name) == Some(u)
    requires s.users[u].password == password && captcha == "1" && !s.users[u].active
    ensures var t := DoLogin(s, uks, conn, name, password, captcha);
            (forall k :: 0 <= k < |s.users[u].waiting| ==> NamedRight(s, t, u, k)) <==> |s.users[u].waiting| <= 1
  {
    var t := ReplayAll(Admitted(s, u, name, conn), u, s.users[u].waiting, "", 0);
    LoginIsReplay(s, uks, conn, name, password, captcha, u);
    WaitingSplits(s, u);
    forall k | 0 <= k < |s.users[u].waiting| ensures ReplayedAs(s, t, u, k) { LoginReplays(s, name, conn, u, k); }
    NamesRightIff(s, t, u);
  }

  /** So it is after any run that registers only words, and each of those authors is a registered user. */
  lemma ReplayedAuthorsRightIff(es: seq<Event>, uks: seq<string>, conn: int, name: string, password: string,
                                captcha: string, u: UserId)
    requires CanRun(EMPTY, es) && forall i :: 0 <= i < |es| ==> WordsOnly(es[i])
    requires var s := RunAll(EMPTY, es);
             && MapsOk(s) && Enumerates(uks, s.usersMap) && Matching(s, uks, name) == Some(u)
             && s.users[u].password == password && captcha == "1" && !s.users[u].active
    ensures var s := RunAll(EMPTY, es);
            var w, t := s.users[u].waiting, DoLogin(s, uks, conn, name, password, captcha);
            && ((forall k :: 0 <= k < |w| ==> NamedRight(s, t, u, k)) <==> |w| <= 1)
            && forall k :: 0 <= k < |w| ==> exists a :: 0 <= a < |s.users| && s.users[a].name == AuthorOf(w[k])
  {
    var s := RunAll(EMPTY, es);
    RunAuthored(EMPTY, es);
    LoginNamesRightIff(s, uks, conn, name, password, captcha, u);
    forall k | 0 <= k < |s.users[u].waiting|
      ensures exists a :: 0 <= a < |s.users| && s.users[a].name == AuthorOf(s.users[u].waiting[k])
    {
      EntryIs(s, u, k);
    }
  }
}
