/** What one call of `BidiMessagingProtocolImpl.process` does to the users, the maps, the counter and
    the outgoing messages.  One call is one atomic step.

    Users are numbered in registration order; a number stands for the identity of a `User` object.
    The hash maps are scanned in an arbitrary order, which is a parameter: `uks` lists the keys of the
    users map and `aks` those of the active users map. */
module Social {
  import opened Options
  import opened Text
  import opened ServerMessages
  import opened Requests
  import StatCodec

  type UserId = nat

  /** `follows` is the field `followers` of the source: it holds the users this user follows.
      `cuts` is history: how many of this user's follow edges BLOCK commands have removed. */
  datatype User = User(
    name: string,
    password: string,
    birthday: string,
    active: bool,
    connId: int,
    follows: seq<UserId>,
    waiting: seq<string>,
    following: int,
    blocks: seq<UserId>,
    cuts: nat)

  /** Why a message was sent. */
  datatype Origin = Answer | Live(author: UserId, to: UserId, isPublic: bool) | Replay(to: UserId)

  datatype Sent = Sent(conn: int, msg: ServerMessage, origin: Origin)

  /** `posts` is `howMuchPostIPost`.  `log` is every call of `connections.send`, `lost` counts the PM
      commands that threw after the counter was incremented; both are history. */
  datatype Social = Social(
    users: seq<User>,
    usersMap: map<string, UserId>,
    activeMap: map<string, UserId>,
    posts: int,
    log: seq<Sent>,
    lost: nat)

  datatype Result = Result(state: Social, threw: bool)

  /** The key order in which a map is scanned. */
  predicate Enumerates(ks: seq<string>, m: map<string, UserId>) {
    NoDuplicates(ks) && (forall k :: k in ks ==> k in m) && (forall k :: k in m ==> k in ks)
  }

  /** The maps hold users that exist. */
  predicate MapsOk(s: Social) {
    && (forall k :: k in s.usersMap ==> s.usersMap[k] < |s.users|)
    && (forall k :: k in s.activeMap ==> s.activeMap[k] < |s.users|)
  }

  predicate Scannable(s: Social, uks: seq<string>, aks: seq<string>) {
    MapsOk(s) && Enumerates(uks, s.usersMap) && Enumerates(aks, s.activeMap)
  }

  function SetUser(s: Social, u: UserId, user: User): Social
    requires u < |s.users|
  {
    s.(users := s.users[u := user])
  }

  function Send(s: Social, conn: int, msg: ServerMessage, origin: Origin): Social {
    s.(log := s.log + [Sent(conn, msg, origin)])
  }

  function Reply(s: Social, conn: int, msg: ServerMessage): Social {
    Send(s, conn, msg, Answer)
  }

  // ---------------------------------------------------------------- the scans

  /** What a scan compares: the connection of the user, or one of the two ways of matching names by
      substring. */
  datatype Test = OnConnection(conn: int) | NameIn(message: string) | NameHas(part: string)

  predicate Passes(u: User, p: Test) {
    match p
    case OnConnection(conn) => u.connId == conn
    case NameIn(message) => Contains(message, u.name)
    case NameHas(part) => Contains(u.name, part)
  }

  /** The first user, in scan order, that passes the test. */
  function FirstWhere(users: seq<User>, m: map<string, UserId>, ks: seq<string>, p: Test): (r: Option<UserId>)
    requires forall k :: k in ks ==> k in m && m[k] < |users|
    ensures r.Some? ==> r.value < |users| && Passes(users[r.value], p) && exists k :: k in ks && m[k] == r.value
    ensures r.None? ==> forall k :: k in ks ==> !Passes(users[m[k]], p)
  {
    if ks == [] then None
    else if Passes(users[m[ks[0]]], p) then Some(m[ks[0]])
    else FirstWhere(users, m, ks[1..], p)
  }

  /** The active entry of this connection, logged out or not. */
  function Owner(s: Social, aks: seq<string>, conn: int): Option<UserId>
    requires MapsOk(s) && Enumerates(aks, s.activeMap)
  {
    FirstWhere(s.users, s.activeMap, aks, OnConnection(conn))
  }

  /** The first user whose name occurs in the message. */
  function Named(s: Social, uks: seq<string>, message: string): Option<UserId>
    requires MapsOk(s) && Enumerates(uks, s.usersMap)
  {
    FirstWhere(s.users, s.usersMap, uks, NameIn(message))
  }

  /** The first user whose own name contains `part`. */
  function Matching(s: Social, uks: seq<string>, part: string): Option<UserId>
    requires MapsOk(s) && Enumerates(uks, s.usersMap)
  {
    FirstWhere(s.users, s.usersMap, uks, NameHas(part))
  }

  /** A scan that stops at a match but keeps the last user it saw when there is none. */
  function OrLast(found: Option<UserId>, m: map<string, UserId>, ks: seq<string>): Option<UserId>
    requires forall k :: k in ks ==> k in m
  {
    if found.Some? || ks == [] then found else Some(m[ks[|ks| - 1]])
  }

  // ---------------------------------------------------------------- the commands

  function DoRegister(s: Social, uks: seq<string>, conn: int, name: string, password: string, birthday: string): Social
    requires MapsOk(s) && Enumerates(uks, s.usersMap)
  {
    if Matching(s, uks, name).Some? then Reply(s, conn, Error("01"))
    else
      var user := User(name, password, birthday, false, -1, [], [], 0, [], 0);
      Reply(s.(users := s.users + [user], usersMap := s.usersMap[name := |s.users|]), conn, Ack("01"))
  }

  /** The author's name goes behind those of the entries before. */
  function ReplayName(e: string, senderName: string): string { senderName + e[..IndexOf(e, ' ')] }

  function ReplayCut(e: string, limit: nat): nat { if IndexOf(e, ' ') < |e| then IndexOf(e, ' ') + 1 else limit }

  function ReplayText(e: string, limit: nat): string {
    if ReplayCut(e, limit) <= |e| then e[ReplayCut(e, limit)..] else []
  }

  /** One waiting post is sent. */
  function Replayed(s: Social, u: UserId, e: string, senderName: string, limit: nat): Social
    requires u < |s.users|
  {
    Send(s, s.users[u].connId, Notification(true, ReplayName(e, senderName), ReplayText(e, limit)), Replay(u))
  }

  /** The login replay.  Neither the sender name nor the cut position is reset between entries. */
  function ReplayAll(s: Social, u: UserId, entries: seq<string>, senderName: string, limit: nat): Social
    requires u < |s.users|
    decreases |entries|
  {
    if entries == [] then s
    else
      var e := entries[0];
      ReplayAll(Replayed(s, u, e, senderName, limit), u, entries[1..], ReplayName(e, senderName), ReplayCut(e, limit))
  }

  function DoLogin(s: Social, uks: seq<string>, conn: int, name: string, password: string, captcha: string): Social
    requires MapsOk(s) && Enumerates(uks, s.usersMap)
  {
    var found := Matching(s, uks, name);
    if found.Some? && s.users[found.value].password == password && captcha == "1" && !s.users[found.value].active then
      var u := found.value;
      var s1 := SetUser(s, u, s.users[u].(active := true, connId := conn)).(activeMap := s.activeMap[name := u]);
      ReplayAll(Reply(s1, conn, Ack("02")), u, s.users[u].waiting, "", 0)
    else Reply(s, conn, Error("02"))
  }

  /** The entry stays in the active map: remove is called with a user where the keys are names. */
  function DoLogout(s: Social, aks: seq<string>, conn: int): Social
    requires MapsOk(s) && Enumerates(aks, s.activeMap)
  {
    match Owner(s, aks, conn)
    case Some(u) => Reply(SetUser(s, u, s.users[u].(active := false)), conn, Ack("03"))
    case None => Reply(s, conn, Error("03"))
  }

  function AddEdge(s: Social, m: UserId, o: UserId): Social
    requires m < |s.users|
  {
    var me := s.users[m];
    SetUser(s, m, me.(follows := me.follows + [o], following := Short(me.following + 1)))
  }

  function DropEdge(s: Social, m: UserId, o: UserId): Social
    requires m < |s.users|
  {
    var me := s.users[m];
    SetUser(s, m, me.(follows := RemoveFirst(me.follows, o), following := Short(me.following - 1)))
  }

  /** The owner `m` of the connection follows or unfollows `o`. */
  function ChangeEdge(s: Social, m: UserId, o: UserId, conn: int, action: char, rest: string): Social
    requires m < |s.users| && o < |s.users|
  {
    if action == '0' && o !in s.users[m].follows && m !in s.users[o].blocks then
      Reply(AddEdge(s, m, o), conn, FollowAck(true, rest))
    else if action == '1' && o in s.users[m].follows then
      Reply(DropEdge(s, m, o), conn, FollowAck(false, rest))
    else Reply(s, conn, Error("04"))
  }

  /** Without an owner that is logged in there is no reply at all. */
  function DoFollow(s: Social, uks: seq<string>, aks: seq<string>, conn: int, action: char, rest: string): Social
    requires Scannable(s, uks, aks)
  {
    match Named(s, uks, rest)
    case None => Reply(s, conn, Error("04"))
    case Some(o) =>
      match Owner(s, aks, conn)
      case None => s
      case Some(m) => if s.users[m].active then ChangeEdge(s, m, o, conn, action, rest) else s
  }

  /** The end of the tag that starts at `j`: the next space, or the last position of the text. */
  function TagEnd(text: string, j: nat): (e: nat)
    requires j < |text|
    ensures j <= e < |text| && (text[e] == ' ' || e == |text| - 1)
    ensures forall i :: j <= i < e ==> text[i] != ' '
    decreases |text| - j
  {
    if text[j] == ' ' || j == |text| - 1 then j else TagEnd(text, j + 1)
  }

  /** The tags the scan collects from position `i` on.  A tag that runs to the end of the text loses its
      last character. */
  function Tags(text: string, i: nat): seq<string>
    decreases |text| - i
  {
    if i >= |text| then []
    else if text[i] == '@' && i + 1 < |text| then
      var e := TagEnd(text, i + 1);
      [text[i + 1..e]] + Tags(text, e + 1)
    else Tags(text, i + 1)
  }

  /** All users, in scan order, whose name contains the tag. */
  function UsersWith(s: Social, uks: seq<string>, tag: string): seq<UserId>
    requires MapsOk(s) && forall k :: k in uks ==> k in s.usersMap
  {
    if uks == [] then []
    else
      var u := s.usersMap[uks[|uks| - 1]];
      UsersWith(s, uks[..|uks| - 1], tag) + if Contains(s.users[u].name, tag) then [u] else []
  }

  function Tagged(s: Social, uks: seq<string>, tags: seq<string>): seq<UserId>
    requires MapsOk(s) && forall k :: k in uks ==> k in s.usersMap
  {
    if tags == [] then [] else Tagged(s, uks, tags[..|tags| - 1]) + UsersWith(s, uks, tags[|tags| - 1])
  }

  predicate Follows(s: Social, u: UserId, author: UserId) {
    u < |s.users| && author in s.users[u].follows
  }

  /** The tagged users that do not follow the author: those who do are removed from the queue. */
  function NotFollowing(s: Social, author: UserId, us: seq<UserId>): seq<UserId> {
    if us == [] then []
    else NotFollowing(s, author, us[..|us| - 1]) + if Follows(s, us[|us| - 1], author) then [] else [us[|us| - 1]]
  }

  /** The users that follow the author, in scan order. */
  function Followers(s: Social, uks: seq<string>, author: UserId): seq<UserId>
    requires forall k :: k in uks ==> k in s.usersMap
  {
    if uks == [] then []
    else
      var u := s.usersMap[uks[|uks| - 1]];
      Followers(s, uks[..|uks| - 1], author) + if Follows(s, u, author) then [u] else []
  }

  /** A public post reaches one user: at once, or at the next login. */
  function Deliver(s: Social, author: UserId, text: string, u: UserId): Social
    requires author < |s.users| && u < |s.users|
  {
    var name := s.users[author].name;
    var s1 := if !s.users[u].active then SetUser(s, u, s.users[u].(waiting := s.users[u].waiting + [name + " " + text]))
              else Send(s, s.users[u].connId, Notification(true, name, text), Live(author, u, true));
    s1.(posts := Int32(s1.posts + 1))
  }

  predicate AreUsers(s: Social, us: seq<UserId>) {
    forall i :: 0 <= i < |us| ==> us[i] < |s.users|
  }

  function DeliverAll(s: Social, author: UserId, text: string, us: seq<UserId>): (s': Social)
    requires author < |s.users| && AreUsers(s, us)
    ensures |s'.users| == |s.users|
  {
    if us == [] then s
    else
      var s1 := DeliverAll(s, author, text, us[..|us| - 1]);
      Deliver(s1, author, text, us[|us| - 1])
  }

  /** Who gets a post, in order. */
  function Recipients(s: Social, uks: seq<string>, author: UserId, text: string): (us: seq<UserId>)
    requires MapsOk(s) && forall k :: k in uks ==> k in s.usersMap
  {
    Followers(s, uks, author) + NotFollowing(s, author, Tagged(s, uks, Tags(text, 0)))
  }

  lemma {:induction false} UsersWithMatch(s: Social, uks: seq<string>, tag: string)
    requires MapsOk(s) && forall k :: k in uks ==> k in s.usersMap
    ensures AreUsers(s, UsersWith(s, uks, tag))
    ensures forall i :: 0 <= i < |UsersWith(s, uks, tag)| ==> Contains(s.users[UsersWith(s, uks, tag)[i]].name, tag)
  {
    if uks != [] { UsersWithMatch(s, uks[..|uks| - 1], tag); }
  }

  lemma {:induction false} TaggedAreUsers(s: Social, uks: seq<string>, tags: seq<string>)
    requires MapsOk(s) && forall k :: k in uks ==> k in s.usersMap
    ensures AreUsers(s, Tagged(s, uks, tags))
  {
    if tags != [] {
      TaggedAreUsers(s, uks, tags[..|tags| - 1]);
      UsersWithMatch(s, uks, tags[|tags| - 1]);
    }
  }

  lemma {:induction false} NotFollowingOnly(s: Social, author: UserId, us: seq<UserId>)
    ensures forall i :: 0 <= i < |NotFollowing(s, author, us)| ==> !Follows(s, NotFollowing(s, author, us)[i], author)
    ensures AreUsers(s, us) ==> AreUsers(s, NotFollowing(s, author, us))
  {
    if us != [] { NotFollowingOnly(s, author, us[..|us| - 1]); }
  }

  lemma {:induction false} FollowersFollow(s: Social, uks: seq<string>, author: UserId)
    requires forall k :: k in uks ==> k in s.usersMap
    ensures forall i :: 0 <= i < |Followers(s, uks, author)| ==> Follows(s, Followers(s, uks, author)[i], author)
  {
    if uks != [] { FollowersFollow(s, uks[..|uks| - 1], author); }
  }

  lemma RecipientsAreUsers(s: Social, uks: seq<string>, author: UserId, text: string)
    requires MapsOk(s) && forall k :: k in uks ==> k in s.usersMap
    ensures AreUsers(s, Recipients(s, uks, author, text))
  {
    TaggedAreUsers(s, uks, Tags(text, 0));
    NotFollowingOnly(s, author, Tagged(s, uks, Tags(text, 0)));
    FollowersFollow(s, uks, author);
  }

  /** The post reaches its recipients one after the other. */
  function Published(s: Social, uks: seq<string>, author: UserId, text: string): Social
    requires MapsOk(s) && author < |s.users| && forall k :: k in uks ==> k in s.usersMap
  {
    RecipientsAreUsers(s, uks, author, text);
    DeliverAll(s, author, text, Recipients(s, uks, author, text))
  }

  function PostBy(s: Social, uks: seq<string>, owner: Option<UserId>, conn: int, text: string): Social
    requires MapsOk(s) && IsUser(s, owner) && forall k :: k in uks ==> k in s.usersMap
  {
    match owner
    case None => Reply(s, conn, Error("05"))
    case Some(author) => Reply(Published(s, uks, author, text), conn, Ack("05"))
  }

  /** The owner is looked up by connection only: a user who has logged out may still post. */
  function DoPost(s: Social, uks: seq<string>, aks: seq<string>, conn: int, text: string): Social
    requires Scannable(s, uks, aks)
  {
    PostBy(s, uks, Owner(s, aks, conn), conn, text)
  }

  /** `m` sends a private message to `o`.  The list of filtered words is empty when the reactor runs, so
      the text is not rewritten; the name and the space after it are cut off. */
  function SendPm(s: Social, m: UserId, o: UserId, conn: int, text: string): Result
    requires m < |s.users| && o < |s.users|
  {
    var s1 := s.(posts := Int32(s.posts + 1));
    var skip := |s.users[o].name| + 1;
    if |text| < skip then Result(s1.(lost := s1.lost + 1), true)
    else
      var s2 := Send(s1, s.users[o].connId, Notification(false, s.users[m].name, text[skip..]), Live(m, o, false));
      Result(Reply(s2, conn, Ack("06")), false)
  }

  predicate IsUser(s: Social, u: Option<UserId>) { u.Some? ==> u.value < |s.users| }

  function PmBetween(s: Social, sender: Option<UserId>, other: Option<UserId>, conn: int, text: string): Result
    requires IsUser(s, sender) && IsUser(s, other)
  {
    if sender.None? || other.None? || other.value !in s.users[sender.value].follows
       || sender.value in s.users[other.value].blocks then
      Result(Reply(s, conn, Error("06")), false)
    else SendPm(s, sender.value, other.value, conn, text)
  }

  /** Both scans keep the last user they saw when nothing matches. */
  function DoPm(s: Social, uks: seq<string>, aks: seq<string>, conn: int, text: string): Result
    requires Scannable(s, uks, aks)
  {
    var sender, other := OrLast(Owner(s, aks, conn), s.activeMap, aks), OrLast(Named(s, uks, text), s.usersMap, uks);
    PmBetween(s, sender, other, conn, text)
  }

  /** Cuts the edge from `u` to `v`, if there is one, without touching the counter of `u`. */
  function Cut(s: Social, u: UserId, v: UserId): Social
    requires u < |s.users|
  {
    var user := s.users[u];
    if v in user.follows then SetUser(s, u, user.(follows := RemoveFirst(user.follows, v), cuts := user.cuts + 1))
        else s
  }

  /** `m` blocks `o`, and neither follows the other any more. */
  function BlockUser(s: Social, m: UserId, o: UserId): Social
    requires m < |s.users| && o < |s.users|
  {
    var s1 := SetUser(s, m, s.users[m].(blocks := s.users[m].blocks + [o]));
    Cut(Cut(s1, m, o), o, m)
  }

  function BlockBetween(s: Social, owner: Option<UserId>, other: Option<UserId>, conn: int, rest: string): Result
    requires IsUser(s, owner) && IsUser(s, other)
  {
    if owner.Some? && other.Some? && other.value !in s.users[owner.value].blocks then
      if rest == [] then Result(s, true)
      else Result(Reply(BlockUser(s, owner.value, other.value), conn, Ack("12")), false)
    else Result(Reply(s, conn, Error("12")), false)
  }

  function DoBlock(s: Social, uks: seq<string>, aks: seq<string>, conn: int, rest: string): Result
    requires Scannable(s, uks, aks)
  {
    BlockBetween(s, Owner(s, aks, conn), Named(s, uks, rest), conn, rest)
  }

  /** The age LOGSTAT computes in the year `now`; None stands for a birthday without a year. */
  function Age(birthday: string, now: int): Option<int> {
    if |birthday| < 6 then None
    else
      match ParseInt(birthday[6..])
      case None => None
      case Some(year) => Some(Int32(now - year - 1))
  }

  /** What LOGSTAT does for one active user: he has blocked the asker, his record cannot be made because the
      birthday has no year or a number is not a short, or his record is sent. */
  datatype Record = Refused | Broken | Sendable(m: ServerMessage)

  function RecordOf(s: Social, viewer: UserId, u: UserId, now: int): (r: Record)
    requires u < |s.users|
    ensures r.Sendable? ==> r.m.Stats?
  {
    var user := s.users[u];
    if viewer in user.blocks then Refused
    else
      match Age(user.birthday, now)
      case None => Broken
      case Some(age) =>
        if StatCodec.IsShort(age) && StatCodec.IsShort(|user.follows|)
           && StatCodec.IsShort(user.following) && StatCodec.IsShort(|user.waiting|) then
          Sendable(Stats(age, |user.follows|, user.following, |user.waiting|))
        else Broken
  }

  /** LOGSTAT goes through the active users and throws at the first record that cannot be made. */
  function Records(s: Social, aks: seq<string>, viewer: UserId, now: int, conn: int): Result
    requires MapsOk(s) && forall k :: k in aks ==> k in s.activeMap
    decreases |aks|
  {
    if aks == [] then Result(s, false)
    else
      match RecordOf(s, viewer, s.activeMap[aks[0]], now)
      case Refused => Records(Reply(s, conn, Error("07")), aks[1..], viewer, now, conn)
      case Broken => Result(s, true)
      case Sendable(m) => Records(Reply(s, conn, m), aks[1..], viewer, now, conn)
  }

  /** The asker is the last user scanned when the connection has no owner; nobody answers when nobody is
      active. */
  function DoLogstat(s: Social, aks: seq<string>, now: int, conn: int): Result
    requires MapsOk(s) && Enumerates(aks, s.activeMap)
  {
    match OrLast(Owner(s, aks, conn), s.activeMap, aks)
    case None => Result(s, false)
    case Some(viewer) => Records(s, aks, viewer, now, conn)
  }

  /** STAT casts the keys of the active map, which are names, to users. */
  function DoStat(s: Social, aks: seq<string>, conn: int): Result {
    if aks == [] then Result(Reply(s, conn, Error("08")), false) else Result(s, true)
  }

  /** What process does with a request it has taken apart. */
  function Perform(s: Social, uks: seq<string>, aks: seq<string>, now: int, conn: int, request: Request): Result
    requires Scannable(s, uks, aks)
  {
    match request
    case Register(name, password, birthday) => Result(DoRegister(s, uks, conn, name, password, birthday), false)
    case Login(name, password, captcha) => Result(DoLogin(s, uks, conn, name, password, captcha), false)
    case Logout => Result(DoLogout(s, aks, conn), false)
    case Follow(action, rest) => Result(DoFollow(s, uks, aks, conn, action, rest), false)
    case Post(text) => Result(DoPost(s, uks, aks, conn, text), false)
    case Pm(text) => DoPm(s, uks, aks, conn, text)
    case Logstat => DoLogstat(s, aks, now, conn)
    case Stat => DoStat(s, aks, conn)
    case Block(rest) => DoBlock(s, uks, aks, conn, rest)
    case Ignored => Result(s, false)
  }

  /** One call of process by the connection `conn` in the year `now`. */
  function Process(s: Social, uks: seq<string>, aks: seq<string>, now: int, conn: int, message: string): Result
    requires Scannable(s, uks, aks)
  {
    match Parse(message)
    case None => Result(s, true)
    case Some(request) => Perform(s, uks, aks, now, conn, request)
  }
}
