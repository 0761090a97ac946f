/** The class `BidiMessagingProtocolImpl`: the loops of `process` over the shared objects, proved to do
    what `Social` says.  The order in which a map yields its values is a parameter. */
module BidiProtocol {
  import opened Options
  import opened Text
  import opened ServerMessages
  import opened Requests
  import opened UserObjects
  import opened Connections
  import S = Social
  import SI = SocialInvariant
  import StatCodec

  /** The users before position `i` do not pass the test. */
  ghost predicate NoneBefore(users: seq<S.User>, m: map<string, S.UserId>, ks: seq<string>, i: nat, p: S.Test)
    requires forall k :: k in ks ==> k in m && m[k] < |users|
    requires i <= |ks|
  {
    forall j :: 0 <= j < i ==> !S.Passes(users[m[ks[j]]], p)
  }

  lemma {:induction false} FoundAt(users: seq<S.User>, m: map<string, S.UserId>, ks: seq<string>, i: nat, p: S.Test)
    requires forall k :: k in ks ==> k in m && m[k] < |users|
    requires i < |ks| && NoneBefore(users, m, ks, i, p) && S.Passes(users[m[ks[i]]], p)
    ensures S.FirstWhere(users, m, ks, p) == Some(m[ks[i]])
  {
    if i > 0 {
      assert ks[0] in ks && !S.Passes(users[m[ks[0]]], p);
      forall j | 0 <= j < i - 1 ensures !S.Passes(users[m[ks[1..][j]]], p) { assert ks[1..][j] == ks[j + 1]; }
      FoundAt(users, m, ks[1..], i - 1, p);
    }
  }

  lemma {:induction false} NotFound(users: seq<S.User>, m: map<string, S.UserId>, ks: seq<string>, p: S.Test)
    requires forall k :: k in ks ==> k in m && m[k] < |users|
    requires NoneBefore(users, m, ks, |ks|, p)
    ensures S.FirstWhere(users, m, ks, p) == None
  {
    if ks != [] {
      forall j | 0 <= j < |ks| - 1 ensures !S.Passes(users[m[ks[1..][j]]], p) { assert ks[1..][j] == ks[j + 1]; }
      NotFound(users, m, ks[1..], p);
    }
  }

  lemma NotFollowingSnoc(s: S.Social, author: S.UserId, ids: seq<S.UserId>, i: nat)
    requires i < |ids|
    ensures S.NotFollowing(s, author, ids[..i + 1]) ==
            S.NotFollowing(s, author, ids[..i]) + if S.Follows(s, ids[i], author) then [] else [ids[i]]
  {
    assert ids[..i + 1][..i] == ids[..i];
  }

  lemma FollowersSnoc(s: S.Social, uks: seq<string>, i: nat, author: S.UserId)
    requires i < |uks| && forall k :: k in uks ==> k in s.usersMap
    ensures var u := s.usersMap[uks[i]];
            S.Followers(s, uks[..i + 1], author) ==
            S.Followers(s, uks[..i], author) + if S.Follows(s, u, author) then [u] else []
  {
    assert uks[..i + 1][..i] == uks[..i];
  }

  /** Deliveries leave the maps and the follow lists alone. */
  lemma {:induction false} DeliverAllKeeps(s: S.Social, author: S.UserId, text: string, us: seq<S.UserId>)
    requires author < |s.users| && S.AreUsers(s, us)
    ensures var t := S.DeliverAll(s, author, text, us);
            && t.usersMap == s.usersMap && t.activeMap == s.activeMap
            && forall u: S.UserId :: S.Follows(t, u, author) <==> S.Follows(s, u, author)
  {
    if us != [] {
      DeliverAllKeeps(s, author, text, us[..|us| - 1]);
      var t := S.DeliverAll(s, author, text, us[..|us| - 1]);
      var t' := S.Deliver(t, author, text, us[|us| - 1]);
      forall u: S.UserId ensures S.Follows(t', u, author) <==> S.Follows(t, u, author) { }
    }
  }

  lemma DeliverSnoc(s: S.Social, author: S.UserId, text: string, us: seq<S.UserId>, u: S.UserId)
    requires author < |s.users| && S.AreUsers(s, us) && u < |s.users|
    ensures S.AreUsers(s, us + [u])
    ensures S.DeliverAll(s, author, text, us + [u]) == S.Deliver(S.DeliverAll(s, author, text, us), author, text, u)
  {
    assert (us + [u])[..|us|] == us;
  }

  /** One more user of the scan has been served. */
  lemma ServeStep(s: S.Social, t: S.Social, t': S.Social, uks: seq<string>, i: nat, author: S.UserId, text: string)
    requires i < |uks| && (forall k :: k in uks ==> k in s.usersMap) && S.MapsOk(s) && author < |s.users|
    requires S.AreUsers(s, S.Followers(s, uks[..i], author))
    requires t == S.DeliverAll(s, author, text, S.Followers(s, uks[..i], author))
    requires var u := s.usersMap[uks[i]]; t' == if S.Follows(t, u, author) then S.Deliver(t, author, text, u) else t
    ensures S.AreUsers(s, S.Followers(s, uks[..i + 1], author))
    ensures t' == S.DeliverAll(s, author, text, S.Followers(s, uks[..i + 1], author))
  {
    var us, u := S.Followers(s, uks[..i], author), s.usersMap[uks[i]];
    DeliverAllKeeps(s, author, text, us);
    FollowersSnoc(s, uks, i, author);
    if S.Follows(s, u, author) { DeliverSnoc(s, author, text, us, u); } else { assert us + [] == us; }
  }

  /** Delivering to two lists, one after the other. */
  lemma {:induction false} DeliverBoth(s: S.Social, author: S.UserId, text: string, us: seq<S.UserId>,
                                       vs: seq<S.UserId>)
    requires author < |s.users| && S.AreUsers(s, us) && S.AreUsers(s, vs)
    ensures S.AreUsers(s, us + vs)
    ensures S.DeliverAll(s, author, text, us + vs) == S.DeliverAll(S.DeliverAll(s, author, text, us), author, text, vs)
    decreases |vs|
  {
    if vs == [] {
      assert us + vs == us;
    } else {
      DeliverBoth(s, author, text, us, vs[..|vs| - 1]);
      assert (us + vs)[..|us + vs| - 1] == us + vs[..|vs| - 1];
    }
  }

  lemma TagsStep(message: string, i: nat, tags: seq<string>)
    requires i + 1 < |message| && message[i] == '@'
    ensures var e := S.TagEnd(message, i + 1);
            tags + S.Tags(message, i) == tags + [message[i + 1..e]] + S.Tags(message, e + 1)
  {
  }

  lemma TaggedSnoc(s: S.Social, uks: seq<string>, tags: seq<string>, tag: string)
    requires S.MapsOk(s) && forall k :: k in uks ==> k in s.usersMap
    ensures S.Tagged(s, uks, tags + [tag]) == S.Tagged(s, uks, tags) + S.UsersWith(s, uks, tag)
  {
    assert (tags + [tag])[..|tags|] == tags;
  }

  lemma RecordsStep(s: S.Social, aks: seq<string>, i: nat, viewer: S.UserId, now: int, conn: int)
    requires S.MapsOk(s) && i < |aks| && forall k :: k in aks ==> k in s.activeMap
    ensures S.Records(s, aks[i..], viewer, now, conn) ==
            match S.RecordOf(s, viewer, s.activeMap[aks[i]], now)
            case Refused => S.Records(S.Reply(s, conn, Error("07")), aks[i + 1..], viewer, now, conn)
            case Broken => S.Result(s, true)
            case Sendable(m) => S.Records(S.Reply(s, conn, m), aks[i + 1..], viewer, now, conn)
  {
    assert aks[i..][1..] == aks[i + 1..];
  }

  lemma ReplayStep(s: S.Social, u: S.UserId, entries: seq<string>, i: nat, senderName: string, limit: nat)
    requires u < |s.users| && i < |entries|
    ensures S.ReplayAll(s, u, entries[i..], senderName, limit) ==
            S.ReplayAll(S.Replayed(s, u, entries[i], senderName, limit), u, entries[i + 1..],
                        S.ReplayName(entries[i], senderName), S.ReplayCut(entries[i], limit))
  {
    assert entries[i..][1..] == entries[i + 1..];
  }

  class BidiMessagingProtocolImpl {
    const connections: ConnectionsImpl
    var connectionId: int

    constructor (connections: ConnectionsImpl)
      ensures this.connections == connections && connectionId == -1
    {
      this.connections := connections;
      connectionId := -1;
    }

    method Start(connectionId: int)
      modifies this`connectionId
      ensures this.connectionId == connectionId
    {
      this.connectionId := connectionId;
    }

    /** The object behind a user number. */
    ghost predicate IsUser(u: User?, found: Option<S.UserId>)
      reads connections`all
    {
      match found
      case None => u == null
      case Some(id) => u != null && u.id == id && connections.Known(u)
    }

    // -------------------------------------------------------------- the scans

    /** The owner of this connection; the last user scanned when there is none. */
    method FindOwner(aks: seq<string>) returns (found: bool, myUser: User?)
      requires connections.Valid() && S.MapsOk(connections.model) && S.Enumerates(aks, connections.model.activeMap)
      ensures var owner := S.Owner(connections.model, aks, connectionId);
              found == owner.Some? && IsUser(myUser, S.OrLast(owner, connections.model.activeMap, aks))
    {
      ghost var s := connections.model;
      ghost var p := S.OnConnection(connectionId);
      myUser := null;
      for i := 0 to |aks|
        invariant NoneBefore(s.users, s.activeMap, aks, i, p)
        invariant IsUser(myUser, if i == 0 then None else Some(s.activeMap[aks[i - 1]]))
      {
        connections.InActive(aks[i]);
        myUser := connections.activeUsersMap[aks[i]];
        if myUser.connId == connectionId {
          FoundAt(s.users, s.activeMap, aks, i, p);
          return true, myUser;
        }
      }
      NotFound(s.users, s.activeMap, aks, p);
      return false, myUser;
    }

    /** The first user whose name occurs in the message; the last user scanned when there is none. */
    method FindNamed(uks: seq<string>, message: string) returns (found: bool, otherUser: User?)
      requires connections.Valid() && S.MapsOk(connections.model) && S.Enumerates(uks, connections.model.usersMap)
      ensures var named := S.Named(connections.model, uks, message);
              found == named.Some? && IsUser(otherUser, S.OrLast(named, connections.model.usersMap, uks))
    {
      ghost var s := connections.model;
      ghost var p := S.NameIn(message);
      otherUser := null;
      for i := 0 to |uks|
        invariant NoneBefore(s.users, s.usersMap, uks, i, p)
        invariant IsUser(otherUser, if i == 0 then None else Some(s.usersMap[uks[i - 1]]))
      {
        connections.InUsers(uks[i]);
        otherUser := connections.usersMap[uks[i]];
        if Contains(message, otherUser.username) {
          FoundAt(s.users, s.usersMap, uks, i, p);
          return true, otherUser;
        }
      }
      NotFound(s.users, s.usersMap, uks, p);
      return false, otherUser;
    }

    /** The owner of this connection, or null. */
    method MyUser(aks: seq<string>) returns (myUser: User?)
      requires connections.Valid() && S.MapsOk(connections.model) && S.Enumerates(aks, connections.model.activeMap)
      ensures IsUser(myUser, S.Owner(connections.model, aks, connectionId))
    {
      var found, user := FindOwner(aks);
      myUser := if found then user else null;
    }

    /** The first user whose name occurs in the message, or null. */
    method NamedUser(uks: seq<string>, message: string) returns (otherUser: User?)
      requires connections.Valid() && S.MapsOk(connections.model) && S.Enumerates(uks, connections.model.usersMap)
      ensures IsUser(otherUser, S.Named(connections.model, uks, message))
    {
      var found, user := FindNamed(uks, message);
      otherUser := if found then user else null;
    }

    /** The first user whose own name contains the given one. */
    method FindMatching(uks: seq<string>, username: string) returns (user: User?)
      requires connections.Valid() && S.MapsOk(connections.model) && S.Enumerates(uks, connections.model.usersMap)
      ensures IsUser(user, S.Matching(connections.model, uks, username))
    {
      ghost var s := connections.model;
      ghost var p := S.NameHas(username);
      for i := 0 to |uks|
        invariant NoneBefore(s.users, s.usersMap, uks, i, p)
      {
        connections.InUsers(uks[i]);
        user := connections.usersMap[uks[i]];
        if Contains(user.username, username) {
          FoundAt(s.users, s.usersMap, uks, i, p);
          return user;
        }
      }
      NotFound(s.users, s.usersMap, uks, p);
      return null;
    }

    /** Sends an answer on this connection. */
    method Reply(msg: string, ghost m: ServerMessage)
      requires connections.Valid() && msg == TextOf(m)
      modifies connections`connectionsMap, connections`model
      ensures connections.Valid() && connections.model == S.Reply(old(connections.model), connectionId, m)
    {
      var sent := connections.Send(connectionId, msg, m, S.Answer);
    }

    // -------------------------------------------------------------- REGISTER, LOGIN, LOGOUT

    /** The scan of REGISTER goes on after a match. */
    method IsTaken(uks: seq<string>, username: string) returns (found: bool)
      requires connections.Valid() && S.MapsOk(connections.model) && S.Enumerates(uks, connections.model.usersMap)
      ensures found == S.Matching(connections.model, uks, username).Some?
    {
      ghost var s := connections.model;
      ghost var p := S.NameHas(username);
      found := false;
      for i := 0 to |uks|
        invariant found == !NoneBefore(s.users, s.usersMap, uks, i, p)
      {
        connections.InUsers(uks[i]);
        if Contains(connections.usersMap[uks[i]].username, username) {
          found := true;
        }
      }
      if !found { NotFound(s.users, s.usersMap, uks, p); }
    }

    method Register(uks: seq<string>, username: string, password: string, birthday: string)
      requires connections.Valid() && S.MapsOk(connections.model) && S.Enumerates(uks, connections.model.usersMap)
      modifies connections
      ensures connections.Valid()
      ensures connections.model == S.DoRegister(old(connections.model), uks, connectionId, username, password, birthday)
    {
      var user := new User(|connections.all|, username, password, birthday);
      var found := IsTaken(uks, username);
      if !found {
        connections.PutUser(user);
        Reply("1001", Ack("01"));
      } else {
        Reply("1101", Error("01"));
      }
    }

    /** The loop that takes the author's name off a waiting post, adding it to what is there already. */
    static method TakeSender(entry: string, senderName: string) returns (name: string, limit: nat)
      requires ' ' in entry
      ensures var i := IndexOf(entry, ' '); i < |entry| && name == senderName + entry[..i] && limit == i + 1
    {
      name, limit := senderName, 0;
      assert entry[0..] == entry;
      for i := 0 to |entry|
        invariant name == senderName + entry[..i]
        invariant i + IndexOf(entry[i..], ' ') == IndexOf(entry, ' ')
      {
        assert entry[i..][1..] == entry[i + 1..];
        if entry[i] != ' ' {
          name := name + [entry[i]];
        } else {
          limit := i + 1;
          return;
        }
      }
      assert false;
    }

    /** One replayed post. */
    method SendReplay(user: User, senderName: string, content: string)
      requires connections.Valid()
      modifies connections`connectionsMap, connections`model
      ensures connections.Valid()
      ensures connections.model ==
              S.Send(old(connections.model), user.connId, Notification(true, senderName, content), S.Replay(user.id))
    {
      var msg := "091" + senderName + [NUL] + content + [NUL];
      var sent := connections.Send(user.connId, msg, Notification(true, senderName, content), S.Replay(user.id));
    }

    /** One waiting post: its author goes behind the names before, its text is what follows the space. */
    method ReplayOne(user: User, entry: string, senderName: string, limit: nat) returns (name: string, cut: nat)
      requires connections.Valid() && connections.Known(user) && ' ' in entry
      modifies connections`connectionsMap, connections`model
      ensures connections.Valid() && user.id < |old(connections.model).users|
      ensures connections.model == S.Replayed(old(connections.model), user.id, entry, senderName, limit)
      ensures name == S.ReplayName(entry, senderName) && cut == S.ReplayCut(entry, limit)
    {
      connections.AtUser(user);
      name, cut := TakeSender(entry, senderName);
      SendReplay(user, name, entry[cut..]);
    }

    /** Sends the waiting posts of a user who has just logged in. */
    method Replay(user: User)
      requires connections.Valid() && connections.Known(user) && forall e :: e in user.awaitingPosts ==> ' ' in e
      modifies connections`connectionsMap, connections`model
      ensures connections.Valid()
      ensures user.id < |old(connections.model).users|
      ensures connections.model == S.ReplayAll(old(connections.model), user.id, user.awaitingPosts, "", 0)
    {
      connections.AtUser(user);
      var senderName, limit := "", 0;
      var posts := user.awaitingPosts;
      ghost var start := connections.model;
      assert posts[0..] == posts;
      for i := 0 to |posts|
        invariant connections.Valid() && connections.model.users == start.users
        invariant S.ReplayAll(connections.model, user.id, posts[i..], senderName, limit) ==
                  S.ReplayAll(start, user.id, posts, "", 0)
      {
        assert posts[i] in posts;
        ReplayStep(connections.model, user.id, posts, i, senderName, limit);
        senderName, limit := ReplayOne(user, posts[i], senderName, limit);
      }
    }

    /** Marks a user as logged in on this connection. */
    method Open(user: User)
      requires connections.Valid() && connections.Known(user)
      modifies connections`model, user
      ensures connections.Valid() && user.awaitingPosts == old(user.awaitingPosts)
      ensures user.id < |old(connections.model).users|
      ensures var s := old(connections.model);
              connections.model == S.SetUser(s, user.id, s.users[user.id].(active := true, connId := connectionId))
    {
      connections.AtUser(user);
      user.Activate();
      user.SetConnId(connectionId);
      connections.OnlyOneTouched(user);
      connections.Record(user);
    }

    /** The body of a successful LOGIN. */
    method Admit(username: string, user: User)
      requires connections.Valid() && connections.Known(user) && forall e :: e in user.awaitingPosts ==> ' ' in e
      modifies connections`connectionsMap, connections`activeUsersMap, connections`model, user
      ensures connections.Valid() && user.id < |old(connections.model).users|
      ensures var s, u := old(connections.model), user.id;
              var s1 := S.SetUser(s, u, s.users[u].(active := true, connId := connectionId))
                        .(activeMap := s.activeMap[username := u]);
              connections.model ==
              S.ReplayAll(S.Reply(s1, connectionId, Ack("02")), u, s.users[u].waiting, "", 0)
    {
      connections.AtUser(user);
      connections.PutActive(username, user);
      Open(user);
      Reply("1002", Ack("02"));
      Replay(user);
    }

    method Login(uks: seq<string>, username: string, password: string, captcha: string)
      requires connections.Valid() && SI.Users(connections.model) && S.Enumerates(uks, connections.model.usersMap)
      modifies connections`connectionsMap, connections`activeUsersMap, connections`model, connections.all
      ensures connections.Valid()
      ensures connections.model == S.DoLogin(old(connections.model), uks, connectionId, username, password, captcha)
    {
      var user := FindMatching(uks, username);
      if user != null { connections.AtUser(user); }
      if user != null && user.password == password && captcha == "1" && !user.isActivated {
        assert SI.UserOk(connections.model, user.id);
        Admit(username, user);
      } else {
        Reply("1102", Error("02"));
      }
    }

    method Logout(aks: seq<string>)
      requires connections.Valid() && S.MapsOk(connections.model) && S.Enumerates(aks, connections.model.activeMap)
      modifies connections`connectionsMap, connections`model, connections.all
      ensures connections.Valid()
      ensures connections.model == S.DoLogout(old(connections.model), aks, connectionId)
    {
      var myUser := MyUser(aks);
      if myUser != null {
        connections.AtUser(myUser);
        myUser.DeActivate();
        connections.OnlyOneTouched(myUser);
        connections.Record(myUser);
        Reply("1003", Ack("03"));
      } else {
        Reply("1103", Error("03"));
      }
    }

    // -------------------------------------------------------------- FOLLOW

    method Follow(uks: seq<string>, aks: seq<string>, action: char, message: string)
      requires connections.Valid() && S.Scannable(connections.model, uks, aks)
      modifies connections`connectionsMap, connections`model, connections.all
      ensures connections.Valid()
      ensures connections.model == S.DoFollow(old(connections.model), uks, aks, connectionId, action, message)
    {
      var otherUser := NamedUser(uks, message);
      if otherUser != null {
        var myUser := MyUser(aks);
        if myUser != null {
          connections.AtUser(myUser);
          if myUser.isActivated {
            ChangeEdge(myUser, otherUser, action, message);
          }
        }
      } else {
        Reply("1104", Error("04"));
      }
    }

    method StartFollowing(myUser: User, otherUser: User)
      requires connections.Valid() && connections.Known(myUser) && connections.Known(otherUser)
      modifies connections`model, myUser
      ensures connections.Valid() && myUser.id < |old(connections.model).users|
      ensures connections.model == S.AddEdge(old(connections.model), myUser.id, otherUser.id)
    {
      connections.AtUser(myUser);
      myUser.AddFollower(otherUser);
      myUser.IncrementFollowing();
      connections.OnlyOneTouched(myUser);
      connections.Record(myUser);
    }

    method StopFollowing(myUser: User, otherUser: User)
      requires connections.Valid() && connections.Known(myUser) && connections.Known(otherUser)
      modifies connections`model, myUser
      ensures connections.Valid() && myUser.id < |old(connections.model).users|
      ensures connections.model == S.DropEdge(old(connections.model), myUser.id, otherUser.id)
    {
      connections.AtUser(myUser);
      connections.MemberById(myUser.followers, otherUser);
      myUser.RemoveFollower(otherUser);
      myUser.DecreaseFollowing();
      connections.OnlyOneTouched(myUser);
      connections.Record(myUser);
    }

    method ReplyFollow(follow: bool, message: string)
      requires connections.Valid()
      modifies connections`connectionsMap, connections`model
      ensures connections.Valid()
      ensures connections.model == S.Reply(old(connections.model), connectionId, FollowAck(follow, message))
    {
      var msg := (if follow then "100400" else "100401") + message + [NUL];
      assert msg == TextOf(FollowAck(follow, message));
      Reply(msg, FollowAck(follow, message));
    }

    method ChangeEdge(myUser: User, otherUser: User, action: char, message: string)
      requires connections.Valid() && connections.Known(myUser) && connections.Known(otherUser)
      modifies connections`connectionsMap, connections`model, myUser
      ensures connections.Valid()
      ensures myUser.id < |old(connections.model).users| && otherUser.id < |old(connections.model).users|
      ensures connections.model ==
              S.ChangeEdge(old(connections.model), myUser.id, otherUser.id, connectionId, action, message)
    {
      connections.AtUser(myUser);
      connections.AtUser(otherUser);
      connections.MemberById(myUser.followers, otherUser);
      connections.MemberById(otherUser.blockingUsers, myUser);
      if action == '0' && otherUser !in myUser.followers && myUser !in otherUser.blockingUsers {
        StartFollowing(myUser, otherUser);
        ReplyFollow(true, message);
      } else if action == '1' && otherUser in myUser.followers {
        StopFollowing(myUser, otherUser);
        ReplyFollow(false, message);
      } else {
        Reply("1104", Error("04"));
      }
    }

    // -------------------------------------------------------------- POST

    /** One tag from position `start` on, and where it ends. */
    static method TakeTag(message: string, start: nat) returns (userName: string, j: nat)
      requires start < |message|
      ensures j == S.TagEnd(message, start) && userName == message[start..j]
    {
      userName, j := "", start;
      while true
        invariant start <= j < |message| && userName == message[start..j]
        invariant S.TagEnd(message, j) == S.TagEnd(message, start)
        decreases |message| - j
      {
        if message[j] == ' ' || j == |message| - 1 { return; }
        userName := userName + [message[j]];
        j := j + 1;
      }
    }

    /** Adds every user whose name contains the tag. */
    method AddMatching(uks: seq<string>, userName: string, otherUsers: seq<User>) returns (r: seq<User>)
      requires connections.Valid() && S.MapsOk(connections.model) && connections.KnownAll(otherUsers)
      requires forall k :: k in uks ==> k in connections.model.usersMap
      ensures connections.KnownAll(r)
      ensures Ids(r) == Ids(otherUsers) + S.UsersWith(connections.model, uks, userName)
    {
      r := otherUsers;
      ghost var s := connections.model;
      for i := 0 to |uks|
        invariant connections.KnownAll(r)
        invariant Ids(r) == Ids(otherUsers) + S.UsersWith(s, uks[..i], userName)
      {
        connections.InUsers(uks[i]);
        assert uks[..i + 1][..i] == uks[..i];
        var checkUser := connections.usersMap[uks[i]];
        if Contains(checkUser.username, userName) {
          IdsAppend(r, [checkUser]);
          r := r + [checkUser];
        }
      }
      assert uks[..|uks|] == uks;
    }

    /** The tag behind the at-sign at position i, and the users it matches. */
    method CollectTag(uks: seq<string>, message: string, i: nat, users: seq<User>, ghost tags: seq<string>)
      returns (otherUsers: seq<User>, j: nat)
      requires connections.Valid() && S.MapsOk(connections.model)
      requires forall k :: k in uks ==> k in connections.model.usersMap
      requires i + 1 < |message| && connections.KnownAll(users) && Ids(users) == S.Tagged(connections.model, uks, tags)
      ensures connections.KnownAll(otherUsers) && j == S.TagEnd(message, i + 1)
      ensures Ids(otherUsers) == S.Tagged(connections.model, uks, tags + [message[i + 1..j]])
    {
      var userName;
      userName, j := TakeTag(message, i + 1);
      TaggedSnoc(connections.model, uks, tags, userName);
      otherUsers := AddMatching(uks, userName, users);
    }

    /** The users tagged in the message, in the order in which the scan finds them. */
    method CollectTagged(uks: seq<string>, message: string) returns (otherUsers: seq<User>)
      requires connections.Valid() && S.MapsOk(connections.model)
      requires forall k :: k in uks ==> k in connections.model.usersMap
      ensures connections.KnownAll(otherUsers)
      ensures Ids(otherUsers) == S.Tagged(connections.model, uks, S.Tags(message, 0))
    {
      otherUsers := [];
      ghost var tags := [];
      var i := 0;
      while i < |message|
        invariant connections.KnownAll(otherUsers)
        invariant Ids(otherUsers) == S.Tagged(connections.model, uks, tags)
        invariant tags + S.Tags(message, i) == S.Tags(message, 0)
      {
        if message[i] == '@' && i + 1 < |message| {
          var j;
          otherUsers, j := CollectTag(uks, message, i, otherUsers, tags);
          TagsStep(message, i, tags);
          tags := tags + [message[i + 1..j]];
          i := j;
        }
        i := i + 1;
      }
      assert tags + [] == tags;
    }

    /** Takes out the tagged users who follow the author; they are served as followers.  The queue is
        changed while it is iterated, so the loop is over the elements it started with. */
    method DropFollowers(tagged: seq<User>, myUser: User) returns (otherUsers: seq<User>)
      requires connections.Valid() && connections.KnownAll(tagged) && connections.Known(myUser)
      ensures connections.KnownAll(otherUsers)
      ensures Ids(otherUsers) == S.NotFollowing(connections.model, myUser.id, Ids(tagged))
    {
      otherUsers := tagged;
      ghost var kept: seq<User> := [];
      ghost var s := connections.model;
      ghost var ids := Ids(tagged);
      for i := 0 to |tagged|
        invariant otherUsers == kept + tagged[i..] && connections.KnownAll(kept)
        invariant forall u :: u in kept ==> !S.Follows(s, u.id, myUser.id)
        invariant Ids(kept) == S.NotFollowing(s, myUser.id, ids[..i])
      {
        var u := tagged[i];
        FollowsById(u, myUser);
        NotFollowingSnoc(s, myUser.id, ids, i);
        if myUser in u.followers {
          DropStep(kept, tagged, i);
          otherUsers := RemoveFirst(otherUsers, u);
        } else {
          KeepStep(kept, tagged, i);
          kept := kept + [u];
        }
      }
      assert ids[..|tagged|] == ids && otherUsers == kept;
    }

    lemma FollowsById(u: User, author: User)
      requires connections.Valid() && connections.Known(u) && connections.Known(author)
      ensures author in u.followers <==> S.Follows(connections.model, u.id, author.id)
    {
      connections.AtUser(u);
      connections.MemberById(u.followers, author);
    }

    /** The post goes to one user: at once, or into the waiting queue. */
    method DeliverTo(u: User, myUser: User, message: string)
      requires connections.Valid() && connections.Known(u) && connections.Known(myUser)
      modifies connections`connectionsMap, connections`howMuchPostIPost, connections`model, u`awaitingPosts
      ensures connections.Valid()
      ensures u.id < |old(connections.model).users| && myUser.id < |old(connections.model).users|
      ensures connections.model == S.Deliver(old(connections.model), myUser.id, message, u.id)
    {
      connections.AtUser(u);
      connections.AtUser(myUser);
      if !u.isActivated {
        Enqueue(u, myUser.username + " " + message);
      } else {
        SendPost(u, myUser, message);
      }
      connections.IncrementPostIPost();
    }

    method Enqueue(u: User, post: string)
      requires connections.Valid() && connections.Known(u)
      modifies connections`model, u`awaitingPosts
      ensures connections.Valid() && u.id < |old(connections.model).users|
      ensures var s := old(connections.model);
              connections.model == S.SetUser(s, u.id, s.users[u.id].(waiting := s.users[u.id].waiting + [post]))
    {
      connections.AtUser(u);
      u.AddAwaiting(post);
      connections.OnlyOneTouched(u);
      connections.Record(u);
    }

    method SendPost(u: User, myUser: User, message: string)
      requires connections.Valid()
      modifies connections`connectionsMap, connections`model
      ensures connections.Valid()
      ensures connections.model == S.Send(old(connections.model), u.connId,
                                          Notification(true, myUser.username, message),
                                          S.Live(myUser.id, u.id, true))
    {
      var msg := "091" + myUser.username + [NUL] + message + [NUL];
      var sent := connections.Send(u.connId, msg, Notification(true, myUser.username, message),
                                   S.Live(myUser.id, u.id, true));
    }

    method ServeFollower(checker: User, myUser: User, message: string)
      requires connections.Valid() && connections.Known(checker) && connections.Known(myUser)
      modifies connections`connectionsMap, connections`howMuchPostIPost, connections`model, checker`awaitingPosts
      ensures connections.Valid()
      ensures checker.id < |old(connections.model).users| && myUser.id < |old(connections.model).users|
      ensures var s := old(connections.model);
              connections.model ==
              if S.Follows(s, checker.id, myUser.id) then S.Deliver(s, myUser.id, message, checker.id) else s
    {
      connections.AtUser(checker);
      connections.AtUser(myUser);
      FollowsById(checker, myUser);
      if myUser in checker.followers {
        DeliverTo(checker, myUser, message);
      }
    }

    /** The loop over all users: those who follow the author get the post. */
    method ServeFollowers(uks: seq<string>, myUser: User, message: string)
      requires connections.Valid() && S.MapsOk(connections.model) && connections.Known(myUser)
      requires forall k :: k in uks ==> k in connections.model.usersMap
      modifies connections`connectionsMap, connections`howMuchPostIPost, connections`model, connections.all
      ensures connections.Valid()
      ensures var s := old(connections.model);
              && myUser.id < |s.users| && S.AreUsers(s, S.Followers(s, uks, myUser.id))
              && connections.model == S.DeliverAll(s, myUser.id, message, S.Followers(s, uks, myUser.id))
    {
      ghost var s := connections.model;
      connections.AtUser(myUser);
      for i := 0 to |uks|
        invariant connections.Valid() && S.AreUsers(s, S.Followers(s, uks[..i], myUser.id))
        invariant connections.model == S.DeliverAll(s, myUser.id, message, S.Followers(s, uks[..i], myUser.id))
      {
        ghost var t := connections.model;
        DeliverAllKeeps(s, myUser.id, message, S.Followers(s, uks[..i], myUser.id));
        connections.InUsers(uks[i]);
        ServeFollower(connections.usersMap[uks[i]], myUser, message);
        ServeStep(s, t, connections.model, uks, i, myUser.id, message);
      }
      assert uks[..|uks|] == uks;
    }

    /** The loop over the tagged users that are left. */
    method ServeTagged(otherUsers: seq<User>, myUser: User, message: string)
      requires connections.Valid() && connections.KnownAll(otherUsers) && connections.Known(myUser)
      modifies connections`connectionsMap, connections`howMuchPostIPost, connections`model, connections.all
      ensures connections.Valid()
      ensures var s := old(connections.model);
              && myUser.id < |s.users| && S.AreUsers(s, Ids(otherUsers))
              && connections.model == S.DeliverAll(s, myUser.id, message, Ids(otherUsers))
    {
      ghost var s := connections.model;
      ghost var ids := Ids(otherUsers);
      connections.AtUser(myUser);
      for i := 0 to |otherUsers|
        invariant connections.Valid() && S.AreUsers(s, ids[..i])
        invariant connections.model == S.DeliverAll(s, myUser.id, message, ids[..i])
      {
        connections.AtUser(otherUsers[i]);
        assert ids[..i + 1] == ids[..i] + [otherUsers[i].id];
        DeliverSnoc(s, myUser.id, message, ids[..i], otherUsers[i].id);
        DeliverTo(otherUsers[i], myUser, message);
      }
      assert ids[..|otherUsers|] == ids;
    }

    /** Serves the followers and then the other tagged users. */
    method Publish(uks: seq<string>, myUser: User, message: string)
      requires connections.Valid() && S.MapsOk(connections.model) && connections.Known(myUser)
      requires forall k :: k in uks ==> k in connections.model.usersMap
      modifies connections`connectionsMap, connections`howMuchPostIPost, connections`model, connections.all
      ensures connections.Valid()
      ensures var s := old(connections.model);
              && myUser.id < |s.users| && (forall k :: k in uks ==> k in s.usersMap)
              && connections.model == S.Published(s, uks, myUser.id, message)
    {
      ghost var s := connections.model;
      connections.AtUser(myUser);
      S.RecipientsAreUsers(s, uks, myUser.id, message);
      var tagged := CollectTagged(uks, message);
      var otherUsers := DropFollowers(tagged, myUser);
      S.FollowersFollow(s, uks, myUser.id);
      S.TaggedAreUsers(s, uks, S.Tags(message, 0));
      S.NotFollowingOnly(s, myUser.id, Ids(tagged));
      DeliverBoth(s, myUser.id, message, S.Followers(s, uks, myUser.id), Ids(otherUsers));
      ServeFollowers(uks, myUser, message);
      ServeTagged(otherUsers, myUser, message);
    }

    /** The post of the owner of this connection, if there is one. */
    method PostAs(uks: seq<string>, myUser: User?, message: string, ghost owner: Option<S.UserId>)
      requires connections.Valid() && S.MapsOk(connections.model) && IsUser(myUser, owner)
      requires S.IsUser(connections.model, owner) && forall k :: k in uks ==> k in connections.model.usersMap
      modifies connections`connectionsMap, connections`howMuchPostIPost, connections`model, connections.all
      ensures connections.Valid()
      ensures connections.model == S.PostBy(old(connections.model), uks, owner, connectionId, message)
    {
      if myUser != null {
        Publish(uks, myUser, message);
        Reply("1005", Ack("05"));
      } else {
        Reply("1105", Error("05"));
      }
    }

    method Post(uks: seq<string>, aks: seq<string>, message: string)
      requires connections.Valid() && S.Scannable(connections.model, uks, aks)
      modifies connections`connectionsMap, connections`howMuchPostIPost, connections`model, connections.all
      ensures connections.Valid()
      ensures connections.model == S.DoPost(old(connections.model), uks, aks, connectionId, message)
    {
      var myUser := MyUser(aks);
      PostAs(uks, myUser, message, S.Owner(connections.model, aks, connectionId));
    }

    // -------------------------------------------------------------- PM

    method SendPm(myUser: User, otherUser: User, message: string) returns (threw: bool)
      requires connections.Valid() && connections.Known(myUser) && connections.Known(otherUser)
      modifies connections`connectionsMap, connections`howMuchPostIPost, connections`model
      ensures connections.Valid()
      ensures myUser.id < |old(connections.model).users| && otherUser.id < |old(connections.model).users|
      ensures S.Result(connections.model, threw) ==
              S.SendPm(old(connections.model), myUser.id, otherUser.id, connectionId, message)
    {
      connections.AtUser(myUser);
      connections.AtUser(otherUser);
      connections.IncrementPostIPost();
      var skip := |otherUser.username| + 1;
      if |message| < skip {
        connections.Lose();
        return true;
      }
      var content := message[skip..];
      var m := Notification(false, myUser.username, content);
      var sent := connections.Send(otherUser.connId, "090" + myUser.username + [NUL] + content + [NUL], m,
                                   S.Live(myUser.id, otherUser.id, false));
      Reply("1006", Ack("06"));
      return false;
    }

    /** A user that was not found cannot send or receive a PM. */
    method PmBetween(myUser: User?, otherUser: User?, message: string,
                     ghost sender: Option<S.UserId>, ghost other: Option<S.UserId>)
      returns (threw: bool)
      requires connections.Valid() && IsUser(myUser, sender) && IsUser(otherUser, other)
      modifies connections`connectionsMap, connections`howMuchPostIPost, connections`model
      ensures connections.Valid() && S.IsUser(old(connections.model), sender) && S.IsUser(old(connections.model), other)
      ensures S.Result(connections.model, threw) ==
              S.PmBetween(old(connections.model), sender, other, connectionId, message)
    {
      if myUser != null { connections.AtUser(myUser); }
      if otherUser != null { connections.AtUser(otherUser); }
      if myUser != null && otherUser != null {
        connections.MemberById(myUser.followers, otherUser);
        connections.MemberById(otherUser.blockingUsers, myUser);
      }
      if myUser == null || otherUser == null || otherUser !in myUser.followers || myUser in otherUser.blockingUsers {
        Reply("1106", Error("06"));
        threw := false;
      } else {
        threw := SendPm(myUser, otherUser, message);
      }
    }

    method Pm(uks: seq<string>, aks: seq<string>, message: string) returns (threw: bool)
      requires connections.Valid() && S.Scannable(connections.model, uks, aks)
      modifies connections`connectionsMap, connections`howMuchPostIPost, connections`model
      ensures connections.Valid()
      ensures S.Result(connections.model, threw) == S.DoPm(old(connections.model), uks, aks, connectionId, message)
    {
      var owned, myUser := FindOwner(aks);
      var named, otherUser := FindNamed(uks, message);
      ghost var s := connections.model;
      threw := PmBetween(myUser, otherUser, message,
                         S.OrLast(S.Owner(s, aks, connectionId), s.activeMap, aks),
                         S.OrLast(S.Named(s, uks, message), s.usersMap, uks));
    }

    // -------------------------------------------------------------- BLOCK

    method NoteBlock(myUser: User, otherUser: User)
      requires connections.Valid() && connections.Known(myUser) && connections.Known(otherUser)
      modifies connections`model, myUser
      ensures connections.Valid() && myUser.id < |old(connections.model).users|
      ensures var s := old(connections.model);
              var me := s.users[myUser.id];
              connections.model == S.SetUser(s, myUser.id, me.(blocks := me.blocks + [otherUser.id]))
    {
      connections.AtUser(myUser);
      myUser.AddBlocking(otherUser);
      connections.OnlyOneTouched(myUser);
      connections.Record(myUser);
    }

    /** Removes the edge from `u` to `v`, if there is one. */
    method CutEdge(u: User, v: User)
      requires connections.Valid() && connections.Known(u) && connections.Known(v)
      modifies connections`model, u
      ensures connections.Valid() && u.id < |old(connections.model).users|
      ensures connections.model == S.Cut(old(connections.model), u.id, v.id)
    {
      connections.AtUser(u);
      connections.MemberById(u.followers, v);
      if v in u.followers {
        u.RemoveFollower(v);
        u.cuts := u.cuts + 1;
        connections.OnlyOneTouched(u);
        connections.Record(u);
      }
    }

    /** The block itself and the two edges it cuts. */
    method BlockUser(myUser: User, otherUser: User)
      requires connections.Valid() && connections.Known(myUser) && connections.Known(otherUser)
      modifies connections`connectionsMap, connections`model, myUser, otherUser
      ensures connections.Valid() && myUser.id < |old(connections.model).users|
              && otherUser.id < |old(connections.model).users|
      ensures var s, m, o := old(connections.model), myUser.id, otherUser.id;
              connections.model == S.Reply(S.BlockUser(s, m, o), connectionId, Ack("12"))
    {
      connections.AtUser(otherUser);
      NoteBlock(myUser, otherUser);
      CutEdge(myUser, otherUser);
      CutEdge(otherUser, myUser);
      Reply("1012", Ack("12"));
    }

    method BlockBetween(myUser: User?, otherUser: User?, message: string,
                        ghost owner: Option<S.UserId>, ghost other: Option<S.UserId>)
      returns (threw: bool)
      requires connections.Valid() && IsUser(myUser, owner) && IsUser(otherUser, other)
      modifies connections`connectionsMap, connections`model, connections.all
      ensures connections.Valid() && S.IsUser(old(connections.model), owner) && S.IsUser(old(connections.model), other)
      ensures S.Result(connections.model, threw) ==
              S.BlockBetween(old(connections.model), owner, other, connectionId, message)
    {
      if myUser != null { connections.AtUser(myUser); }
      if otherUser != null { connections.AtUser(otherUser); }
      if myUser != null && otherUser != null { connections.MemberById(myUser.blockingUsers, otherUser); }
      if myUser != null && otherUser != null && otherUser !in myUser.blockingUsers {
        // substring(0, size - 1) of an empty message throws before anything is changed
        if message == "" { return true; }
        BlockUser(myUser, otherUser);
      } else {
        Reply("1112", Error("12"));
      }
      return false;
    }

    method Block(uks: seq<string>, aks: seq<string>, message: string) returns (threw: bool)
      requires connections.Valid() && S.Scannable(connections.model, uks, aks)
      modifies connections`connectionsMap, connections`model, connections.all
      ensures connections.Valid()
      ensures S.Result(connections.model, threw) == S.DoBlock(old(connections.model), uks, aks, connectionId, message)
    {
      var myUser := MyUser(aks);
      var otherUser := NamedUser(uks, message);
      ghost var owner, other := S.Owner(connections.model, aks, connectionId), S.Named(connections.model, uks, message);
      threw := BlockBetween(myUser, otherUser, message, owner, other);
    }

    // -------------------------------------------------------------- LOGSTAT and STAT

    /** What LOGSTAT has to say about one active user. */
    method MakeRecord(user: User, myUser: User, now: int) returns (r: S.Record)
      requires connections.Valid() && connections.Known(user) && connections.Known(myUser)
      ensures user.id < |connections.model.users| && r == S.RecordOf(connections.model, myUser.id, user.id, now)
    {
      connections.AtUser(user);
      connections.MemberById(user.blockingUsers, myUser);
      if myUser in user.blockingUsers { return S.Refused; }
      var age := S.Age(user.birthday, now);
      if age.None? { return S.Broken; }
      var numFollowing, numFollowers, numOfPosts := |user.followers|, user.following, |user.awaitingPosts|;
      // encode parses the numbers of the text as shorts before anything is enqueued
      if !(StatCodec.IsShort(age.value) && StatCodec.IsShort(numFollowing) && StatCodec.IsShort(numFollowers)
           && StatCodec.IsShort(numOfPosts)) {
        return S.Broken;
      }
      return S.Sendable(Stats(age.value, numFollowing, numFollowers, numOfPosts));
    }

    /** One answer per active user, until a record cannot be made. */
    method Logstat(aks: seq<string>, now: int) returns (threw: bool)
      requires connections.Valid() && S.MapsOk(connections.model) && S.Enumerates(aks, connections.model.activeMap)
      modifies connections`connectionsMap, connections`model
      ensures connections.Valid()
      ensures S.Result(connections.model, threw) == S.DoLogstat(old(connections.model), aks, now, connectionId)
    {
      var found, myUser := FindOwner(aks);
      if myUser == null { return false; }
      threw := SendRecords(aks, myUser, now);
    }

    /** The answer about one active user. */
    method SendRecord(user: User, myUser: User, now: int) returns (broken: bool)
      requires connections.Valid() && connections.Known(user) && connections.Known(myUser)
      modifies connections`connectionsMap, connections`model
      ensures connections.Valid() && user.id < |old(connections.model).users|
      ensures match S.RecordOf(old(connections.model), myUser.id, user.id, now)
              case Refused => !broken && connections.model == S.Reply(old(connections.model), connectionId, Error("07"))
              case Broken => broken && connections.model == old(connections.model)
              case Sendable(m) => !broken && connections.model == S.Reply(old(connections.model), connectionId, m)
    {
      var r := MakeRecord(user, myUser, now);
      broken := r.Broken?;
      match r
      case Refused => Reply("1107", Error("07"));
      case Broken =>
      case Sendable(m) =>
        var msg := "1007" + Decimal(m.age) + " " + Decimal(m.following) + " " + Decimal(m.followers) + " "
          + Decimal(m.posts);
        Reply(msg, m);
    }

    method SendRecords(aks: seq<string>, myUser: User, now: int) returns (threw: bool)
      requires connections.Valid() && S.MapsOk(connections.model) && connections.Known(myUser)
      requires forall k :: k in aks ==> k in connections.model.activeMap
      modifies connections`connectionsMap, connections`model
      ensures connections.Valid()
      ensures S.Result(connections.model, threw) == S.Records(old(connections.model), aks, myUser.id, now, connectionId)
    {
      ghost var s := connections.model;
      assert aks[0..] == aks;
      for i := 0 to |aks|
        invariant connections.Valid() && connections.model == s.(log := connections.model.log)
        invariant S.Records(connections.model, aks[i..], myUser.id, now, connectionId) ==
                  S.Records(s, aks, myUser.id, now, connectionId)
      {
        RecordsStep(connections.model, aks, i, myUser.id, now, connectionId);
        connections.InActive(aks[i]);
        var broken := SendRecord(connections.activeUsersMap[aks[i]], myUser, now);
        if broken { return true; }
      }
      return false;
    }

    /** The keys of the active map are names; casting the first one to a user throws. */
    method Stat(aks: seq<string>) returns (threw: bool)
      requires connections.Valid()
      modifies connections`connectionsMap, connections`model
      ensures connections.Valid()
      ensures S.Result(connections.model, threw) == S.DoStat(old(connections.model), aks, connectionId)
    {
      if |aks| > 0 { return true; }
      Reply("1108", Error("08"));
      return false;
    }

    // -------------------------------------------------------------- process

    /** One request: the state, the messages sent and the exception are those of the specification. */
    method Process(uks: seq<string>, aks: seq<string>, now: int, message: string) returns (threw: bool)
      requires connections.Valid() && SI.Users(connections.model) && S.Scannable(connections.model, uks, aks)
      modifies connections, connections.all
      ensures connections.Valid()
      ensures S.Result(connections.model, threw) ==
              S.Process(old(connections.model), uks, aks, now, connectionId, message)
    {
      threw := false;
      match Parse(message)
      case None => threw := true;
      case Some(Register(name, password, birthday)) => Register(uks, name, password, birthday);
      case Some(Login(name, password, captcha)) => Login(uks, name, password, captcha);
      case Some(Logout) => Logout(aks);
      case Some(Follow(action, rest)) => Follow(uks, aks, action, rest);
      case Some(Post(text)) => Post(uks, aks, text);
      case Some(Pm(text)) => threw := Pm(uks, aks, text);
      case Some(Block(rest)) => threw := Block(uks, aks, rest);
      case Some(Logstat) => threw := Logstat(aks, now);
      case Some(Stat) => threw := Stat(aks);
      case Some(Ignored) =>
    }
  }

  lemma DropStep(kept: seq<User>, tagged: seq<User>, i: nat)
    requires i < |tagged| && tagged[i] !in kept
    ensures RemoveFirst(kept + tagged[i..], tagged[i]) == kept + tagged[i + 1..]
  {
    assert tagged[i..] == [tagged[i]] + tagged[i + 1..];
    RemoveAt(kept, tagged[i], tagged[i + 1..]);
  }

  lemma KeepStep(kept: seq<User>, tagged: seq<User>, i: nat)
    requires i < |tagged|
    ensures kept + tagged[i..] == kept + [tagged[i]] + tagged[i + 1..]
    ensures Ids(kept + [tagged[i]]) == Ids(kept) + [tagged[i].id]
  {
    IdsAppend(kept, [tagged[i]]);
  }

  /** The first occurrence of `u` is the one behind `kept`. */
  lemma {:induction false} RemoveAt<T>(kept: seq<T>, u: T, rest: seq<T>)
    requires u !in kept
    ensures RemoveFirst(kept + ([u] + rest), u) == kept + rest
  {
    if kept == [] {
      assert kept + ([u] + rest) == [u] + rest && ([u] + rest)[1..] == rest;
    } else {
      RemoveAt(kept[1..], u, rest);
      assert (kept + ([u] + rest))[1..] == kept[1..] + ([u] + rest);
      assert kept[0] in kept && kept + rest == [kept[0]] + (kept[1..] + rest);
    }
  }
}
