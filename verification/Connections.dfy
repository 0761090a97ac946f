/** The class `ConnectionsImpl`: the shared maps and the counter, tied to a value of `Social`. */
module Connections {
  import opened Text
  import opened ServerMessages
  import opened UserObjects
  import S = Social

  /** The texts of the messages sent to one connection, in order. */
  ghost function TextsTo(log: seq<S.Sent>, conn: int): seq<string> {
    if log == [] then []
    else TextsTo(log[..|log| - 1], conn) + if log[|log| - 1].conn == conn then [TextOf(log[|log| - 1].msg)] else []
  }

  lemma TextsSnoc(log: seq<S.Sent>, m: S.Sent, conn: int)
    ensures TextsTo(log + [m], conn) == TextsTo(log, conn) + if m.conn == conn then [TextOf(m.msg)] else []
  {
    assert (log + [m])[..|log|] == log;
  }

  class ConnectionsImpl {
    var activeUsersMap: map<string, User>
    var usersMap: map<string, User>
    var connectionsMap: map<int, seq<string>> // for each connection what its handler was told to send
    var howMuchPostIPost: int
    ghost var all: seq<User>    // every user, in registration order
    ghost var model: S.Social   // the value this object stands for

    ghost predicate Known(u: User)
      reads this`all
    {
      u.id < |all| && all[u.id] == u
    }

    ghost predicate KnownAll(us: seq<User>)
      reads this`all
    {
      forall u :: u in us ==> Known(u)
    }

    ghost predicate UserTied(i: nat)
      reads this`all, this`model, all
    {
      i < |all| && i < |model.users| ==>
        && all[i].id == i && all[i].View() == model.users[i]
        && KnownAll(all[i].followers) && KnownAll(all[i].blockingUsers)
    }

    ghost predicate MapTied(m: map<string, User>, n: map<string, S.UserId>)
      reads this`all
    {
      && (forall k :: k in m <==> k in n)
      && (forall k :: k in m ==> Known(m[k]) && m[k].id == n[k])
    }

    ghost predicate SentTied(id: int)
      reads this`connectionsMap, this`model
    {
      id in connectionsMap ==> connectionsMap[id] == TextsTo(model.log, id)
    }

    ghost predicate MapsTied()
      reads this
    {
      && |all| == |model.users|
      && MapTied(usersMap, model.usersMap) && MapTied(activeUsersMap, model.activeMap)
      && howMuchPostIPost == model.posts
      && (forall id :: SentTied(id))
    }

    /** Everything agrees with the value, except perhaps the user `u`. */
    ghost predicate ValidBut(u: User)
      reads this, all
    {
      && MapsTied() && Known(u) && KnownAll(u.followers) && KnownAll(u.blockingUsers)
      && (forall i: nat :: i != u.id ==> UserTied(i))
    }

    ghost predicate Valid()
      reads this, all
    {
      MapsTied() && forall i: nat :: UserTied(i)
    }

    constructor ()
      ensures Valid() && model == S.Social([], map[], map[], 0, [], 0) && all == []
    {
      activeUsersMap, usersMap, connectionsMap, howMuchPostIPost := map[], map[], map[], 0;
      all, model := [], S.Social([], map[], map[], 0, [], 0);
    }

    /** A connection that was never sent anything gets its handler. */
    method Connect(id: int)
      requires Valid() && TextsTo(model.log, id) == []
      modifies this`connectionsMap
      ensures Valid() && connectionsMap == old(connectionsMap)[id := []]
    {
      connectionsMap := connectionsMap[id := []];
      forall z ensures SentTied(z) { assert old(SentTied(z)); }
    }

    /** `m` is what the text means; the result says whether the connection exists. */
    method Send(connId: int, msg: string, ghost m: ServerMessage, ghost origin: S.Origin) returns (sent: bool)
      requires Valid() && msg == TextOf(m)
      modifies this`connectionsMap, this`model
      ensures Valid() && model == S.Send(old(model), connId, m, origin)
      ensures sent == (connId in old(connectionsMap))
      ensures connectionsMap ==
              if sent then old(connectionsMap)[connId := old(connectionsMap)[connId] + [msg]] else old(connectionsMap)
    {
      ghost var log := model.log;
      model := S.Send(model, connId, m, origin);
      sent := connId in connectionsMap;
      if sent {
        connectionsMap := connectionsMap[connId := connectionsMap[connId] + [msg]];
      }
      forall z ensures SentTied(z) {
        assert old(SentTied(z));
        TextsSnoc(log, S.Sent(connId, m, origin), z);
      }
      forall i: nat ensures UserTied(i) { assert old(UserTied(i)); }
    }

    method IncrementPostIPost()
      requires Valid()
      modifies this`howMuchPostIPost, this`model
      ensures Valid() && model == old(model).(posts := Int32(old(model).posts + 1))
    {
      howMuchPostIPost := Int32(howMuchPostIPost + 1);
      model := model.(posts := Int32(model.posts + 1));
      forall z ensures SentTied(z) { assert old(SentTied(z)); }
      forall i: nat ensures UserTied(i) { assert old(UserTied(i)); }
    }

    /** After a change of one user object everything else still agrees with the value. */
    twostate lemma OnlyOneTouched(u: User)
      requires old(Valid()) && unchanged(this) && Known(u)
      requires forall i :: 0 <= i < |all| && all[i] != u ==> unchanged(all[i])
      requires KnownAll(u.followers) && KnownAll(u.blockingUsers)
      ensures ValidBut(u)
    {
      forall id ensures SentTied(id) { assert old(SentTied(id)); }
      forall i: nat | i != u.id ensures UserTied(i) { assert old(UserTied(i)); }
    }

    /** A user object found in a map is the user that the value has there. */
    lemma InUsers(k: string)
      requires Valid() && k in model.usersMap
      ensures k in usersMap && Known(usersMap[k]) && usersMap[k].id == model.usersMap[k] < |model.users|
      ensures usersMap[k].username == model.users[model.usersMap[k]].name
    {
      assert UserTied(usersMap[k].id);
    }

    lemma InActive(k: string)
      requires Valid() && k in model.activeMap
      ensures k in activeUsersMap && Known(activeUsersMap[k])
              && activeUsersMap[k].id == model.activeMap[k] < |model.users|
      ensures activeUsersMap[k].connId == model.users[model.activeMap[k]].connId
    {
      assert UserTied(activeUsersMap[k].id);
    }

    /** The fields of a known user. */
    lemma AtUser(u: User)
      requires Valid() && Known(u)
      ensures u.id < |model.users| && u.View() == model.users[u.id]
      ensures KnownAll(u.followers) && KnownAll(u.blockingUsers)
    {
      assert UserTied(u.id);
    }

    /** Membership of a known object is membership of its number. */
    lemma MemberById(us: seq<User>, u: User)
      requires KnownAll(us) && Known(u)
      ensures u in us <==> u.id in Ids(us)
      ensures forall f :: f in us && f.id == u.id ==> f == u
    {
      IdsMember(us, u);
    }

    /** A request threw after the counter was incremented. */
    ghost method Lose()
      requires Valid()
      modifies this`model
      ensures Valid() && model == old(model).(lost := old(model).lost + 1)
    {
      model := model.(lost := model.lost + 1);
      forall z ensures SentTied(z) { assert old(SentTied(z)); }
      forall i: nat ensures UserTied(i) { assert old(UserTied(i)); }
    }

    /** The value follows a change of one user object. */
    ghost method Record(u: User)
      requires ValidBut(u)
      modifies this`model
      ensures Valid() && model == S.SetUser(old(model), u.id, u.View())
    {
      model := S.SetUser(model, u.id, u.View());
      forall z ensures SentTied(z) { assert old(SentTied(z)); }
      forall i: nat ensures UserTied(i) { assert i != u.id ==> old(UserTied(i)); }
    }

    /** `getUsersMap().put(username, user)` for a user object that was just created. */
    method PutUser(user: User)
      requires Valid() && user.id == |all| && user !in all
      requires user.followers == [] && user.blockingUsers == []
      modifies this`usersMap, this`all, this`model
      ensures Valid() && all == old(all) + [user]
      ensures model == old(model).(users := old(model).users + [user.View()],
                                   usersMap := old(model).usersMap[user.username := |old(all)|])
    {
      usersMap := usersMap[user.username := user];
      all := all + [user];
      model := model.(users := model.users + [user.View()], usersMap := model.usersMap[user.username := user.id]);
      forall z ensures SentTied(z) { assert old(SentTied(z)); }
      forall i: nat ensures UserTied(i) { assert old(UserTied(i)); }
    }

    /** `getActiveUsersMap().put(username, user)`. */
    method PutActive(username: string, user: User)
      requires Valid() && Known(user)
      modifies this`activeUsersMap, this`model
      ensures Valid() && model == old(model).(activeMap := old(model).activeMap[username := user.id])
    {
      activeUsersMap := activeUsersMap[username := user];
      model := model.(activeMap := model.activeMap[username := user.id]);
      forall z ensures SentTied(z) { assert old(SentTied(z)); }
      forall i: nat ensures UserTied(i) { assert old(UserTied(i)); }
    }
  }
}
