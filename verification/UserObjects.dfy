/** The class `User`: its fields and the methods that change them, against the user values of `Social`. */
module UserObjects {
  import opened Text
  import S = Social

  class User {
    ghost const id: S.UserId // the identity of the object: its number in registration order
    const username: string
    const password: string
    const birthday: string
    var isActivated: bool
    var connId: int
    var followers: seq<User> // the users this user follows
    var awaitingPosts: seq<string>
    var following: int
    var blockingUsers: seq<User>
    ghost var cuts: nat

    ghost function View(): S.User
      reads this
    {
      S.User(username, password, birthday, isActivated, connId, Ids(followers), awaitingPosts, following,
             Ids(blockingUsers), cuts)
    }

    constructor (ghost id: S.UserId, username: string, password: string, birthday: string)
      ensures this.id == id && View() == S.User(username, password, birthday, false, -1, [], [], 0, [], 0)
      ensures followers == [] && blockingUsers == []
    {
      this.id := id;
      this.username, this.password, this.birthday := username, password, birthday;
      isActivated, connId := false, -1;
      followers, awaitingPosts, following, blockingUsers, cuts := [], [], 0, [], 0;
    }

    method Activate()
      modifies this`isActivated
      ensures View() == old(View()).(active := true)
    {
      if !isActivated { isActivated := true; }
    }

    method DeActivate()
      modifies this`isActivated
      ensures View() == old(View()).(active := false)
    {
      if isActivated { isActivated := false; }
    }

    method SetConnId(connId: int)
      modifies this`connId
      ensures View() == old(View()).(connId := connId)
    {
      this.connId := connId;
    }

    method AddFollower(user: User)
      modifies this`followers
      ensures followers == old(followers) + [user]
      ensures View() == old(View()).(follows := old(View()).follows + [user.id])
    {
      followers := followers + [user];
      assert Ids(followers) == Ids(old(followers)) + [user.id];
    }

    /** The queue removes the first element that is the same object. */
    method RemoveFollower(user: User)
      requires forall f :: f in followers && f.id == user.id ==> f == user
      modifies this`followers
      ensures forall f :: f in followers ==> f in old(followers)
      ensures View() == old(View()).(follows := RemoveFirst(old(View()).follows, user.id))
    {
      IdsRemoveFirst(followers, user);
      followers := RemoveFirst(followers, user);
    }

    /** `following` is a Java short. */
    method IncrementFollowing()
      modifies this`following
      ensures View() == old(View()).(following := Short(old(View()).following + 1))
    {
      following := Short(following + 1);
    }

    method DecreaseFollowing()
      modifies this`following
      ensures View() == old(View()).(following := Short(old(View()).following - 1))
    {
      following := Short(following - 1);
    }

    method AddBlocking(user: User)
      modifies this`blockingUsers
      ensures blockingUsers == old(blockingUsers) + [user]
      ensures View() == old(View()).(blocks := old(View()).blocks + [user.id])
    {
      blockingUsers := blockingUsers + [user];
      assert Ids(blockingUsers) == Ids(old(blockingUsers)) + [user.id];
    }

    method AddAwaiting(post: string)
      modifies this`awaitingPosts
      ensures View() == old(View()).(waiting := old(View()).waiting + [post])
    {
      awaitingPosts := awaitingPosts + [post];
    }
  }

  ghost function Ids(us: seq<User>): (ids: seq<S.UserId>)
    ensures |ids| == |us| && forall i :: 0 <= i < |us| ==> ids[i] == us[i].id
  {
    if us == [] then [] else [us[0].id] + Ids(us[1..])
  }

  /** Among objects with distinct numbers, membership of the object is membership of the number. */
  lemma IdsMember(us: seq<User>, u: User)
    requires forall f :: f in us && f.id == u.id ==> f == u
    ensures u in us <==> u.id in Ids(us)
  {
    if u in us {
      var i :| 0 <= i < |us| && us[i] == u;
      assert Ids(us)[i] == u.id;
    }
  }

  lemma IdsAppend(us: seq<User>, vs: seq<User>)
    ensures Ids(us + vs) == Ids(us) + Ids(vs)
  {
  }

  lemma {:induction false} IdsRemoveFirst(us: seq<User>, u: User)
    requires forall f :: f in us && f.id == u.id ==> f == u
    ensures Ids(RemoveFirst(us, u)) == RemoveFirst(Ids(us), u.id)
    ensures forall f :: f in RemoveFirst(us, u) ==> f in us
  {
    if us != [] {
      assert Ids(us)[1..] == Ids(us[1..]);
      if us[0] != u {
        assert us[0] in us;
        IdsRemoveFirst(us[1..], u);
        var rest := RemoveFirst(us[1..], u);
        assert ([us[0]] + rest)[1..] == rest;
      }
    }
  }
}
