/** `ActorThreadPool` in its own, imperative form, for one thread inside the pool at a time.  Its
    methods are proved against the atomic specification that the interleaved scheduler refines. */
module ActorThreadPool {
  import opened ActorSpec

  type Actor = nat

  datatype Wrapper<T> = Wrapper(act: Actor, task: T)

  /** The linked list of the tasks that wait for one actor. */
  class TaskQueue<T> {
    var tasks: seq<T>

    constructor ()
      ensures tasks == []
    {
      tasks := [];
    }
  }

  function ViewIn<T>(views: map<Actor, ActorView<T>>, a: Actor): ActorView<T> {
    if a in views then views[a] else ActorView([], 0, 0, false)
  }

  /** A wrapper holds the first unfinished task of its actor, and an actor has at most one. */
  ghost predicate WrapperFits<T>(ws: seq<Wrapper<T>>, views: map<Actor, ActorView<T>>, i: nat)
    requires i < |ws|
  {
    var v := ViewIn(views, ws[i].act);
    && v.busy && v.done < v.handed <= |v.log| && v.log[v.done] == ws[i].task
    && (forall j :: 0 <= j < |ws| && ws[j].act == ws[i].act ==> j == i)
  }

  ghost predicate WrappersFit<T>(ws: seq<Wrapper<T>>, views: map<Actor, ActorView<T>>) {
    forall i :: 0 <= i < |ws| ==> WrapperFits(ws, views, i)
  }

  /** One wrapper leaves the executor; its actor has none left. */
  lemma RemoveWrapper<T>(ws: seq<Wrapper<T>>, views: map<Actor, ActorView<T>>, i: nat, v: ActorView<T>)
    requires WrappersFit(ws, views) && i < |ws|
    ensures var rest := ws[..i] + ws[i + 1..];
            && WrappersFit(rest, views[ws[i].act := v])
            && forall j :: 0 <= j < |rest| ==> rest[j].act != ws[i].act
  {
    var rest := ws[..i] + ws[i + 1..];
    forall j | 0 <= j < |rest| ensures WrapperFits(rest, views[ws[i].act := v], j) && rest[j].act != ws[i].act {
      var k := if j < i then j else j + 1;
      assert rest[j] == ws[k] && WrapperFits(ws, views, k);
      forall m | 0 <= m < |rest| && rest[m].act == rest[j].act ensures m == j {
        assert rest[m] == ws[if m < i then m else m + 1];
      }
    }
  }

  /** One wrapper joins the executor; its actor had none. */
  lemma AddWrapper<T>(ws: seq<Wrapper<T>>, views: map<Actor, ActorView<T>>, w: Wrapper<T>)
    requires WrappersFit(ws, views) && forall j :: 0 <= j < |ws| ==> ws[j].act != w.act
    requires var v := ViewIn(views, w.act); v.busy && v.done < v.handed <= |v.log| && v.log[v.done] == w.task
    ensures WrappersFit(ws + [w], views)
  {
    forall j | 0 <= j < |ws + [w]| ensures WrapperFits(ws + [w], views, j) {
      if j < |ws| { assert WrapperFits(ws, views, j); }
    }
  }

  class ActorThreadPool<T> {
    var acts: map<Actor, TaskQueue<T>>
    var playingNow: set<Actor>
    var executor: seq<Wrapper<T>>
    ghost var views: map<Actor, ActorView<T>>

    ghost function ViewOf(a: Actor): ActorView<T>
      reads this`views
    {
      ViewIn(views, a)
    }

    ghost function Waiting(a: Actor): seq<T>
      reads this`acts, acts.Values
    {
      if a in acts then acts[a].tasks else []
    }

    ghost predicate ActorOk(a: Actor)
      reads this, acts.Values
    {
      && ViewOk(ViewOf(a))
      && (a in playingNow <==> ViewOf(a).busy)
      && Waiting(a) == ViewOf(a).log[ViewOf(a).handed..]
    }

    ghost predicate Valid()
      reads this, acts.Values
    {
      && (forall a, b :: a in acts && b in acts && acts[a] == acts[b] ==> a == b)
      && (forall a: Actor :: ActorOk(a))
      && WrappersFit(executor, views)
    }

    constructor ()
      ensures Valid() && executor == [] && playingNow == {} && acts == map[]
      ensures forall a :: ViewOf(a) == ActorView([], 0, 0, false)
    {
      acts, playingNow, executor, views := map[], {}, [], map[];
    }

    method PendingRunnablesOf(act: Actor) returns (pending: TaskQueue<T>)
      modifies this`acts
      ensures act in acts && acts[act] == pending
      ensures act in old(acts) ==> acts == old(acts)
      ensures act !in old(acts) ==> fresh(pending) && pending.tasks == [] && acts == old(acts)[act := pending]
    {
      if act in acts {
        pending := acts[act];
      } else {
        pending := new TaskQueue();
        acts := acts[act := pending];
      }
    }

    /** `pendingRunnablesOf(act).add(r)`. */
    method AddPending(act: Actor, r: T)
      requires forall a, b :: a in acts && b in acts && acts[a] == acts[b] ==> a == b
      modifies this`acts, acts.Values
      ensures forall a, b :: a in acts && b in acts && acts[a] == acts[b] ==> a == b
      ensures Waiting(act) == old(Waiting(act)) + [r]
      ensures forall b: Actor :: b != act ==> Waiting(b) == old(Waiting(b))
    {
      var pending := PendingRunnablesOf(act);
      pending.tasks := pending.tasks + [r];
    }

    method Submit(act: Actor, r: T)
      requires Valid()
      modifies this, acts.Values
      ensures Valid()
      ensures ViewOf(act) == SpecSubmit(old(ViewOf(act)), r)
      ensures forall b: Actor :: b != act ==> ViewOf(b) == old(ViewOf(b))
      ensures executor == old(executor) + if act in old(playingNow) then [] else [Wrapper(act, r)]
    {
      assert ActorOk(act);
      SubmitWrappers(act, r);
      views := views[act := SpecSubmit(ViewOf(act), r)];
      if act !in playingNow {
        playingNow := playingNow + {act};
        Execute(r, act);
      } else {
        AddPending(act, r);
      }
      forall b: Actor ensures ActorOk(b) { assert old(ActorOk(b)); }
    }

    /** The wrappers after submit: one more if the actor was idle, the same otherwise. */
    lemma SubmitWrappers(act: Actor, r: T)
      requires Valid()
      ensures act in playingNow ==> WrappersFit(executor, views[act := SpecSubmit(ViewOf(act), r)])
      ensures act !in playingNow ==>
                WrappersFit(executor + [Wrapper(act, r)], views[act := SpecSubmit(ViewOf(act), r)])
    {
      var views' := views[act := SpecSubmit(ViewOf(act), r)];
      assert ActorOk(act);
      forall j | 0 <= j < |executor| ensures WrapperFits(executor, views', j) && executor[j].act in playingNow {
        assert WrapperFits(executor, views, j) && ActorOk(executor[j].act);
      }
      if act !in playingNow { AddWrapper(executor, views', Wrapper(act, r)); }
    }

    /** Hands the wrapper of a task to the executor. */
    method Execute(r: T, act: Actor)
      modifies this`executor
      ensures executor == old(executor) + [Wrapper(act, r)]
    {
      executor := executor + [Wrapper(act, r)];
    }

    /** The actor's task is over: run its next task or let the actor go. */
    method Complete(act: Actor)
      requires forall a, b :: a in acts && b in acts && acts[a] == acts[b] ==> a == b
      modifies this`acts, this`executor, this`playingNow, acts.Values
      ensures forall a, b :: a in acts && b in acts && acts[a] == acts[b] ==> a == b
      ensures forall b: Actor :: b != act ==> Waiting(b) == old(Waiting(b))
      ensures old(Waiting(act)) == [] ==>
                Waiting(act) == [] && playingNow == old(playingNow) - {act} && executor == old(executor)
      ensures old(Waiting(act)) != [] ==>
                && Waiting(act) == old(Waiting(act))[1..] && playingNow == old(playingNow)
                && executor == old(executor) + [Wrapper(act, old(Waiting(act))[0])]
    {
      var pending := PendingRunnablesOf(act);
      if pending.tasks == [] {
        playingNow := playingNow - {act};
      } else {
        var next := pending.tasks[0];
        pending.tasks := pending.tasks[1..];
        Execute(next, act);
      }
    }

    /** A worker takes the wrapper at `i`, runs its task and completes the actor.  The task it runs is
        the first unfinished one of its actor. */
    method RunWrapper(i: nat) returns (task: T)
      requires Valid() && i < |executor|
      modifies this, acts.Values
      ensures Valid()
      ensures var v := old(ViewOf(executor[i].act));
              && v.done < v.handed <= |v.log| && task == v.log[v.done]
              && ViewOf(old(executor[i].act)) == SpecComplete(SpecFinish(v))
              && executor == old(executor[..i] + executor[i + 1..]) +
                             (if v.handed < |v.log| then [Wrapper(old(executor[i].act), v.log[v.handed])] else [])
      ensures forall b: Actor :: b != old(executor[i].act) ==> ViewOf(b) == old(ViewOf(b))
    {
      var w := executor[i];
      ghost var v := ViewOf(w.act);
      ghost var v' := SpecComplete(SpecFinish(v));
      assert WrapperFits(executor, views, i) && ActorOk(w.act);
      RemoveWrapper(executor, views, i, v');
      executor := executor[..i] + executor[i + 1..];
      ghost var rest := executor;
      task := w.task;
      Complete(w.act);
      views := views[w.act := v'];
      if v.handed < |v.log| { AddWrapper(rest, views, Wrapper(w.act, v.log[v.handed])); }
      forall b: Actor ensures ActorOk(b) { assert old(ActorOk(b)); }
    }
  }
}
