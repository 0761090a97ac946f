/** `Reactor` in its own form, for one thread inside it at a time: interest sets, selector tasks and the
    numbering of connections. */
module Reactor {
  import opened Text

  datatype Ops = Read | ReadWrite

  /** A connection handler with its channel; `number` counts the accepted connections. */
  class Handler {
    ghost const number: nat

    constructor (ghost number: nat)
      ensures this.number == number
    {
      this.number := number;
    }
  }

  /** `key.interestOps(ops)` on the key of a handler's channel. */
  datatype Task = Task(key: Handler, ops: Ops)

  /** The interest sets after the tasks have run, oldest first. */
  function AfterTasks(interest: map<Handler, Ops>, tasks: seq<Task>): map<Handler, Ops>
    decreases |tasks|
  {
    if tasks == [] then interest else AfterTasks(interest[tasks[0].key := tasks[0].ops], tasks[1..])
  }

  lemma {:induction false} AfterSnoc(interest: map<Handler, Ops>, tasks: seq<Task>, t: Task)
    ensures AfterTasks(interest, tasks + [t]) == AfterTasks(interest, tasks)[t.key := t.ops]
    decreases |tasks|
  {
    if tasks == [] {
      assert tasks + [t] == [t] && [t][1..] == [];
    } else {
      AfterSnoc(interest[tasks[0].key := tasks[0].ops], tasks[1..], t);
      assert (tasks + [t])[1..] == tasks[1..] + [t];
    }
  }

  class Reactor {
    var interest: map<Handler, Ops>
    var selectorTasks: seq<Task>
    var wakeup: bool
    var connectionId: int               // a Java int
    var connections: map<int, Handler>  // the handler registered under an id
    ghost var accepted: nat             // how many connections were accepted so far

    /** What the interest sets will be once the queued tasks have run. */
    ghost function Intended(): map<Handler, Ops>
      reads this
    {
      AfterTasks(interest, selectorTasks)
    }

    /** Every queued task has its wakeup, and the k-th connection is registered under the k-th id. */
    ghost predicate Valid()
      reads this
    {
      && (selectorTasks != [] ==> wakeup)
      && connectionId == Int32(accepted)
      && (forall id :: id in connections ==> Numbered(id, connections[id]))
      && (forall k: nat :: k < accepted && k < 0x1_0000_0000 ==> Registered(k))
    }

    ghost predicate Numbered(id: int, h: Handler)
      reads this`accepted
    {
      h.number < accepted && id == Int32(h.number)
    }

    ghost predicate Registered(k: nat)
      reads this`connections, this`accepted
    {
      Int32(k) in connections && (accepted <= 0x1_0000_0000 ==> connections[Int32(k)].number == k)
    }

    constructor ()
      ensures Valid() && accepted == 0 && connections == map[] && selectorTasks == []
    {
      interest, selectorTasks, wakeup := map[], [], false;
      connectionId, connections, accepted := 0, map[], 0;
    }

    /** From the selector thread the change takes effect at once, from any other thread it is queued and
        the selector is woken up.  Either way it is the last word on its key, unless older tasks are still
        queued when the selector thread speaks. */
    method UpdateInterestedOps(key: Handler, ops: Ops, onSelectorThread: bool)
      requires Valid()
      modifies this`interest, this`selectorTasks, this`wakeup
      ensures Valid()
      ensures !onSelectorThread ==> wakeup && interest == old(interest) && Intended() == old(Intended())[key := ops]
      ensures onSelectorThread ==> interest == old(interest)[key := ops] && selectorTasks == old(selectorTasks)
      ensures onSelectorThread && old(selectorTasks) == [] ==> Intended() == old(Intended())[key := ops]
    {
      if onSelectorThread {
        interest := interest[key := ops];
      } else {
        AfterSnoc(interest, selectorTasks, Task(key, ops));
        selectorTasks := selectorTasks + [Task(key, ops)];
        wakeup := true;
      }
    }

    /** Runs the queued tasks, oldest first, until none is left. */
    method RunSelectionThreadTasks()
      requires Valid()
      modifies this`interest, this`selectorTasks
      ensures Valid() && selectorTasks == [] && interest == old(Intended())
    {
      while selectorTasks != []
        invariant Valid() && Intended() == old(Intended())
        decreases |selectorTasks|
      {
        var task := selectorTasks[0];
        selectorTasks := selectorTasks[1..];
        interest := interest[task.key := task.ops];
      }
    }

    lemma IdIsNew()
      requires Valid()
      ensures connectionId !in connections <==> accepted < 0x1_0000_0000
    {
      if accepted >= 0x1_0000_0000 {
        SameId(accepted);
        assert Registered(accepted % 0x1_0000_0000);
      } else if connectionId in connections {
        assert Numbered(connectionId, connections[connectionId]);
        DistinctIds(connections[connectionId].number, accepted);
      }
    }

    /** Registers the next connection.  Its id is new, and no registration is overwritten, as long as the
        counter has not gone round; after 2^32 connections the id is that of an older one. */
    method HandleAccept() returns (id: int, handler: Handler)
      requires Valid()
      modifies this`connectionId, this`connections, this`accepted, this`interest
      ensures Valid() && accepted == old(accepted) + 1 && fresh(handler) && handler.number == old(accepted)
      ensures id == Int32(old(accepted)) && connections == old(connections)[id := handler]
      ensures id !in old(connections) <==> old(accepted) < 0x1_0000_0000
      ensures interest == old(interest)[handler := Read]
    {
      id := connectionId;
      IdIsNew();
      handler := new Handler(accepted);
      connections := connections[id := handler];
      NextId(accepted);
      connectionId := Int32(connectionId + 1);
      interest := interest[handler := Read];
      accepted := accepted + 1;
      forall z | z in connections ensures Numbered(z, connections[z]) {
        assert z != id ==> old(Numbered(z, connections[z]));
      }
      forall k: nat | k < accepted && k < 0x1_0000_0000 ensures Registered(k) {
        assert k < accepted - 1 ==> old(Registered(k));
        DistinctIds(k, accepted - 1);
      }
    }
  }

  lemma NextId(k: nat)
    ensures Int32(Int32(k) + 1) == Int32(k + 1)
  {
  }

  lemma DistinctIds(j: nat, k: nat)
    ensures j < k < 0x1_0000_0000 ==> Int32(j) != Int32(k)
  {
  }

  lemma SameId(k: nat)
    ensures Int32(k % 0x1_0000_0000) == Int32(k)
  {
  }

  /** The id of the k-th connection differs from all earlier ones exactly below 2^32. */
  lemma IdIsNewIff(k: nat)
    ensures (forall j: nat :: j < k ==> Int32(j) != Int32(k)) <==> k < 0x1_0000_0000
  {
    if k >= 0x1_0000_0000 {
      assert Int32(k - 0x1_0000_0000) == Int32(k);
    }
  }
}
