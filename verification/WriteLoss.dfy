/** A run in which a message to a connection that was closed ends the selector loop: `send` queues an interest
    task whose key is cancelled when the task runs. */
module WriteLoss {
  import opened Framing
  import opened WriteQueue
  import opened ReactorWrites
  import opened WriteRuns

  const KEY: Key := Channel(0, true, false)

  /** One channel, one worker outside send, no task. */
  function At(open: bool, sel: Selector): Net { Net([Chan([], [], false, open, [])], [], false, sel, [Quiet]) }

  /** After the worker's send. */
  function Sent(m: Bytes, wakeup: bool, tasks: seq<ConnId>, sel: Selector): Net {
    Net([Chan([WriteBuffer(m, 0)], [0], false, false, [])], tasks, wakeup, sel, [Quiet])
  }

  /** A step in front of a run. */
  lemma Prepend(n: Net, x: Action, xs: seq<Action>, end: Net) returns (ys: seq<Action>)
    requires Enabled(n, x) && CanRun(Apply(n, x), xs) && RunAll(Apply(n, x), xs) == end
    ensures CanRun(n, ys) && RunAll(n, ys) == end
  {
    ys := [x] + xs;
    assert ys[1..] == xs;
  }

  lemma TaskKills(m: Bytes) returns (xs: seq<Action>)
    ensures CanRun(Sent(m, true, [0], Selecting), xs)
    ensures RunAll(Sent(m, true, [0], Selecting), xs) == Sent(m, false, [], Dead)
  {
    assert [0 as ConnId][1..] == [];
    assert DoRunTask(Sent(m, false, [0], Running([]))).chans == Sent(m, false, [], Dead).chans;
    xs := Prepend(Sent(m, false, [0], Running([])), RunTask, [], Sent(m, false, [], Dead));
    xs := Prepend(Sent(m, false, [0], Draining([])), TestTasks, xs, Sent(m, false, [], Dead));
    xs := Prepend(Sent(m, true, [0], Selecting), Select([]), xs, Sent(m, false, [], Dead));
  }

  lemma AskKills(m: Bytes) returns (xs: seq<Action>)
    ensures var b := Sent(m, false, [], Selecting).(senders := [Asking(0)]);
            CanRun(b, xs) && RunAll(b, xs) == Sent(m, false, [], Dead)
  {
    var end := Sent(m, false, [], Dead);
    var b := Sent(m, false, [], Selecting).(senders := [Asking(0)]);
    var c := Sent(m, false, [0], Selecting).(senders := [Waking]);
    xs := TaskKills(m);
    assert DoWake(c, 0).senders == [Quiet] && DoAskInterest(b, 0).senders == [Waking];
    assert DoAskInterest(b, 0).tasks == [0];
    xs := Prepend(c, Wake(0), xs, end);
    xs := Prepend(b, AskInterest(0), xs, end);
  }

  lemma SendKills(m: Bytes) returns (xs: seq<Action>)
    ensures CanRun(At(false, Selecting), xs) && RunAll(At(false, Selecting), xs) == Sent(m, false, [], Dead)
  {
    var end := Sent(m, false, [], Dead);
    var a := At(false, Selecting).(senders := [Adding(0, m)]);
    var b := Sent(m, false, [], Selecting).(senders := [Asking(0)]);
    xs := AskKills(m);
    assert DoAddBuffer(a, 0) == b by {
      assert DoAddBuffer(a, 0).senders == [Asking(0)];
      assert [] + [WriteBuffer(m, 0)] == [WriteBuffer(m, 0)] && [] + [0 as nat] == [0];
    }
    xs := Prepend(a, AddBuffer(0), xs, end);
    assert DoBeginSend(At(false, Selecting), 0, 0, m).senders == [Adding(0, m)];
    xs := Prepend(At(false, Selecting), BeginSend(0, 0, m), xs, end);
  }

  lemma CloseKills(m: Bytes) returns (xs: seq<Action>)
    ensures CanRun(At(true, Selecting), xs) && RunAll(At(true, Selecting), xs) == Sent(m, false, [], Dead)
  {
    var end := Sent(m, false, [], Dead);
    xs := SendKills(m);
    assert [KEY][1..] == [];
    xs := Prepend(At(false, Handling([])), NextKey, xs, end);
    xs := Prepend(At(false, Reading(KEY, [])), FinishRead, xs, end);
    assert DoEndOfStream(At(true, Reading(KEY, []))).chans == [Chan([], [], false, false, [])];
    xs := Prepend(At(true, Reading(KEY, [])), EndOfStream, xs, end);
    xs := Prepend(At(true, Handling([KEY])), NextKey, xs, end);
    xs := Prepend(At(true, Draining([KEY])), TestTasks, xs, end);
    xs := Prepend(At(true, Selecting), Select([KEY]), xs, end);
  }

  /** A client connects and disconnects; then any message sent to its connection ends the selector loop. */
  lemma SendToClosedKills(m: Bytes)
    ensures exists xs :: CanRun(Init(1), xs) && RunAll(Init(1), xs) == Sent(m, false, [], Dead)
  {
    var end := Sent(m, false, [], Dead);
    var xs := CloseKills(m);
    var n := Init(1);
    assert n.senders == [Quiet] && [Server][1..] == [];
    xs := Prepend(At(true, Handling([])), NextKey, xs, end);
    assert DoAccept(n.(sel := Handling([Server]))) == At(true, Handling([]));
    xs := Prepend(n.(sel := Handling([Server])), Accept, xs, end);
    xs := Prepend(n.(sel := Draining([Server])), TestTasks, xs, end);
    xs := Prepend(n, Select([Server]), xs, end);
  }
}
