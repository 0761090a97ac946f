/** One round of the selector: which channels it may write to, and when `continueWrite` returns. */
module WriteRounds {
  import opened ReactorWrites
  import opened WriteRuns

  /** The selector is inside continueWrite. */
  predicate InWrite(sel: Selector) {
    sel.Looping? || sel.Peeking? || sel.Writing? || sel.Testing? || sel.Removing? || sel.Rechecking? || sel.Clearing?
  }

  /** `continueWrite` is entered exactly at the end of the read part, for a key that is ready for writing and whose
      channel is open. */
  lemma EntersIff(n: Net, x: Action)
    requires Enabled(n, x)
    ensures !InWrite(n.sel) && InWrite(Apply(n, x).sel) <==>
              x.FinishRead? && n.sel.key.writable && n.chans[n.sel.key.conn].open
    ensures !InWrite(n.sel) && InWrite(Apply(n, x).sel) ==>
              Apply(n, x).sel == Looping(n.sel.key.conn, n.sel.todo)
  {
  }

  /** It returns exactly when the channel has taken only a part of the first buffer, when a message was added after
      the loop had found the queue empty, or when it has dropped the write interest. */
  lemma ReturnsIff(n: Net, x: Action)
    requires Enabled(n, x) && InWrite(n.sel)
    ensures InWrite(Apply(n, x).sel) ==> Apply(n, x).sel.conn == n.sel.conn && Apply(n, x).sel.todo == n.sel.todo
    ensures !InWrite(Apply(n, x).sel) ==> Apply(n, x).sel == Handling(n.sel.todo)
    ensures !InWrite(Apply(n, x).sel) <==>
              || (x.TestTop? && var b := n.chans[n.sel.conn].bufs[n.sel.top]; b.pos < |b.data|)
              || (x.Recheck? && n.chans[n.sel.conn].queue != [])
              || x.Clear?
  {
  }

  // ---------------------------------------------------------------- channels that were not selected for writing

  predicate WantsWrite(k: Key, c: ConnId) { k.Channel? && k.writable && k.conn == c }

  predicate NoneWants(ks: seq<Key>, c: ConnId) { forall i :: 0 <= i < |ks| ==> !WantsWrite(ks[i], c) }

  /** The round of the selector does not come to writing `c`. */
  predicate PassesOver(n: Net, c: ConnId) {
    && (n.sel.Dead? || n.sel.Selecting? || NoneWants(n.sel.todo, c))
    && (n.sel.Reading? ==> !WantsWrite(n.sel.key, c))
    && (InWrite(n.sel) ==> n.sel.conn != c)
  }

  predicate NoSelect(xs: seq<Action>) { forall i :: 0 <= i < |xs| ==> !xs[i].Select? }

  lemma StepPasses(n: Net, x: Action, c: ConnId)
    requires PassesOver(n, c) && Enabled(n, x) && !x.Select? && HasChan(n, c)
    ensures PassesOver(Apply(n, x), c)
  {
  }

  lemma StepUntouched(n: Net, x: Action, c: ConnId)
    requires PassesOver(n, c) && Enabled(n, x) && !x.Select? && HasChan(n, c)
    ensures HasChan(Apply(n, x), c) && Apply(n, x).chans[c].wrote == n.chans[c].wrote
    ensures n.chans[c].writeInterest ==> Apply(n, x).chans[c].writeInterest
  {
  }

  lemma {:induction false} RunPasses(n: Net, xs: seq<Action>, c: ConnId)
    requires PassesOver(n, c) && CanRun(n, xs) && NoSelect(xs) && HasChan(n, c)
    ensures HasChan(RunAll(n, xs), c) && RunAll(n, xs).chans[c].wrote == n.chans[c].wrote
    ensures n.chans[c].writeInterest ==> RunAll(n, xs).chans[c].writeInterest
    decreases |xs|
  {
    if xs != [] {
      StepPasses(n, xs[0], c);
      StepUntouched(n, xs[0], c);
      assert NoSelect(xs[1..]);
      RunPasses(Apply(n, xs[0]), xs[1..], c);
    }
  }

  /** Until the next select, a channel that was not selected for writing takes no byte and keeps its interest,
      whatever the senders do. */
  lemma OnlySelectedAreWritten(n: Net, ready: seq<Key>, xs: seq<Action>, c: ConnId)
    requires Enabled(n, Select(ready)) && NoneWants(ready, c) && HasChan(n, c)
    requires CanRun(Apply(n, Select(ready)), xs) && NoSelect(xs)
    ensures var m := RunAll(Apply(n, Select(ready)), xs);
            && HasChan(m, c) && m.chans[c].wrote == n.chans[c].wrote
            && (n.chans[c].writeInterest ==> m.chans[c].writeInterest)
  {
    RunPasses(Apply(n, Select(ready)), xs, c);
  }

  // ---------------------------------------------------------------- the queue of the selector

  /** The connections whose interest tasks a run queues, and those whose tasks it runs, in order. */
  function Asked(n: Net, xs: seq<Action>): seq<ConnId>
    requires CanRun(n, xs)
    decreases |xs|
  {
    if xs == [] then []
    else (if xs[0].AskInterest? then [n.senders[xs[0].worker].conn] else []) + Asked(Apply(n, xs[0]), xs[1..])
  }

  function Ran(n: Net, xs: seq<Action>): seq<ConnId>
    requires CanRun(n, xs)
    decreases |xs|
  {
    if xs == [] then [] else (if xs[0].RunTask? then [n.tasks[0]] else []) + Ran(Apply(n, xs[0]), xs[1..])
  }

  lemma StepTasks(n: Net, x: Action)
    requires Enabled(n, x)
    ensures n.tasks + (if x.AskInterest? then [n.senders[x.worker].conn] else []) ==
            (if x.RunTask? then [n.tasks[0]] else []) + Apply(n, x).tasks
  {
  }

  lemma Regroup(tasks: seq<ConnId>, one: seq<ConnId>, asked: seq<ConnId>, first: seq<ConnId>, next: seq<ConnId>,
                ran: seq<ConnId>, left: seq<ConnId>)
    requires tasks + one == first + next && next + asked == ran + left
    ensures tasks + (one + asked) == (first + ran) + left
  {
    calc {
      tasks + (one + asked);
    ==
      (tasks + one) + asked;
    ==
      first + (next + asked);
    ==
      (first + ran) + left;
    }
  }

  /** Interest tasks run in the order in which they were queued, each once. */
  lemma {:induction false} TasksInOrder(n: Net, xs: seq<Action>)
    requires CanRun(n, xs)
    ensures n.tasks + Asked(n, xs) == Ran(n, xs) + RunAll(n, xs).tasks
    decreases |xs|
  {
    if xs != [] {
      var m := Apply(n, xs[0]);
      TasksInOrder(m, xs[1..]);
      StepTasks(n, xs[0]);
      Regroup(n.tasks, if xs[0].AskInterest? then [n.senders[xs[0].worker].conn] else [], Asked(m, xs[1..]),
              if xs[0].RunTask? then [n.tasks[0]] else [], m.tasks, Ran(m, xs[1..]), RunAll(m, xs[1..]).tasks);
    }
  }
}
