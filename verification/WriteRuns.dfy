/** Runs of the write side: every interleaving of the selector thread and the sending workers, every
    size of partial write and every order of ready keys. */
module WriteRuns {
  import opened Framing
  import opened WriteQueue
  import opened ReactorWrites
  import opened WriteInvariant

  /** No connection yet, the selector about to select, the workers outside send. */
  function Init(workers: nat): Net {
    Net([], [], false, Selecting, seq(workers, _ => Quiet))
  }

  predicate CanRun(n: Net, xs: seq<Action>)
    decreases |xs|
  {
    xs == [] || (Enabled(n, xs[0]) && CanRun(Apply(n, xs[0]), xs[1..]))
  }

  function RunAll(n: Net, xs: seq<Action>): Net
    requires CanRun(n, xs)
    decreases |xs|
  {
    if xs == [] then n else RunAll(Apply(n, xs[0]), xs[1..])
  }

  lemma {:induction false} RunInv(n: Net, xs: seq<Action>)
    requires Inv(n) && CanRun(n, xs)
    ensures Inv(RunAll(n, xs))
    decreases |xs|
  {
    if xs != [] {
      StepInv(n, xs[0]);
      RunInv(Apply(n, xs[0]), xs[1..]);
    }
  }

  lemma InitRunInv(workers: nat, xs: seq<Action>)
    requires CanRun(Init(workers), xs)
    ensures Inv(RunAll(Init(workers), xs))
  {
    RunInv(Init(workers), xs);
  }

  /** No lost write: in every reachable state an open channel with a non-empty write queue has write
      interest, or a task that will set it, or a sender about to queue that task. */
  lemma NoLostWrite(workers: nat, xs: seq<Action>, c: ConnId)
    requires CanRun(Init(workers), xs)
    requires var n := RunAll(Init(workers), xs); HasChan(n, c) && n.chans[c].open && n.chans[c].queue != []
    ensures var n := RunAll(Init(workers), xs);
            n.chans[c].writeInterest || c in n.tasks || exists w :: IsAsking(n, w, c)
  {
    InitRunInv(workers, xs);
    assert ChanOk(RunAll(Init(workers), xs), c);
  }

  /** No lost wakeup: the selector is never parked over a queued task unless a wakeup is pending or a
      worker is about to issue one. */
  lemma NoLostWakeup(workers: nat, xs: seq<Action>)
    requires CanRun(Init(workers), xs)
    requires var n := RunAll(Init(workers), xs); n.sel.Selecting? && n.tasks != []
    ensures var n := RunAll(Init(workers), xs);
            n.wakeup || exists w :: IsWaking(n, w)
  {
    InitRunInv(workers, xs);
  }

  predicate AllQuiet(n: Net) { forall w :: 0 <= w < |n.senders| ==> n.senders[w].Quiet? }

  predicate IsSelectorStep(x: Action) { !x.BeginSend? && !x.AddBuffer? && !x.AskInterest? && !x.Wake? }

  /** When the selector is parked, no wakeup is pending and no worker is sending, the selector watches
      every open channel that still has something to write. */
  lemma ParkedSelectorWatchesAll(workers: nat, xs: seq<Action>, c: ConnId)
    requires CanRun(Init(workers), xs)
    requires var n := RunAll(Init(workers), xs);
             && n.sel.Selecting? && !n.wakeup && AllQuiet(n)
             && HasChan(n, c) && n.chans[c].open && n.chans[c].queue != []
    ensures RunAll(Init(workers), xs).chans[c].writeInterest
  {
    NoLostWrite(workers, xs, c);
    InitRunInv(workers, xs);
  }

  /** Conservation on every channel: the bytes written followed by the unwritten bytes of the queued
      buffers are all messages in the order they were enqueued; a closed or empty queue included. */
  lemma WritesInOrder(workers: nat, xs: seq<Action>, c: ConnId)
    requires CanRun(Init(workers), xs) && HasChan(RunAll(Init(workers), xs), c)
    ensures var ch := RunAll(Init(workers), xs).chans[c];
            && ch.wrote + Unwritten(ch.bufs) == Concat(Messages(ch.bufs))
            && (ch.queue == [] ==> ch.wrote == Concat(Messages(ch.bufs)))
  {
    var ch := RunAll(Init(workers), xs).chans[c];
    InitRunInv(workers, xs);
    assert ChanOk(RunAll(Init(workers), xs), c);
    NothingLost(ch.bufs, Head(ch));
    if ch.queue == [] { NothingLeft(ch.bufs); }
  }

  /** The message a step enqueues on `c`. */
  function EnqueuedBy(n: Net, x: Action, c: ConnId): seq<Bytes>
    requires Enabled(n, x)
  {
    if x.AddBuffer? && n.senders[x.worker].conn == c then [n.senders[x.worker].msg] else []
  }

  /** Messages are only ever appended, one by each `writeQueue.add`, and written bytes never change. */
  lemma StepAppends(n: Net, x: Action, c: ConnId)
    requires Enabled(n, x) && HasChan(n, c)
    ensures HasChan(Apply(n, x), c)
    ensures Messages(Apply(n, x).chans[c].bufs) == Messages(n.chans[c].bufs) + EnqueuedBy(n, x, c)
    ensures n.chans[c].wrote <= Apply(n, x).chans[c].wrote
  {
    var bs, bs' := n.chans[c].bufs, Apply(n, x).chans[c].bufs;
    if x.Write? && n.sel.conn == c {
      SameMessages(bs, bs');
    } else if x.AddBuffer? && n.senders[x.worker].conn == c {
      MessagesSnoc(bs, WriteBuffer(n.senders[x.worker].msg, 0));
    }
  }

  lemma {:induction false} SameMessages(bs: seq<WriteBuffer>, bs': seq<WriteBuffer>)
    requires |bs| == |bs'| && forall i :: 0 <= i < |bs| ==> bs[i].data == bs'[i].data
    ensures Messages(bs) == Messages(bs')
  {
    if bs != [] { SameMessages(bs[..|bs| - 1], bs'[..|bs| - 1]); }
  }

  /** `remove` removes the buffer that was peeked, and only after all of its bytes were written. */
  lemma RemoveTakesThePeeked(workers: nat, xs: seq<Action>)
    requires CanRun(Init(workers), xs)
    requires RunAll(Init(workers), xs).sel.Removing?
    ensures var n := RunAll(Init(workers), xs);
            && CanRemove(n)
            && n.chans[n.sel.conn].queue[0] == n.sel.top
            && n.sel.top < |n.chans[n.sel.conn].bufs|
            && Remaining(n.chans[n.sel.conn].bufs[n.sel.top]) == []
  {
    InitRunInv(workers, xs);
  }

  /** Accepting a connection uses an id that was never used before and leaves the others alone. */
  lemma IdsAreNeverReused(n: Net, x: Action, c: ConnId)
    requires Enabled(n, x)
    ensures HasChan(n, c) ==> HasChan(Apply(n, x), c)
    ensures !HasChan(n, c) && HasChan(Apply(n, x), c) ==>
              x == Accept && c == |n.chans| && Apply(n, x).chans[c] == Chan([], [], false, true, [])
    ensures x == Accept && HasChan(n, c) ==> Apply(n, x).chans[c] == n.chans[c]
  {
  }

  /** The selector loop dies exactly when it runs an interest task of a closed channel. */
  lemma DiesIff(n: Net, x: Action)
    requires Enabled(n, x) && !n.sel.Dead?
    ensures Apply(n, x).sel.Dead? <==> x == RunTask && !n.chans[n.tasks[0]].open
  {
  }

  /** While it is alive, the selector loop never gets stuck: outside select it can always take its next step (so
      `remove` never meets an empty queue), and inside select it can return as soon as a task is queued and the
      senders are done. */
  lemma SelectorNeverStuck(workers: nat, xs: seq<Action>)
    requires CanRun(Init(workers), xs)
    ensures var n := RunAll(Init(workers), xs);
            && (!n.sel.Selecting? && !n.sel.Dead? ==> exists x :: Enabled(n, x) && IsSelectorStep(x))
            && (n.sel.Selecting? && n.tasks != [] && AllQuiet(n) ==> Enabled(n, Select([])))
  {
    var n := RunAll(Init(workers), xs);
    InitRunInv(workers, xs);
    if !n.sel.Selecting? && !n.sel.Dead? {
      var x := match n.sel
        case Draining(_) => TestTasks
        case Running(_) => RunTask
        case Handling(todo) => if todo != [] && todo[0].Server? then Accept else NextKey
        case Reading(_, _) => FinishRead
        case Looping(_, _) => TestQueue
        case Peeking(_, _) => Peek
        case Writing(_, _, _) => Write(0)
        case Testing(_, _, _) => TestTop
        case Removing(_, _, _) => Remove
        case Rechecking(_, _) => Recheck
        case _ => Clear;
      if n.sel.Writing? || n.sel.Testing? {
        var ch := n.chans[n.sel.conn];
        assert ChanOk(n, n.sel.conn);
        assert BufferOk(ch.bufs[n.sel.top], n.sel.top, Head(ch));
      }
      assert Enabled(n, x);
    }
  }
}
