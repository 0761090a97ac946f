/** What every interleaving of senders and selector keeps: no buffer is lost, no write is forgotten,
    no wakeup is missed. */
module WriteInvariant {
  import opened WriteQueue
  import opened ReactorWrites

  ghost predicate IsAsking(n: Net, w: Worker, c: ConnId) { HasSender(n, w) && n.senders[w] == Asking(c) }

  ghost predicate IsWaking(n: Net, w: Worker) { HasSender(n, w) && n.senders[w] == Waking }

  ghost predicate Asked(n: Net, c: ConnId) { exists w :: IsAsking(n, w, c) }

  ghost predicate WakeComing(n: Net) { n.wakeup || exists w :: IsWaking(n, w) }

  /** Write interest in `c` is going to be set: the task is queued or a sender is about to queue it. */
  ghost predicate Promised(n: Net, c: ConnId) {
    c in n.tasks || Asked(n, c)
  }

  function Head(ch: Chan): int { |ch.bufs| - |ch.queue| }

  ghost predicate QueueOk(ch: Chan) {
    && |ch.queue| <= |ch.bufs|
    && (forall i :: 0 <= i < |ch.queue| ==> ch.queue[i] == Head(ch) + i)
    && WrittenUpTo(ch.bufs, Head(ch))
    && ch.wrote == Written(ch.bufs)
  }

  /** The heart of the matter: an open channel with something to write will be written. */
  ghost predicate NotForgotten(n: Net, c: ConnId)
    requires HasChan(n, c)
  {
    n.chans[c].open && n.chans[c].queue != [] ==> n.chans[c].writeInterest || Promised(n, c)
  }

  ghost predicate ChanOk(n: Net, c: ConnId) {
    HasChan(n, c) ==> QueueOk(n.chans[c]) && NotForgotten(n, c)
  }

  ghost predicate SenderOk(n: Net, w: Worker) {
    HasSender(n, w) ==>
      match n.senders[w]
      case Adding(c, _) => HasChan(n, c)
      case Asking(c) => HasChan(n, c)
      case _ => true
  }

  /** Inside `continueWrite` the queue may only have grown since the selector looked at it. */
  ghost predicate SelOk(n: Net) {
    match n.sel
    case Selecting => true
    case Dead => true
    case Draining(_) => true
    case Running(_) => n.tasks != []
    case Handling(_) => true
    case Reading(k, _) => k.Channel? && HasChan(n, k.conn)
    case Looping(c, _) => HasChan(n, c)
    case Peeking(c, _) => HasChan(n, c) && n.chans[c].queue != []
    case Writing(c, top, _) => HasChan(n, c) && n.chans[c].queue != [] && n.chans[c].queue[0] == top
    case Testing(c, top, _) => HasChan(n, c) && n.chans[c].queue != [] && n.chans[c].queue[0] == top
    case Removing(c, top, _) =>
      && HasChan(n, c) && n.chans[c].queue != [] && n.chans[c].queue[0] == top && top < |n.chans[c].bufs|
      && n.chans[c].bufs[top].pos == |n.chans[c].bufs[top].data|
    case Rechecking(c, _) => HasChan(n, c) && (n.chans[c].queue != [] ==> Promised(n, c))
    case Clearing(c, _) => HasChan(n, c) && (n.chans[c].queue != [] ==> Promised(n, c))
  }

  ghost predicate TodoOk(n: Net) {
    && (!n.sel.Selecting? && !n.sel.Dead? ==>
          forall i :: 0 <= i < |n.sel.todo| && n.sel.todo[i].Channel? ==> HasChan(n, n.sel.todo[i].conn))
    && (forall i :: 0 <= i < |n.tasks| ==> HasChan(n, n.tasks[i]))
  }

  /** Outside the draining loop, and while the loop is alive, a queued task has its wakeup pending or about to be
      issued. */
  ghost predicate WakeOk(n: Net) {
    n.tasks != [] && !n.sel.Draining? && !n.sel.Running? && !n.sel.Dead? ==>
      WakeComing(n)
  }

  ghost predicate Inv(n: Net) {
    && (forall c: ConnId :: ChanOk(n, c))
    && (forall w: Worker :: SenderOk(n, w))
    && SelOk(n) && TodoOk(n) && WakeOk(n)
  }

  lemma SendersUntouched(n: Net, n': Net)
    requires n'.senders == n.senders
    ensures forall c :: Asked(n, c) ==> Asked(n', c)
    ensures WakeComing(n) && (n.wakeup ==> n'.wakeup) ==> WakeComing(n')
  {
    forall c | Asked(n, c) ensures Asked(n', c) {
      var w :| IsAsking(n, w, c);
      assert IsAsking(n', w, c);
    }
    if w :| IsWaking(n, w) { assert IsWaking(n', w); }
  }

  /** A step of one sender breaks no promise except possibly its own. */
  lemma PromisesKept(n: Net, n': Net, w: Worker)
    requires HasSender(n, w) && |n'.senders| == |n.senders|
    requires forall v :: 0 <= v < |n.senders| && v != w ==> n'.senders[v] == n.senders[v]
    requires forall c :: c in n.tasks ==> c in n'.tasks
    requires n.senders[w].Asking? ==> n.senders[w].conn in n'.tasks
    requires n.wakeup || n.senders[w].Waking? ==> n'.wakeup
    ensures forall c :: Promised(n, c) ==> Promised(n', c)
    ensures WakeComing(n) ==> WakeComing(n')
  {
    forall c | Promised(n, c) && c !in n'.tasks ensures Promised(n', c) {
      var v :| IsAsking(n, v, c);
      assert IsAsking(n', v, c);
    }
    if v :| IsWaking(n, v) {
      assert v != w ==> IsWaking(n', v);
    }
  }

  lemma WriteKeepsQueue(ch: Chan, top: nat, count: nat)
    requires QueueOk(ch) && ch.queue != [] && ch.queue[0] == top
    requires top < |ch.bufs| && ch.bufs[top].pos + count <= |ch.bufs[top].data|
    ensures QueueOk(Took(ch, top, count))
  {
    WriteHead(ch.bufs, top, count);
  }

  lemma SetKeepsChan(n: Net, ch: Chan, sel: Selector, c: ConnId, d: ConnId)
    requires ChanOk(n, d) && HasChan(n, c) && QueueOk(ch)
    requires ch.queue == n.chans[c].queue && ch.open == n.chans[c].open && ch.writeInterest == n.chans[c].writeInterest
    ensures ChanOk(SetChan(n, c, ch).(sel := sel), d)
  {
    SendersUntouched(n, SetChan(n, c, ch).(sel := sel));
  }

  lemma WriteKeepsChan(n: Net, count: nat, d: ConnId)
    requires CanWrite(n, count) && SelOk(n) && ChanOk(n, n.sel.conn) && ChanOk(n, d)
    ensures ChanOk(DoWrite(n, count), d)
  {
    var c, top := n.sel.conn, n.sel.top;
    WriteKeepsQueue(n.chans[c], top, count);
    SetKeepsChan(n, Took(n.chans[c], top, count), Testing(c, top, n.sel.todo), c, d);
  }

  lemma StepWrite(n: Net, count: nat)
    requires Inv(n) && CanWrite(n, count)
    ensures Inv(DoWrite(n, count))
  {
    var n' := DoWrite(n, count);
    SendersUntouched(n, n');
    forall d: ConnId ensures ChanOk(n', d) {
      assert ChanOk(n, n.sel.conn) && ChanOk(n, d);
      WriteKeepsChan(n, count, d);
    }
    forall w: Worker ensures SenderOk(n', w) { assert SenderOk(n, w); }
  }

  lemma StepAddBuffer(n: Net, w: Worker)
    requires Inv(n) && CanAddBuffer(n, w)
    ensures Inv(DoAddBuffer(n, w))
  {
    var n' := DoAddBuffer(n, w);
    var Adding(c, m) := n.senders[w];
    assert ChanOk(n, c);
    Enqueue(n.chans[c].bufs, Head(n.chans[c]), m);
    PromisesKept(n, n', w);
    assert IsAsking(n', w, c);
    forall d: ConnId ensures ChanOk(n', d) { assert ChanOk(n, d); }
    forall v: Worker ensures SenderOk(n', v) { assert SenderOk(n, v); }
  }

  lemma StepSender(n: Net, x: Action)
    requires Inv(n) && Enabled(n, x)
    requires x.BeginSend? || x.AskInterest? || x.Wake?
    ensures Inv(Apply(n, x))
  {
    var n' := Apply(n, x);
    assert SenderOk(n, x.worker);
    PromisesKept(n, n', x.worker);
    assert x.AskInterest? ==> IsWaking(n', x.worker);
    forall d: ConnId ensures ChanOk(n', d) { assert ChanOk(n, d); }
    forall v: Worker ensures SenderOk(n', v) { assert SenderOk(n, v); }
  }

  lemma StepTasks(n: Net, x: Action)
    requires Inv(n) && Enabled(n, x)
    requires x.Select? || x.TestTasks? || x.RunTask? || x.NextKey? || x.Accept? || x.EndOfStream? || x.FinishRead?
    ensures Inv(Apply(n, x))
  {
    var n' := Apply(n, x);
    SendersUntouched(n, n');
    forall d: ConnId ensures ChanOk(n', d) { assert ChanOk(n, d); }
    forall v: Worker ensures SenderOk(n', v) { assert SenderOk(n, v); }
  }

  lemma StepLook(n: Net, x: Action)
    requires Inv(n) && Enabled(n, x)
    requires x.TestQueue? || x.Peek? || x.TestTop? || x.Recheck?
    ensures Inv(Apply(n, x))
  {
    var n' := Apply(n, x);
    SendersUntouched(n, n');
    assert ChanOk(n, n.sel.conn);
    forall d: ConnId ensures ChanOk(n', d) { assert ChanOk(n, d); }
    forall v: Worker ensures SenderOk(n', v) { assert SenderOk(n, v); }
  }

  lemma StepUpdate(n: Net, x: Action)
    requires Inv(n) && Enabled(n, x) && (x.Remove? || x.Clear?)
    ensures Inv(Apply(n, x))
  {
    var n' := Apply(n, x);
    SendersUntouched(n, n');
    assert ChanOk(n, n.sel.conn);
    forall d: ConnId ensures ChanOk(n', d) { assert ChanOk(n, d); }
    forall v: Worker ensures SenderOk(n', v) { assert SenderOk(n, v); }
  }

  lemma StepInv(n: Net, x: Action)
    requires Inv(n) && Enabled(n, x)
    ensures Inv(Apply(n, x))
  {
    match x
    case Write(count) => StepWrite(n, count);
    case AddBuffer(w) => StepAddBuffer(n, w);
    case BeginSend(_, _, _) => StepSender(n, x);
    case AskInterest(_) => StepSender(n, x);
    case Wake(_) => StepSender(n, x);
    case TestQueue => StepLook(n, x);
    case Peek => StepLook(n, x);
    case TestTop => StepLook(n, x);
    case Remove => StepUpdate(n, x);
    case Recheck => StepLook(n, x);
    case Clear => StepUpdate(n, x);
    case _ => StepTasks(n, x);
  }
}
