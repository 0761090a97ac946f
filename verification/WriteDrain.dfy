/** The write side can always catch up: when no message is sent any more, the channels take bytes and nothing is
    addressed to a closed channel, some run empties the write queue of every open channel. */
module WriteDrain {
  import opened WriteQueue
  import opened ReactorWrites
  import opened WriteInvariant
  import opened WriteRuns

  /** No send begins and no channel is closed. */
  predicate NoInput(x: Action) { !x.BeginSend? && !x.EndOfStream? }

  predicate AllNoInput(xs: seq<Action>) { forall i :: 0 <= i < |xs| ==> NoInput(xs[i]) }

  predicate IsStep(n: Net, x: Action, m: Net) { Enabled(n, x) && m == Apply(n, x) }

  /** Some run without sends and closings goes from `n` to `m`. */
  ghost predicate Leads(n: Net, m: Net) {
    exists xs :: CanRun(n, xs) && AllNoInput(xs) && RunAll(n, xs) == m
  }

  lemma LeadsSelf(n: Net)
    ensures Leads(n, n)
  {
    assert CanRun(n, []) && AllNoInput([]) && RunAll(n, []) == n;
  }

  lemma FirstStep(n: Net, xs: seq<Action>) returns (m: Net)
    requires CanRun(n, xs) && xs != []
    ensures IsStep(n, xs[0], m) && CanRun(m, xs[1..]) && RunAll(m, xs[1..]) == RunAll(n, xs)
  {
    m := Apply(n, xs[0]);
  }

  lemma StepBefore(n: Net, x: Action, m: Net, xs: seq<Action>) returns (ys: seq<Action>)
    requires IsStep(n, x, m) && CanRun(m, xs)
    ensures CanRun(n, ys) && RunAll(n, ys) == RunAll(m, xs) && (NoInput(x) && AllNoInput(xs) ==> AllNoInput(ys))
  {
    ys := [x] + xs;
    assert ys[1..] == xs;
  }

  /** One run after the other. */
  lemma {:induction false} JoinRuns(n: Net, xs: seq<Action>, m: Net, ys: seq<Action>) returns (zs: seq<Action>)
    requires CanRun(n, xs) && RunAll(n, xs) == m && CanRun(m, ys)
    ensures CanRun(n, zs) && RunAll(n, zs) == RunAll(m, ys) && (AllNoInput(xs) && AllNoInput(ys) ==> AllNoInput(zs))
    decreases |xs|
  {
    if xs == [] {
      zs := ys;
    } else {
      var k := FirstStep(n, xs);
      var us := JoinRuns(k, xs[1..], m, ys);
      zs := StepBefore(n, xs[0], k, us);
    }
  }

  lemma LeadsTrans(n: Net, m: Net, k: Net)
    requires Leads(n, m) && Leads(m, k)
    ensures Leads(n, k)
  {
    var xs :| CanRun(n, xs) && AllNoInput(xs) && RunAll(n, xs) == m;
    var ys :| CanRun(m, ys) && AllNoInput(ys) && RunAll(m, ys) == k;
    var zs := JoinRuns(n, xs, m, ys);
  }

  predicate Addressed(n: Net, c: ConnId) { HasChan(n, c) && n.chans[c].open }

  predicate SendsToOpen(n: Net, w: Worker) {
    HasSender(n, w) ==>
      match n.senders[w]
      case Adding(c, _) => Addressed(n, c)
      case Asking(c) => Addressed(n, c)
      case _ => true
  }

  /** The selector loop has not ended, and no interest task that could end it is queued or on its way. */
  ghost predicate Alive(n: Net) {
    && !n.sel.Dead?
    && (forall c :: c in n.tasks ==> Addressed(n, c))
    && (forall w: Worker :: SendsToOpen(n, w))
  }

  ghost predicate Sound(n: Net) { Inv(n) && Alive(n) }

  /** What a run without sends may do to the channels: more messages are enqueued, none is closed. */
  ghost predicate Kept(n: Net, m: Net) {
    && |n.chans| <= |m.chans|
    && forall c :: 0 <= c < |n.chans| ==>
         m.chans[c].open == n.chans[c].open && Messages(n.chans[c].bufs) <= Messages(m.chans[c].bufs)
  }

  lemma KeptTrans(n: Net, m: Net, k: Net)
    requires Kept(n, m) && Kept(m, k)
    ensures Kept(n, k)
  {
  }

  lemma StepKept(n: Net, x: Action, m: Net)
    requires IsStep(n, x, m) && NoInput(x)
    ensures Kept(n, m)
  {
    forall c | 0 <= c < |n.chans|
      ensures c < |m.chans| && m.chans[c].open == n.chans[c].open
              && Messages(n.chans[c].bufs) <= Messages(m.chans[c].bufs)
    {
      StepAppends(n, x, c);
    }
  }

  lemma StaysOpen(n: Net, x: Action, m: Net, c: ConnId)
    requires IsStep(n, x, m) && NoInput(x) && Addressed(n, c)
    ensures Addressed(m, c)
  {
  }

  lemma TaskFrom(n: Net, x: Action, m: Net, c: ConnId)
    requires IsStep(n, x, m) && c in m.tasks
    ensures c in n.tasks || (x.AskInterest? && n.senders[x.worker] == Asking(c))
  {
  }

  lemma SenderFrom(n: Net, x: Action, m: Net, w: Worker)
    requires IsStep(n, x, m) && NoInput(x) && HasSender(m, w)
    ensures HasSender(n, w)
    ensures m.senders[w].Adding? ==> n.senders[w] == m.senders[w]
    ensures m.senders[w].Asking? ==>
              (n.senders[w].Adding? || n.senders[w].Asking?) && n.senders[w].conn == m.senders[w].conn
  {
  }

  lemma StepAlive(n: Net, x: Action, m: Net)
    requires Alive(n) && IsStep(n, x, m) && NoInput(x) && !m.sel.Dead?
    ensures Alive(m)
  {
    forall c | c in m.tasks ensures Addressed(m, c) {
      TaskFrom(n, x, m, c);
      if c !in n.tasks { assert SendsToOpen(n, x.worker); }
      StaysOpen(n, x, m, c);
    }
    forall w: Worker | HasSender(m, w) ensures SendsToOpen(m, w) {
      SenderFrom(n, x, m, w);
      assert SendsToOpen(n, w);
      if m.senders[w].Adding? || m.senders[w].Asking? { StaysOpen(n, x, m, m.senders[w].conn); }
    }
  }

  lemma StepSound(n: Net, x: Action, m: Net)
    requires Sound(n) && IsStep(n, x, m) && NoInput(x)
    ensures Sound(m)
  {
    StepInv(n, x);
    if x.RunTask? { assert n.tasks[0] in n.tasks; }
    DiesIff(n, x);
    StepAlive(n, x, m);
  }

  /** One step of a run. */
  lemma Step(n: Net, x: Action) returns (m: Net)
    requires Sound(n) && Enabled(n, x) && NoInput(x)
    ensures m == Apply(n, x) && Leads(n, m) && Sound(m) && Kept(n, m)
  {
    m := Apply(n, x);
    StepSound(n, x, m);
    StepKept(n, x, m);
    assert CanRun(m, []);
    var xs := StepBefore(n, x, m, []);
  }

  /** Run on from `m`. */
  ghost predicate Reaches(n: Net, m: Net) { Leads(n, m) && Sound(m) && Kept(n, m) }

  lemma ReachesSelf(n: Net)
    requires Sound(n)
    ensures Reaches(n, n)
  {
    LeadsSelf(n);
  }

  lemma ReachesTrans(n: Net, m: Net, k: Net)
    requires Reaches(n, m) && Reaches(m, k)
    ensures Reaches(n, k)
  {
    LeadsTrans(n, m, k);
    KeptTrans(n, m, k);
  }

  // ---------------------------------------------------------------- the senders return

  function SenderRank(s: Sender): nat {
    match s
    case Quiet => 0
    case Adding(_, _) => 3
    case Asking(_) => 2
    case Waking => 1
  }

  /** Only sender w moves. */
  predicate OnlySender(n: Net, m: Net, w: Worker) {
    |m.senders| == |n.senders| && forall v :: 0 <= v < |n.senders| && v != w ==> m.senders[v] == n.senders[v]
  }

  lemma SendStep(n: Net, w: Worker) returns (m: Net)
    requires Sound(n) && HasSender(n, w) && !n.senders[w].Quiet?
    ensures Reaches(n, m) && OnlySender(n, m, w) && SenderRank(m.senders[w]) < SenderRank(n.senders[w])
  {
    assert SenderOk(n, w);
    match n.senders[w]
    case Adding(_, _) => m := Step(n, AddBuffer(w));
    case Asking(_) => m := Step(n, AskInterest(w));
    case Waking => m := Step(n, Wake(w));
  }

  lemma {:induction false} FinishSend(n: Net, w: Worker) returns (m: Net)
    requires Sound(n) && HasSender(n, w)
    ensures Reaches(n, m) && OnlySender(n, m, w) && m.senders[w].Quiet?
    decreases SenderRank(n.senders[w])
  {
    if n.senders[w].Quiet? {
      ReachesSelf(n);
      m := n;
    } else {
      var a := SendStep(n, w);
      m := FinishSend(a, w);
      ReachesTrans(n, a, m);
    }
  }

  /** The senders below k return. */
  lemma {:induction false} FinishSends(n: Net, k: nat) returns (m: Net)
    requires Sound(n) && k <= |n.senders|
    ensures Reaches(n, m) && |m.senders| == |n.senders| && forall v :: 0 <= v < k ==> m.senders[v].Quiet?
  {
    if k == 0 {
      ReachesSelf(n);
      m := n;
    } else {
      var a := FinishSends(n, k - 1);
      m := FinishSend(a, k - 1);
      ReachesTrans(n, a, m);
    }
  }

  // ---------------------------------------------------------------- one channel is written

  ghost predicate Still(n: Net) { Sound(n) && AllQuiet(n) }

  /** The selector moves on, and nobody wakes it. */
  ghost predicate Moves(n: Net, m: Net) { Reaches(n, m) && AllQuiet(m) && (m.wakeup ==> n.wakeup) }

  lemma MovesTrans(n: Net, m: Net, k: Net)
    requires Moves(n, m) && Moves(m, k)
    ensures Moves(n, k)
  {
    ReachesTrans(n, m, k);
  }

  lemma Move(n: Net, x: Action) returns (m: Net)
    requires Still(n) && Enabled(n, x) && NoInput(x) && IsSelectorStep(x)
    ensures m == Apply(n, x) && Moves(n, m)
  {
    m := Step(n, x);
  }

  /** Only channel c changes. */
  predicate OnlyChan(n: Net, m: Net, c: ConnId) {
    && m.tasks == n.tasks && |m.chans| == |n.chans|
    && forall d :: 0 <= d < |n.chans| && d != c ==> m.chans[d] == n.chans[d]
  }

  lemma CanWriteAll(n: Net)
    requires Inv(n) && n.sel.Writing?
    ensures HasChan(n, n.sel.conn) && n.sel.top < |n.chans[n.sel.conn].bufs|
    ensures var b := n.chans[n.sel.conn].bufs[n.sel.top]; b.pos <= |b.data| && CanWrite(n, |b.data| - b.pos)
  {
    var ch := n.chans[n.sel.conn];
    assert ChanOk(n, n.sel.conn);
    assert BufferOk(ch.bufs[n.sel.top], n.sel.top, Head(ch));
  }

  /** The channel takes the rest of the first buffer. */
  lemma WriteRest(n: Net) returns (m: Net)
    requires Still(n) && n.sel.Writing?
    ensures Moves(n, m) && HasChan(n, n.sel.conn) && OnlyChan(n, m, n.sel.conn)
    ensures m.sel == Removing(n.sel.conn, n.sel.top, n.sel.todo)
            && m.chans[n.sel.conn].queue == n.chans[n.sel.conn].queue
  {
    CanWriteAll(n);
    var b := n.chans[n.sel.conn].bufs[n.sel.top];
    var a := Move(n, Write(|b.data| - b.pos));
    m := Move(a, TestTop);
    MovesTrans(n, a, m);
  }

  lemma OnlyChanTrans(n: Net, m: Net, k: Net, c: ConnId)
    requires OnlyChan(n, m, c) && OnlyChan(m, k, c)
    ensures OnlyChan(n, k, c)
  {
  }

  /** The selector looks at the first buffer. */
  lemma LookFirst(n: Net) returns (m: Net)
    requires Still(n) && n.sel.Looping? && HasChan(n, n.sel.conn) && n.chans[n.sel.conn].queue != []
    ensures Moves(n, m) && m.chans == n.chans && m.tasks == n.tasks
    ensures m.sel == Writing(n.sel.conn, n.chans[n.sel.conn].queue[0], n.sel.todo)
  {
    var a := Move(n, TestQueue);
    m := Move(a, Peek);
    MovesTrans(n, a, m);
  }

  lemma RemoveFirst(n: Net) returns (m: Net)
    requires Still(n) && n.sel.Removing? && HasChan(n, n.sel.conn)
    ensures Moves(n, m) && OnlyChan(n, m, n.sel.conn) && m.sel == Looping(n.sel.conn, n.sel.todo)
    ensures |m.chans[n.sel.conn].queue| < |n.chans[n.sel.conn].queue|
  {
    m := Move(n, Remove);
  }

  /** The first buffer is written and removed. */
  lemma WriteFirst(n: Net) returns (m: Net)
    requires Still(n) && n.sel.Looping? && HasChan(n, n.sel.conn) && n.chans[n.sel.conn].queue != []
    ensures Moves(n, m) && OnlyChan(n, m, n.sel.conn)
    ensures m.sel == n.sel && |m.chans[n.sel.conn].queue| < |n.chans[n.sel.conn].queue|
  {
    var a := LookFirst(n);
    var b := WriteRest(a);
    m := RemoveFirst(b);
    MovesTrans(n, a, b);
    MovesTrans(n, b, m);
    OnlyChanTrans(a, b, m, n.sel.conn);
  }

  /** The channel has nothing to write and is not watched for writing. */
  predicate Idle(ch: Chan) { ch.queue == [] && !ch.writeInterest }

  lemma WriteNone(n: Net) returns (m: Net)
    requires Still(n) && n.sel.Looping? && HasChan(n, n.sel.conn) && n.chans[n.sel.conn].queue == []
    ensures Moves(n, m) && OnlyChan(n, m, n.sel.conn)
    ensures m.sel == Handling(n.sel.todo) && Idle(m.chans[n.sel.conn])
  {
    var a := Move(n, TestQueue);
    var b := Move(a, Recheck);
    m := Move(b, Clear);
    MovesTrans(n, a, b);
    MovesTrans(n, b, m);
  }

  /** `continueWrite` leaves an empty queue when the channel takes all, and drops the write interest. */
  lemma {:induction false} WriteAll(n: Net) returns (m: Net)
    requires Still(n) && n.sel.Looping? && HasChan(n, n.sel.conn)
    ensures Moves(n, m) && OnlyChan(n, m, n.sel.conn)
    ensures m.sel == Handling(n.sel.todo) && Idle(m.chans[n.sel.conn])
    decreases |n.chans[n.sel.conn].queue|
  {
    if n.chans[n.sel.conn].queue == [] {
      m := WriteNone(n);
    } else {
      var a := WriteFirst(n);
      m := WriteAll(a);
      MovesTrans(n, a, m);
      OnlyChanTrans(n, a, m, n.sel.conn);
    }
  }

  // ---------------------------------------------------------------- the selector comes to rest

  /** The queued tasks run. */
  lemma {:induction false} RunTasks(n: Net) returns (m: Net)
    requires Still(n) && n.sel.Draining?
    ensures Moves(n, m) && m.sel == Handling(n.sel.todo) && m.tasks == []
    decreases |n.tasks|
  {
    var a := Move(n, TestTasks);
    if n.tasks == [] {
      m := a;
    } else {
      var b := Move(a, RunTask);
      m := RunTasks(b);
      MovesTrans(n, a, b);
      MovesTrans(n, b, m);
    }
  }

  function Distance(sel: Selector): nat {
    match sel
    case Reading(_, _) => 9
    case Peeking(_, _) => 8
    case Writing(_, _, _) => 7
    case Testing(_, _, _) => 6
    case Removing(_, _, _) => 5
    case Looping(_, _) => 4
    case Rechecking(_, _) => 2
    case Clearing(_, _) => 1
    case _ => 0
  }

  /** A step from inside a key brings the selector closer to the end of the key. */
  predicate Closer(n: Net, m: Net) {
    && Distance(n.sel) > 0 && (m.sel.Handling? || Distance(m.sel) > 0)
    && m.tasks == n.tasks && Distance(m.sel) < Distance(n.sel) && m.sel.todo == n.sel.todo
  }

  lemma LookStep(n: Net) returns (m: Net)
    requires Still(n) && (n.sel.Reading? || n.sel.Peeking? || n.sel.Removing?)
    ensures Moves(n, m) && Closer(n, m)
  {
    match n.sel
    case Reading(_, _) => m := Move(n, FinishRead);
    case Peeking(_, _) => m := Move(n, Peek);
    case _ => m := Move(n, Remove);
  }

  lemma EndStep(n: Net) returns (m: Net)
    requires Still(n) && (n.sel.Rechecking? || n.sel.Clearing?)
    ensures Moves(n, m) && Closer(n, m)
  {
    match n.sel
    case Rechecking(_, _) => m := Move(n, Recheck);
    case _ => m := Move(n, Clear);
  }

  lemma TestStep(n: Net) returns (m: Net)
    requires Still(n) && n.sel.Testing?
    ensures Moves(n, m) && Closer(n, m)
  {
    assert ChanOk(n, n.sel.conn);
    m := Move(n, TestTop);
  }

  lemma KeyStep(n: Net) returns (m: Net)
    requires Still(n) && Distance(n.sel) > 0
    ensures Moves(n, m) && Closer(n, m)
  {
    match n.sel
    case Writing(_, _, _) => m := WriteRest(n);
    case Testing(_, _, _) => m := TestStep(n);
    case Looping(_, _) => m := WriteAll(n);
    case Rechecking(_, _) => m := EndStep(n);
    case Clearing(_, _) => m := EndStep(n);
    case _ => m := LookStep(n);
  }

  lemma {:induction false} EndKey(n: Net) returns (m: Net)
    requires Still(n) && (n.sel.Handling? || Distance(n.sel) > 0)
    ensures Moves(n, m) && m.tasks == n.tasks && m.sel == Handling(n.sel.todo)
    decreases Distance(n.sel)
  {
    if n.sel.Handling? {
      ReachesSelf(n);
      m := n;
    } else {
      var a := KeyStep(n);
      m := EndKey(a);
      MovesTrans(n, a, m);
    }
  }

  /** One key is handled. */
  lemma HandleKey(n: Net) returns (m: Net)
    requires Still(n) && n.sel.Handling? && n.sel.todo != []
    ensures Moves(n, m) && m.tasks == n.tasks && m.sel == Handling(n.sel.todo[1..])
  {
    if n.sel.todo[0].Server? {
      m := Move(n, Accept);
    } else {
      var a := Move(n, NextKey);
      m := EndKey(a);
      MovesTrans(n, a, m);
    }
  }

  lemma {:induction false} HandleKeys(n: Net) returns (m: Net)
    requires Still(n) && n.sel.Handling?
    ensures Moves(n, m) && m.tasks == n.tasks && m.sel.Selecting?
    decreases |n.sel.todo|
  {
    if n.sel.todo == [] {
      m := Move(n, NextKey);
    } else {
      var a := HandleKey(n);
      m := HandleKeys(a);
      MovesTrans(n, a, m);
    }
  }

  lemma HandleTasks(n: Net) returns (m: Net)
    requires Still(n) && n.sel.Draining?
    ensures Moves(n, m) && m.tasks == [] && m.sel.Selecting?
  {
    var a := RunTasks(n);
    m := HandleKeys(a);
    MovesTrans(n, a, m);
  }

  /** The selector comes back to select. */
  lemma ComesBack(n: Net) returns (m: Net)
    requires Still(n)
    ensures Moves(n, m) && m.sel.Selecting?
  {
    match n.sel
    case Selecting =>
      ReachesSelf(n);
      m := n;
    case Draining(_) => m := HandleTasks(n);
    case Running(_) =>
      var a := Move(n, RunTask);
      m := HandleTasks(a);
      MovesTrans(n, a, m);
    case _ =>
      var a := EndKey(n);
      m := HandleKeys(a);
      MovesTrans(n, a, m);
  }

  ghost predicate Calm(n: Net) { Still(n) && n.sel.Selecting? && n.tasks == [] && !n.wakeup }

  /** ... and runs the tasks that are left: a wakeup is pending for them. */
  lemma CalmsDown(n: Net) returns (m: Net)
    requires Still(n)
    ensures Moves(n, m) && Calm(m)
  {
    var a := ComesBack(n);
    if a.tasks == [] && !a.wakeup {
      m := a;
    } else {
      assert a.wakeup by { assert WakeOk(a); }
      var b := Move(a, Select([]));
      m := HandleTasks(b);
      MovesTrans(n, a, b);
      MovesTrans(n, b, m);
    }
  }

  // ---------------------------------------------------------------- all channels are written

  lemma IsWatched(n: Net, c: ConnId)
    requires Calm(n) && Addressed(n, c) && n.chans[c].queue != []
    ensures n.chans[c].writeInterest
  {
    assert ChanOk(n, c);
  }

  /** The selector finds the channel writable. */
  lemma Selected(n: Net, c: ConnId) returns (m: Net)
    requires Calm(n) && Addressed(n, c) && n.chans[c].writeInterest
    ensures Moves(n, m) && m.sel == Looping(c, []) && m.chans == n.chans && m.tasks == []
  {
    var k := Channel(c, false, true);
    assert [k][1..] == [];
    var a := Move(n, Select([k]));
    var b := Move(a, TestTasks);
    var d := Move(b, NextKey);
    m := Move(d, FinishRead);
    MovesTrans(n, a, b);
    MovesTrans(n, b, d);
    MovesTrans(n, d, m);
  }

  lemma DrainOne(n: Net, c: ConnId) returns (m: Net)
    requires Calm(n) && HasChan(n, c)
    ensures Moves(n, m) && Calm(m) && OnlyChan(n, m, c) && (m.chans[c].open ==> Idle(m.chans[c]))
  {
    if !n.chans[c].open || !n.chans[c].writeInterest {
      if n.chans[c].open && n.chans[c].queue != [] { IsWatched(n, c); }
      ReachesSelf(n);
      m := n;
    } else {
      var a := Selected(n, c);
      var b := WriteAll(a);
      m := Move(b, NextKey);
      MovesTrans(n, a, b);
      MovesTrans(n, b, m);
    }
  }

  lemma {:induction false} DrainBelow(n: Net, k: nat) returns (m: Net)
    requires Calm(n) && k <= |n.chans|
    ensures Moves(n, m) && Calm(m) && |m.chans| == |n.chans|
    ensures forall c :: 0 <= c < k && m.chans[c].open ==> Idle(m.chans[c])
  {
    if k == 0 {
      ReachesSelf(n);
      m := n;
    } else {
      var a := DrainBelow(n, k - 1);
      m := DrainOne(a, k - 1);
      MovesTrans(n, a, m);
    }
  }

  /** Everything sent on an open channel has been written. */
  predicate AllWritten(n: Net) {
    forall c :: 0 <= c < |n.chans| && n.chans[c].open ==>
      n.chans[c].queue == [] && n.chans[c].wrote == Concat(Messages(n.chans[c].bufs))
  }

  /** The selector waits in select with no wakeup pending, no task is queued, no worker is inside send, and no open
      channel is watched for writing: only a client can wake it. */
  ghost predicate AtRest(n: Net) {
    && n.sel.Selecting? && !n.wakeup && n.tasks == [] && AllQuiet(n)
    && forall c :: 0 <= c < |n.chans| && n.chans[c].open ==> Idle(n.chans[c])
  }

  /** When the loop is alive and nothing is addressed to a closed channel, a run without further sends writes all
      messages of all open channels, those still in the senders' hands included, and comes to rest. */
  lemma CanDrain(n: Net) returns (m: Net)
    requires Inv(n) && Alive(n)
    ensures Leads(n, m) && Kept(n, m) && AtRest(m) && AllWritten(m)
  {
    var a := FinishSends(n, |n.senders|);
    var b := CalmsDown(a);
    m := DrainBelow(b, |b.chans|);
    ReachesTrans(n, a, b);
    ReachesTrans(n, b, m);
    forall c | 0 <= c < |m.chans| && m.chans[c].open ensures m.chans[c].wrote == Concat(Messages(m.chans[c].bufs)) {
      assert ChanOk(m, c);
      NothingLost(m.chans[c].bufs, Head(m.chans[c]));
      NothingLeft(m.chans[c].bufs);
    }
  }

  // ---------------------------------------------------------------- and otherwise never

  predicate Closed(n: Net, c: ConnId) { HasChan(n, c) && !n.chans[c].open }

  /** A worker inside send is going to queue an interest task for `c`. */
  predicate SendsTo(n: Net, w: Worker, c: ConnId) {
    HasSender(n, w) && (n.senders[w].Adding? || n.senders[w].Asking?) && n.senders[w].conn == c
  }

  /** A task that will end the loop is queued or on its way. */
  ghost predicate DoomedBy(n: Net, c: ConnId) {
    Closed(n, c) && (c in n.tasks || exists w :: SendsTo(n, w, c))
  }

  lemma DoomedIff(n: Net)
    requires Inv(n) && !n.sel.Dead?
    ensures !Alive(n) <==> exists c :: DoomedBy(n, c)
  {
    if !Alive(n) {
      if c :| c in n.tasks && !Addressed(n, c) {
        assert DoomedBy(n, c);
      } else {
        var w: Worker :| !SendsToOpen(n, w);
        assert SenderOk(n, w) && SendsTo(n, w, n.senders[w].conn);
        assert DoomedBy(n, n.senders[w].conn);
      }
    }
    if c :| DoomedBy(n, c) {
      if c !in n.tasks {
        var w :| SendsTo(n, w, c);
        assert !SendsToOpen(n, w);
      }
    }
  }

  lemma StaysClosed(n: Net, x: Action, m: Net, c: ConnId)
    requires IsStep(n, x, m) && Closed(n, c)
    ensures Closed(m, c)
  {
  }

  lemma StaysDead(n: Net, x: Action, m: Net)
    requires IsStep(n, x, m) && n.sel.Dead?
    ensures m.sel.Dead?
  {
  }

  /** A task for a closed channel stays in the queue until it ends the loop. */
  lemma TaskStays(n: Net, x: Action, m: Net, c: ConnId)
    requires IsStep(n, x, m) && Closed(n, c) && c in n.tasks && !m.sel.Dead?
    ensures c in m.tasks
  {
    assert n.tasks == [n.tasks[0]] + n.tasks[1..];
  }

  /** A worker that sends to it keeps sending, or has queued its task. */
  lemma SenderStays(n: Net, x: Action, m: Net, w: Worker, c: ConnId)
    requires IsStep(n, x, m) && SendsTo(n, w, c)
    ensures SendsTo(m, w, c) || c in m.tasks
  {
  }

  lemma StaysDoomed(n: Net, x: Action, m: Net, c: ConnId)
    requires IsStep(n, x, m) && DoomedBy(n, c) && !m.sel.Dead?
    ensures DoomedBy(m, c)
  {
    StaysClosed(n, x, m, c);
    if c in n.tasks {
      TaskStays(n, x, m, c);
    } else {
      var w :| SendsTo(n, w, c);
      SenderStays(n, x, m, w, c);
    }
  }

  lemma NeverAliveAgain(n: Net, x: Action, m: Net)
    requires Inv(n) && !Alive(n) && IsStep(n, x, m)
    ensures Inv(m) && !Alive(m)
  {
    StepInv(n, x);
    if n.sel.Dead? {
      StaysDead(n, x, m);
    } else if !m.sel.Dead? {
      DoomedIff(n);
      var c :| DoomedBy(n, c);
      StaysDoomed(n, x, m, c);
      DoomedIff(m);
    }
  }

  /** No step brings the loop back, whatever is sent and closed. */
  lemma {:induction false} RunNeverAlive(n: Net, xs: seq<Action>)
    requires Inv(n) && !Alive(n) && CanRun(n, xs)
    ensures !Alive(RunAll(n, xs))
    decreases |xs|
  {
    if xs != [] {
      var m := FirstStep(n, xs);
      NeverAliveAgain(n, xs[0], m);
      RunNeverAlive(m, xs[1..]);
    }
  }

  /** From a reachable state the write side can come to rest with everything on the open channels written, if and
      only if the loop has not ended and no interest task for a closed channel is queued or about to be. */
  lemma DrainsIff(workers: nat, xs: seq<Action>)
    requires CanRun(Init(workers), xs)
    ensures var n := RunAll(Init(workers), xs);
            Alive(n) <==> exists m :: Leads(n, m) && AtRest(m) && AllWritten(m)
  {
    var n := RunAll(Init(workers), xs);
    InitRunInv(workers, xs);
    if Alive(n) {
      var m := CanDrain(n);
    } else if m :| Leads(n, m) && AtRest(m) && AllWritten(m) {
      var ys :| CanRun(n, ys) && AllNoInput(ys) && RunAll(n, ys) == m;
      RunNeverAlive(n, ys);
    }
  }

  /** A loop that is not alive stays so for ever: no later send, close or step of the selector saves it. */
  lemma NeverRestsAgain(workers: nat, xs: seq<Action>, ys: seq<Action>)
    requires CanRun(Init(workers), xs) && !Alive(RunAll(Init(workers), xs)) && CanRun(RunAll(Init(workers), xs), ys)
    ensures !AtRest(RunAll(RunAll(Init(workers), xs), ys))
  {
    InitRunInv(workers, xs);
    RunNeverAlive(RunAll(Init(workers), xs), ys);
  }
}
