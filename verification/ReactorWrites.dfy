/** The write side of the reactor: `send` from any worker, `continueWrite` and the selector loop.

    A step machine with one selector thread and any number of workers.  Every operation on the
    concurrent write queues and on `selectorTasks`, every channel write and every call of `wakeup` is
    one step.  How many bytes the channel takes and which keys are ready is up to the environment.
    Buffers are objects: the selector keeps the reference it peeked while workers append. */
module ReactorWrites {
  import opened Framing
  import opened WriteQueue

  type ConnId = nat
  type Worker = nat

  /** `bufs` are all buffers ever enqueued, `queue` the references still in the write queue, `wrote`
      what the channel has taken. */
  datatype Chan = Chan(bufs: seq<WriteBuffer>, queue: seq<nat>, writeInterest: bool, open: bool, wrote: Bytes)

  /** A selected key: the server socket with a connection to accept, or a channel with its ready
      operations. */
  datatype Key = Server | Channel(conn: ConnId, readable: bool, writable: bool)

  /** Program counter of the selector thread; `todo` are the selected keys not yet handled. */
  datatype Selector =
    | Selecting                                             // in selector.select()
    | Draining(todo: seq<Key>)                              // before selectorTasks.isEmpty()
    | Running(todo: seq<Key>)                               // before selectorTasks.remove().run()
    | Handling(todo: seq<Key>)                              // at the head of the key loop
    | Reading(key: Key, todo: seq<Key>)                     // in handleReadWrite, before isWritable
    | Looping(conn: ConnId, todo: seq<Key>)                 // continueWrite: while (!writeQueue.isEmpty())
    | Peeking(conn: ConnId, todo: seq<Key>)                 // before writeQueue.peek()
    | Writing(conn: ConnId, top: nat, todo: seq<Key>)       // before chan.write(top)
    | Testing(conn: ConnId, top: nat, todo: seq<Key>)       // before top.hasRemaining()
    | Removing(conn: ConnId, top: nat, todo: seq<Key>)      // before writeQueue.remove()
    | Rechecking(conn: ConnId, todo: seq<Key>)              // before the second isEmpty
    | Clearing(conn: ConnId, todo: seq<Key>)                // before interestOps(OP_READ)
    | Dead                                                  // an exception has ended the loop

  /** Program counter of a worker inside `send`. */
  datatype Sender =
    | Quiet
    | Adding(conn: ConnId, msg: Bytes) // before writeQueue.add
    | Asking(conn: ConnId)             // before selectorTasks.add
    | Waking                           // before selector.wakeup()

  datatype Net = Net(chans: seq<Chan>, tasks: seq<ConnId>, wakeup: bool, sel: Selector, senders: seq<Sender>)

  datatype Action =
    | Select(ready: seq<Key>)
    | TestTasks
    | RunTask
    | NextKey
    | Accept
    | EndOfStream
    | FinishRead
    | TestQueue
    | Peek
    | Write(count: nat)
    | TestTop
    | Remove
    | Recheck
    | Clear
    | BeginSend(worker: Worker, conn: ConnId, msg: Bytes)
    | AddBuffer(worker: Worker)
    | AskInterest(worker: Worker)
    | Wake(worker: Worker)

  predicate HasChan(n: Net, c: ConnId) { c < |n.chans| }

  predicate HasSender(n: Net, w: Worker) { w < |n.senders| }

  /** A key is reported only for an operation its channel is interested in. */
  predicate CanBeReady(n: Net, k: Key) {
    k.Server? ||
    (HasChan(n, k.conn) && n.chans[k.conn].open && (k.writable ==> n.chans[k.conn].writeInterest))
  }

  function SetChan(n: Net, c: ConnId, ch: Chan): Net
    requires HasChan(n, c)
  {
    n.(chans := n.chans[c := ch])
  }

  /** select returns when a wakeup is pending or a key is ready, and consumes the wakeup. */
  predicate CanSelect(n: Net, ready: seq<Key>) {
    && n.sel.Selecting? && (n.wakeup || ready != [])
    && (forall i :: 0 <= i < |ready| ==> CanBeReady(n, ready[i]))
  }

  function DoSelect(n: Net, ready: seq<Key>): Net
    requires CanSelect(n, ready)
  {
    n.(sel := Draining(ready), wakeup := false)
  }

  predicate CanTestTasks(n: Net) { n.sel.Draining? }

  function DoTestTasks(n: Net): Net
    requires CanTestTasks(n)
  {
    n.(sel := if n.tasks == [] then Handling(n.sel.todo) else Running(n.sel.todo))
  }

  /** The oldest task sets the interest of its key to reading and writing.  The key of a closed channel is
      cancelled: the exception ends the selector loop. */
  predicate CanRunTask(n: Net) { n.sel.Running? && n.tasks != [] && HasChan(n, n.tasks[0]) }

  function DoRunTask(n: Net): Net
    requires CanRunTask(n)
  {
    var c := n.tasks[0];
    SetChan(n, c, n.chans[c].(writeInterest := n.chans[c].open || n.chans[c].writeInterest))
    .(tasks := n.tasks[1..], sel := if n.chans[c].open then Draining(n.sel.todo) else Dead)
  }

  /** The key loop takes the next channel key, skips it when its channel is closed, or is done. */
  predicate CanNextKey(n: Net) {
    n.sel.Handling? && (n.sel.todo != [] ==> n.sel.todo[0].Channel? && HasChan(n, n.sel.todo[0].conn))
  }

  function DoNextKey(n: Net): Net
    requires CanNextKey(n)
  {
    var todo := n.sel.todo;
    if todo == [] then n.(sel := Selecting)
    else if n.chans[todo[0].conn].open then n.(sel := Reading(todo[0], todo[1..]))
    else n.(sel := Handling(todo[1..]))
  }

  /** handleAccept: the new connection gets the next id and is interested in reading. */
  predicate CanAccept(n: Net) { n.sel.Handling? && n.sel.todo != [] && n.sel.todo[0].Server? }

  function DoAccept(n: Net): Net
    requires CanAccept(n)
  {
    n.(chans := n.chans + [Chan([], [], false, true, [])], sel := Handling(n.sel.todo[1..]))
  }

  /** continueRead reads the end of the stream and closes the channel. */
  predicate CanEndOfStream(n: Net) {
    n.sel.Reading? && n.sel.key.Channel? && n.sel.key.readable && HasChan(n, n.sel.key.conn)
  }

  function DoEndOfStream(n: Net): Net
    requires CanEndOfStream(n)
  {
    SetChan(n, n.sel.key.conn, n.chans[n.sel.key.conn].(open := false))
  }

  predicate CanFinishRead(n: Net) { n.sel.Reading? && n.sel.key.Channel? && HasChan(n, n.sel.key.conn) }

  function DoFinishRead(n: Net): Net
    requires CanFinishRead(n)
  {
    var k, todo := n.sel.key, n.sel.todo;
    n.(sel := if n.chans[k.conn].open && k.writable then Looping(k.conn, todo) else Handling(todo))
  }

  predicate CanTestQueue(n: Net) { n.sel.Looping? && HasChan(n, n.sel.conn) }

  function DoTestQueue(n: Net): Net
    requires CanTestQueue(n)
  {
    var c, todo := n.sel.conn, n.sel.todo;
    n.(sel := if n.chans[c].queue == [] then Rechecking(c, todo) else Peeking(c, todo))
  }

  predicate CanPeek(n: Net) { n.sel.Peeking? && HasChan(n, n.sel.conn) && n.chans[n.sel.conn].queue != [] }

  function DoPeek(n: Net): Net
    requires CanPeek(n)
  {
    var c, todo := n.sel.conn, n.sel.todo;
    n.(sel := Writing(c, n.chans[c].queue[0], todo))
  }

  /** chan.write(top) takes any number of the remaining bytes. */
  predicate CanWrite(n: Net, count: nat) {
    && n.sel.Writing? && HasChan(n, n.sel.conn) && n.sel.top < |n.chans[n.sel.conn].bufs|
    && var b := n.chans[n.sel.conn].bufs[n.sel.top]; b.pos + count <= |b.data|
  }

  /** The channel has taken `count` more bytes of the buffer `top`. */
  function Took(ch: Chan, top: nat, count: nat): Chan
    requires top < |ch.bufs| && ch.bufs[top].pos + count <= |ch.bufs[top].data|
  {
    var b := ch.bufs[top];
    ch.(bufs := ch.bufs[top := b.(pos := b.pos + count)], wrote := ch.wrote + b.data[b.pos..b.pos + count])
  }

  function DoWrite(n: Net, count: nat): Net
    requires CanWrite(n, count)
  {
    var c, top, todo := n.sel.conn, n.sel.top, n.sel.todo;
    SetChan(n, c, Took(n.chans[c], top, count)).(sel := Testing(c, top, todo))
  }

  predicate CanTestTop(n: Net) {
    n.sel.Testing? && HasChan(n, n.sel.conn) && n.sel.top < |n.chans[n.sel.conn].bufs|
  }

  function DoTestTop(n: Net): Net
    requires CanTestTop(n)
  {
    var c, top, todo := n.sel.conn, n.sel.top, n.sel.todo;
    var b := n.chans[c].bufs[top];
    n.(sel := if b.pos < |b.data| then Handling(todo) else Removing(c, top, todo))
  }

  predicate CanRemove(n: Net) { n.sel.Removing? && HasChan(n, n.sel.conn) && n.chans[n.sel.conn].queue != [] }

  function DoRemove(n: Net): Net
    requires CanRemove(n)
  {
    var c, todo := n.sel.conn, n.sel.todo;
    SetChan(n, c, n.chans[c].(queue := n.chans[c].queue[1..])).(sel := Looping(c, todo))
  }

  /** `shouldTerminate` never becomes true on the server, so an empty queue leads to `interestOps`. */
  predicate CanRecheck(n: Net) { n.sel.Rechecking? && HasChan(n, n.sel.conn) }

  function DoRecheck(n: Net): Net
    requires CanRecheck(n)
  {
    var c, todo := n.sel.conn, n.sel.todo;
    n.(sel := if n.chans[c].queue == [] then Clearing(c, todo) else Handling(todo))
  }

  predicate CanClear(n: Net) { n.sel.Clearing? && HasChan(n, n.sel.conn) }

  function DoClear(n: Net): Net
    requires CanClear(n)
  {
    var c, todo := n.sel.conn, n.sel.todo;
    SetChan(n, c, n.chans[c].(writeInterest := false)).(sel := Handling(todo))
  }

  /** `ConnectionsImpl.send` finds the handler of `c` and calls its `send`. */
  predicate CanBeginSend(n: Net, w: Worker, c: ConnId, m: Bytes) {
    HasSender(n, w) && n.senders[w].Quiet? && HasChan(n, c)
  }

  function DoBeginSend(n: Net, w: Worker, c: ConnId, m: Bytes): Net
    requires CanBeginSend(n, w, c, m)
  {
    n.(senders := n.senders[w := Adding(c, m)])
  }

  predicate CanAddBuffer(n: Net, w: Worker) { HasSender(n, w) && n.senders[w].Adding? && HasChan(n, n.senders[w].conn) }

  function DoAddBuffer(n: Net, w: Worker): Net
    requires CanAddBuffer(n, w)
  {
    var Adding(c, m) := n.senders[w];
    var ch := n.chans[c];
    SetChan(n, c, ch.(bufs := ch.bufs + [WriteBuffer(m, 0)], queue := ch.queue + [|ch.bufs|]))
    .(senders := n.senders[w := Asking(c)])
  }

  predicate CanAskInterest(n: Net, w: Worker) { HasSender(n, w) && n.senders[w].Asking? }

  function DoAskInterest(n: Net, w: Worker): Net
    requires CanAskInterest(n, w)
  {
    n.(tasks := n.tasks + [n.senders[w].conn], senders := n.senders[w := Waking])
  }

  predicate CanWake(n: Net, w: Worker) { HasSender(n, w) && n.senders[w].Waking? }

  function DoWake(n: Net, w: Worker): Net
    requires CanWake(n, w)
  {
    n.(wakeup := true, senders := n.senders[w := Quiet])
  }

  predicate Enabled(n: Net, x: Action) {
    match x
    case Select(ready) => CanSelect(n, ready)
    case TestTasks => CanTestTasks(n)
    case RunTask => CanRunTask(n)
    case NextKey => CanNextKey(n)
    case Accept => CanAccept(n)
    case EndOfStream => CanEndOfStream(n)
    case FinishRead => CanFinishRead(n)
    case TestQueue => CanTestQueue(n)
    case Peek => CanPeek(n)
    case Write(count) => CanWrite(n, count)
    case TestTop => CanTestTop(n)
    case Remove => CanRemove(n)
    case Recheck => CanRecheck(n)
    case Clear => CanClear(n)
    case BeginSend(w, c, m) => CanBeginSend(n, w, c, m)
    case AddBuffer(w) => CanAddBuffer(n, w)
    case AskInterest(w) => CanAskInterest(n, w)
    case Wake(w) => CanWake(n, w)
  }

  function Apply(n: Net, x: Action): Net
    requires Enabled(n, x)
  {
    match x
    case Select(ready) => DoSelect(n, ready)
    case TestTasks => DoTestTasks(n)
    case RunTask => DoRunTask(n)
    case NextKey => DoNextKey(n)
    case Accept => DoAccept(n)
    case EndOfStream => DoEndOfStream(n)
    case FinishRead => DoFinishRead(n)
    case TestQueue => DoTestQueue(n)
    case Peek => DoPeek(n)
    case Write(count) => DoWrite(n, count)
    case TestTop => DoTestTop(n)
    case Remove => DoRemove(n)
    case Recheck => DoRecheck(n)
    case Clear => DoClear(n)
    case BeginSend(w, c, m) => DoBeginSend(n, w, c, m)
    case AddBuffer(w) => DoAddBuffer(n, w)
    case AskInterest(w) => DoAskInterest(n, w)
    case Wake(w) => DoWake(n, w)
  }
}
