/** The scheduler of `ActorThreadPool`: a fixed pool of threads that runs the tasks of one actor
    one at a time and in submission order.

    The module is a step machine.  Every lock acquisition, every operation on a concurrent
    collection and every hand-over to the executor is one step, and any thread may take the next
    one.  `pendingRunnablesOf` is split at its two locks, so another thread can run between the
    failed lookup and the insertion.  The queues of `acts` are objects, reached through references,
    so that replacing an actor's queue would lose the tasks of the old one. */
module ActorPool {
  type Actor = nat
  type Thread = nat
  type Ticket = nat
  type Ref = nat

  /** The runnable handed to the executor: run the task, then complete the actor. */
  datatype Wrapper<T> = Wrapper(act: Actor, task: T)

  /** Which method of the pool a thread is inside of. */
  datatype Op<T> = Submit(task: T) | Complete

  /** Program counter of a thread. */
  datatype Pc<T> =
    | Idle
    | Running(act: Actor, task: T)             // a worker inside r.run()
    | Entering(act: Actor, op: Op<T>)          // waiting for the actor's monitor
    | Checking(act: Actor, task: T)            // before playingNow.contains
    | Marking(act: Actor, task: T)             // before playingNow.add
    | Executing(act: Actor, task: T)           // before execute
    | Getting(act: Actor, op: Op<T>)           // before the read-locked lookup
    | Putting(act: Actor, op: Op<T>)           // lookup failed, before the write-locked put
    | Using(act: Actor, op: Op<T>, queue: Ref) // pendingRunnablesOf has returned

  /** Where the single wrapper of a playing actor is. */
  datatype Place = Queued(ticket: Ticket) | At(thread: Thread)

  /** Threads below `callers` call submit, the others are the workers of the executor.
      `place`, `submitted` and `finished` are history: no step reads them. */
  datatype Pool<T> = Pool(
    callers: nat,
    acts: map<Actor, Ref>,
    heap: seq<seq<T>>,
    playing: set<Actor>,
    monitor: map<Actor, Thread>,
    executor: map<Ticket, Wrapper<T>>,
    nextTicket: Ticket,
    pcs: seq<Pc<T>>,
    place: map<Actor, Place>,
    submitted: map<Actor, seq<T>>,
    finished: map<Actor, seq<T>>)

  datatype Action<T> =
    | CallSubmit(thread: Thread, act: Actor, task: T)
    | Acquire(thread: Thread)
    | Check(thread: Thread)
    | Mark(thread: Thread)
    | Execute(thread: Thread)
    | GetQueue(thread: Thread)
    | PutQueue(thread: Thread)
    | AddPending(thread: Thread)
    | Retire(thread: Thread)
    | RunNext(thread: Thread)
    | Take(thread: Thread, ticket: Ticket)
    | EndTask(thread: Thread)
    | Collect(act: Actor)

  function Lookup<T>(m: map<Actor, seq<T>>, a: Actor): seq<T> {
    if a in m then m[a] else []
  }

  /** The tasks waiting in the actor's queue, if it has one. */
  function Pending<T>(p: Pool<T>, a: Actor): seq<T> {
    if a in p.acts && p.acts[a] < |p.heap| then p.heap[p.acts[a]] else []
  }

  /** The task that is handed to the executor and not finished, if any. */
  function InFlight<T>(p: Pool<T>, a: Actor): seq<T> {
    if a !in p.place then []
    else match p.place[a]
      case Queued(k) => if k in p.executor then [p.executor[k].task] else []
      case At(t) => if t < |p.pcs| && p.pcs[t].Running? then [p.pcs[t].task] else []
  }

  function Submitted<T>(p: Pool<T>, a: Actor): seq<T> { Lookup(p.submitted, a) }

  function Finished<T>(p: Pool<T>, a: Actor): seq<T> { Lookup(p.finished, a) }

  predicate InMonitor<T>(pc: Pc<T>) {
    !pc.Idle? && !pc.Running? && !pc.Entering?
  }

  /** The thread holds the actor's wrapper: it runs its task, is completing it, or is about to
      execute the first one. */
  predicate Carries<T>(pc: Pc<T>) {
    match pc
    case Running(_, _) => true
    case Executing(_, _) => true
    case Entering(_, op) => op.Complete?
    case Getting(_, op) => op.Complete?
    case Putting(_, op) => op.Complete?
    case Using(_, op, _) => op.Complete?
    case _ => false
  }

  /** The task a thread is in the middle of submitting. */
  function InSubmit<T>(pc: Pc<T>): seq<T> {
    match pc
    case Entering(_, op) => if op.Submit? then [op.task] else []
    case Checking(_, r) => [r]
    case Marking(_, r) => [r]
    case Executing(_, r) => [r]
    case Getting(_, op) => if op.Submit? then [op.task] else []
    case Putting(_, op) => if op.Submit? then [op.task] else []
    case Using(_, op, _) => if op.Submit? then [op.task] else []
    case _ => []
  }

  predicate UsesQueue<T>(p: Pool<T>, pc: Pc<T>) { pc.Using? && pc.queue < |p.heap| }

  predicate HasThread<T>(p: Pool<T>, t: Thread) { t < |p.pcs| }

  /** threads.execute: a new wrapper becomes available to the workers. */
  function HandOver<T>(p: Pool<T>, a: Actor, r: T): Pool<T> {
    p.(executor := p.executor[p.nextTicket := Wrapper(a, r)],
       place := p.place[a := Queued(p.nextTicket)],
       nextTicket := p.nextTicket + 1)
  }

  /** Leave the synchronized block and return from submit or from the wrapper. */
  function Leave<T>(p: Pool<T>, t: Thread): Pool<T>
    requires HasThread(p, t) && !p.pcs[t].Idle?
  {
    p.(monitor := p.monitor - {p.pcs[t].act}, pcs := p.pcs[t := Idle])
  }

  function Log<T>(p: Pool<T>, a: Actor, r: T): Pool<T> {
    p.(submitted := p.submitted[a := Submitted(p, a) + [r]])
  }

  /** submit(act, r) is called; the caller waits for the monitor of act. */
  predicate CanCallSubmit<T>(p: Pool<T>, t: Thread, a: Actor, r: T) {
    HasThread(p, t) && t < p.callers && p.pcs[t].Idle?
  }

  function DoCallSubmit<T>(p: Pool<T>, t: Thread, a: Actor, r: T): Pool<T>
    requires CanCallSubmit(p, t, a, r)
  {
    p.(pcs := p.pcs[t := Entering(a, Submit(r))])
  }

  /** The synchronized block of submit or complete is entered. */
  predicate CanAcquire<T>(p: Pool<T>, t: Thread) {
    HasThread(p, t) && p.pcs[t].Entering? && p.pcs[t].act !in p.monitor
  }

  function DoAcquire<T>(p: Pool<T>, t: Thread): Pool<T>
    requires CanAcquire(p, t)
  {
    var a := p.pcs[t].act;
    var next := match p.pcs[t].op
      case Submit(r) => Checking(a, r)
      case Complete => Getting(a, Complete);
    p.(monitor := p.monitor[a := t], pcs := p.pcs[t := next])
  }

  /** `playingNow.contains(act)`, and the branch it decides. */
  predicate CanCheck<T>(p: Pool<T>, t: Thread) {
    HasThread(p, t) && p.pcs[t].Checking?
  }

  function DoCheck<T>(p: Pool<T>, t: Thread): Pool<T>
    requires CanCheck(p, t)
  {
    var a, r := p.pcs[t].act, p.pcs[t].task;
    p.(pcs := p.pcs[t := if a !in p.playing then Marking(a, r) else Getting(a, Submit(r))])
  }

  /** `playingNow.add(act)`. */
  predicate CanMark<T>(p: Pool<T>, t: Thread) {
    HasThread(p, t) && p.pcs[t].Marking?
  }

  function DoMark<T>(p: Pool<T>, t: Thread): Pool<T>
    requires CanMark(p, t)
  {
    var a, r := p.pcs[t].act, p.pcs[t].task;
    p.(playing := p.playing + {a}, place := p.place[a := At(t)], pcs := p.pcs[t := Executing(a, r)])
  }

  /** `execute(r, act)`, and the end of submit. */
  predicate CanExecute<T>(p: Pool<T>, t: Thread) {
    HasThread(p, t) && p.pcs[t].Executing?
  }

  function DoExecute<T>(p: Pool<T>, t: Thread): Pool<T>
    requires CanExecute(p, t)
  {
    var a, r := p.pcs[t].act, p.pcs[t].task;
    Leave(HandOver(Log(p, a, r), a, r), t)
  }

  /** The lookup of `pendingRunnablesOf` under the read lock. */
  predicate CanGetQueue<T>(p: Pool<T>, t: Thread) {
    HasThread(p, t) && p.pcs[t].Getting?
  }

  function DoGetQueue<T>(p: Pool<T>, t: Thread): Pool<T>
    requires CanGetQueue(p, t)
  {
    var a, op := p.pcs[t].act, p.pcs[t].op;
    p.(pcs := p.pcs[t := if a in p.acts then Using(a, op, p.acts[a]) else Putting(a, op)])
  }

  /** The insertion of a new queue under the write lock, after a failed lookup. */
  predicate CanPutQueue<T>(p: Pool<T>, t: Thread) {
    HasThread(p, t) && p.pcs[t].Putting?
  }

  function DoPutQueue<T>(p: Pool<T>, t: Thread): Pool<T>
    requires CanPutQueue(p, t)
  {
    var a, op := p.pcs[t].act, p.pcs[t].op;
    p.(acts := p.acts[a := |p.heap|], heap := p.heap + [[]], pcs := p.pcs[t := Using(a, op, |p.heap|)])
  }

  /** `pendingRunnablesOf(act).add(r)`, and the end of submit. */
  predicate CanAddPending<T>(p: Pool<T>, t: Thread) {
    HasThread(p, t) && UsesQueue(p, p.pcs[t]) && p.pcs[t].op.Submit?
  }

  function DoAddPending<T>(p: Pool<T>, t: Thread): Pool<T>
    requires CanAddPending(p, t)
  {
    var a, r, q := p.pcs[t].act, p.pcs[t].op.task, p.pcs[t].queue;
    Leave(Log(p.(heap := p.heap[q := p.heap[q] + [r]]), a, r), t)
  }

  /** complete finds the queue empty and removes the actor from `playingNow`. */
  predicate CanRetire<T>(p: Pool<T>, t: Thread) {
    HasThread(p, t) && UsesQueue(p, p.pcs[t]) && p.pcs[t].op.Complete? && |p.heap[p.pcs[t].queue]| == 0
  }

  function DoRetire<T>(p: Pool<T>, t: Thread): Pool<T>
    requires CanRetire(p, t)
  {
    var a := p.pcs[t].act;
    Leave(p.(playing := p.playing - {a}, place := p.place - {a}), t)
  }

  /** complete polls the next task and executes it. */
  predicate CanRunNext<T>(p: Pool<T>, t: Thread) {
    HasThread(p, t) && UsesQueue(p, p.pcs[t]) && p.pcs[t].op.Complete? && |p.heap[p.pcs[t].queue]| > 0
  }

  function DoRunNext<T>(p: Pool<T>, t: Thread): Pool<T>
    requires CanRunNext(p, t)
  {
    var a, q := p.pcs[t].act, p.pcs[t].queue;
    Leave(HandOver(p.(heap := p.heap[q := p.heap[q][1..]]), a, p.heap[q][0]), t)
  }

  /** A worker takes a wrapper and starts the task. */
  predicate CanTake<T>(p: Pool<T>, t: Thread, k: Ticket) {
    HasThread(p, t) && p.callers <= t && p.pcs[t].Idle? && k in p.executor
  }

  function DoTake<T>(p: Pool<T>, t: Thread, k: Ticket): Pool<T>
    requires CanTake(p, t, k)
  {
    var Wrapper(a, r) := p.executor[k];
    p.(executor := p.executor - {k}, place := p.place[a := At(t)], pcs := p.pcs[t := Running(a, r)])
  }

  /** The task returns or throws; complete is in a finally block, so it is called either way. */
  predicate CanEndTask<T>(p: Pool<T>, t: Thread) {
    HasThread(p, t) && p.pcs[t].Running?
  }

  function DoEndTask<T>(p: Pool<T>, t: Thread): Pool<T>
    requires CanEndTask(p, t)
  {
    var a, r := p.pcs[t].act, p.pcs[t].task;
    p.(finished := p.finished[a := Finished(p, a) + [r]], pcs := p.pcs[t := Entering(a, Complete)])
  }

  /** The garbage collector drops a weak entry of `acts`.  Its key is reachable from `playingNow`,
      from a queued wrapper and from the stack of a thread inside the pool. */
  predicate CanCollect<T>(p: Pool<T>, a: Actor) {
    && a in p.acts && a !in p.playing
      && (forall t :: 0 <= t < |p.pcs| && !p.pcs[t].Idle? ==> p.pcs[t].act != a)
      && (forall k :: k in p.executor ==> p.executor[k].act != a)
  }

  function DoCollect<T>(p: Pool<T>, a: Actor): Pool<T>
    requires CanCollect(p, a)
  {
    p.(acts := p.acts - {a})
  }

  predicate Enabled<T>(p: Pool<T>, x: Action<T>) {
    match x
    case CallSubmit(t, a, r) => CanCallSubmit(p, t, a, r)
    case Acquire(t) => CanAcquire(p, t)
    case Check(t) => CanCheck(p, t)
    case Mark(t) => CanMark(p, t)
    case Execute(t) => CanExecute(p, t)
    case GetQueue(t) => CanGetQueue(p, t)
    case PutQueue(t) => CanPutQueue(p, t)
    case AddPending(t) => CanAddPending(p, t)
    case Retire(t) => CanRetire(p, t)
    case RunNext(t) => CanRunNext(p, t)
    case Take(t, k) => CanTake(p, t, k)
    case EndTask(t) => CanEndTask(p, t)
    case Collect(a) => CanCollect(p, a)
  }

  function Apply<T>(p: Pool<T>, x: Action<T>): Pool<T>
    requires Enabled(p, x)
  {
    match x
    case CallSubmit(t, a, r) => DoCallSubmit(p, t, a, r)
    case Acquire(t) => DoAcquire(p, t)
    case Check(t) => DoCheck(p, t)
    case Mark(t) => DoMark(p, t)
    case Execute(t) => DoExecute(p, t)
    case GetQueue(t) => DoGetQueue(p, t)
    case PutQueue(t) => DoPutQueue(p, t)
    case AddPending(t) => DoAddPending(p, t)
    case Retire(t) => DoRetire(p, t)
    case RunNext(t) => DoRunNext(p, t)
    case Take(t, k) => DoTake(p, t, k)
    case EndTask(t) => DoEndTask(p, t)
    case Collect(a) => DoCollect(p, a)
  }
}
