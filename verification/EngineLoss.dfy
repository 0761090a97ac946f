/** A run in which an exception loses a message: the condition of `ProcessedIsAllIff` is needed.

    Each lemma computes one or two steps between states that are written out; the last ones put the steps
    together, from the end of the run to its beginning. */
module EngineLoss {
  import opened Framing
  import opened ReactorEngine
  import opened EngineRuns
  import P = ActorPool
  import N = ReactorWrites

  const CHUNK: Bytes := "a;b;"

  const TASK: ReadTask := ReadTask(0, CHUNK)

  const OPEN: N.Chan := N.Chan([], [], false, true, [])

  const KEY: N.Key := N.Channel(0, true, false)

  // ---------------------------------------------------------------- the states

  const START_NET: N.Net := N.Net([], [], false, N.Selecting, [N.Quiet, N.Quiet])

  /** One connection, one worker, and the selector at the given place. */
  function NetAt(sel: N.Selector): N.Net { N.Net([OPEN], [], false, sel, [N.Quiet, N.Quiet]) }

  function PoolAt(selector: P.Pc<ReadTask>, playing: set<P.Actor>, monitor: map<P.Actor, P.Thread>): P.Pool<ReadTask> {
    P.Pool(1, map[], [], playing, monitor, map[], 0, [selector, P.Idle], map[], map[], map[])
  }

  /** The engine before anything is read. */
  function AtNet(net: N.Net): Engine {
    Engine(PoolAt(P.Idle, {}, map[]), net, [Off, Off], Empty, [], multiset{}, map[], map[], map[], map[], {}, [])
  }

  const FULL: ReadBuffer := ReadBuffer(CHUNK, 0)

  /** The chunk was read into buffer 0 and handed to submit; the selector is inside the pool. */
  function InPool(pool: P.Pool<ReadTask>): Engine {
    Engine(pool, NetAt(N.Reading(KEY, [])), [Off, Off], ReactorEngine.Finished, [FULL],
           multiset{}, map[], map[], map[0 := CHUNK], map[], {}, [Held])
  }

  const ENTERING: P.Pool<ReadTask> := PoolAt(P.Entering(0, P.Submit(TASK)), {}, map[])
  const CHECKING: P.Pool<ReadTask> := PoolAt(P.Checking(0, TASK), {}, map[0 := 0])
  const MARKING: P.Pool<ReadTask> := PoolAt(P.Marking(0, TASK), {}, map[0 := 0])
  const EXECUTING: P.Pool<ReadTask> := PoolAt(P.Executing(0, TASK), {0}, map[0 := 0]).(place := map[0 := P.At(0)])

  /** The pool after the task was handed to the executor, and what its only worker does. */
  function Started(executor: map<P.Ticket, P.Wrapper<ReadTask>>, worker: P.Pc<ReadTask>, place: P.Place,
                   finished: map<P.Actor, seq<ReadTask>>): P.Pool<ReadTask> {
    P.Pool(1, map[], [], {0}, map[], executor, 1, [P.Idle, worker], map[0 := place], map[0 := [TASK]], finished)
  }

  const HANDED: P.Pool<ReadTask> := Started(map[0 := P.Wrapper(0, TASK)], P.Idle, P.Queued(0), map[])
  const RUNNING: P.Pool<ReadTask> := Started(map[], P.Running(0, TASK), P.At(1), map[])
  const ENDED: P.Pool<ReadTask> := Started(map[], P.Entering(0, P.Complete), P.At(1), map[0 := [TASK]])

  function Lending(pool: P.Pool<ReadTask>, job: Job): Engine {
    InPool(pool).(jobs := [Off, job], owner := [Lent(0, 0)])
  }

  /** The engine inside the running task. */
  function InTask(pos: nat, job: Job, decoder: Bytes, messages: seq<Bytes>): Engine
    requires pos <= |CHUNK|
  {
    Engine(RUNNING, NetAt(N.Reading(KEY, [])), [Off, job], ReactorEngine.Finished, [ReadBuffer(CHUNK, pos)], multiset{},
           map[0 := decoder], map[0 := messages], map[0 := CHUNK], map[0 := CHUNK[..pos]], {}, [Lent(0, 0)])
  }

  const THROWN: Engine := InTask(2, Releasing, "", ["a"]).(lossy := {0})

  const RELEASED: Engine := THROWN.(jobs := [Off, Released], free := multiset{0}, owner := [Pooled])

  const END_STATE: Engine := RELEASED.(jobs := [Off, Off], pool := ENDED)

  // ---------------------------------------------------------------- the steps

  lemma Wakes()
    ensures N.CanSelect(START_NET, [N.Server])
    ensures var n := N.DoSelect(START_NET, [N.Server]);
            N.CanTestTasks(n) && N.CanAccept(N.DoTestTasks(n)) && N.DoAccept(N.DoTestTasks(n)) == NetAt(N.Handling([]))
  {
    assert [N.Server][1..] == [];
  }

  lemma Selects()
    ensures N.CanNextKey(NetAt(N.Handling([]))) && N.DoNextKey(NetAt(N.Handling([]))) == NetAt(N.Selecting)
    ensures N.CanSelect(NetAt(N.Selecting), [KEY])
    ensures var n := N.DoSelect(NetAt(N.Selecting), [KEY]);
            && N.CanTestTasks(n) && N.CanNextKey(N.DoTestTasks(n))
            && N.DoNextKey(N.DoTestTasks(n)) == NetAt(N.Reading(KEY, []))
  {
    assert [KEY][1..] == [];
  }

  lemma ReadsChunk()
    ensures var e := AtNet(NetAt(N.Reading(KEY, [])));
            && CanAllocate(e) && CanFill(DoAllocate(e), CHUNK) && CanSubmit(DoFill(DoAllocate(e), CHUNK))
            && DoSubmit(DoFill(DoAllocate(e), CHUNK)) == InPool(ENTERING)
  {
    var e := DoFill(DoAllocate(AtNet(NetAt(N.Reading(KEY, [])))), CHUNK);
    assert [] + CHUNK == CHUNK;
    assert e.stream == map[0 := CHUNK] && e.buffers == [FULL] && e.owner == [Held];
    assert DoSubmit(e).pool.pcs == [P.Entering(0, P.Submit(TASK)), P.Idle];
  }

  lemma EntersPool()
    ensures P.CanAcquire(ENTERING, 0) && P.DoAcquire(ENTERING, 0) == CHECKING
    ensures P.CanCheck(CHECKING, 0) && P.DoCheck(CHECKING, 0) == MARKING
    ensures P.CanMark(MARKING, 0) && P.DoMark(MARKING, 0) == EXECUTING
  {
  }

  lemma Executes()
    ensures P.CanExecute(EXECUTING, 0) && P.DoExecute(EXECUTING, 0) == HANDED
    ensures CanCommit(InPool(EXECUTING), P.Execute(0))
    ensures DoCommit(InPool(EXECUTING), P.Execute(0)) == Lending(HANDED, Off)
  {
    assert P.DoExecute(EXECUTING, 0).pcs == [P.Idle, P.Idle];
    assert P.Submitted(EXECUTING, 0) + [TASK] == [TASK];
    assert DoCommit(InPool(EXECUTING), P.Execute(0)).owner == [Lent(0, 0)];
  }

  lemma Takes()
    ensures CanTake(Lending(HANDED, Off), 1, 0) && DoTake(Lending(HANDED, Off), 1, 0) == Lending(RUNNING, Decoding)
  {
    assert DoTake(Lending(HANDED, Off), 1, 0).pool == RUNNING;
    assert DoTake(Lending(HANDED, Off), 1, 0).jobs == [Off, Decoding];
  }

  lemma FirstByte()
    ensures var e := Lending(RUNNING, Decoding);
            ReactorEngine.CanDecode(e, 1) && DoDecode(e, 1) == InTask(1, Decoding, "a", [])
  {
    var e := Lending(RUNNING, Decoding);
    assert Decoder(e, 0) + ['a'] == "a" && Processed(e, 0) + [] == [] && Fed(e, 0) + ['a'] == CHUNK[..1];
  }

  lemma SecondByte()
    ensures var e := InTask(1, Decoding, "a", []);
            CanDecode(e, 1) && DoDecode(e, 1) == InTask(2, Processing, "", ["a"])
  {
    var e := InTask(1, Decoding, "a", []);
    assert Decoder(e, 0) == "a" && Processed(e, 0) + ["a"] == ["a"] && Fed(e, 0) + [';'] == CHUNK[..2];
  }

  lemma Throws()
    ensures var e := InTask(2, Processing, "", ["a"]); CanThrow(e, 1) && DoThrow(e, 1) == THROWN
    ensures CanRelease(THROWN, 1) && DoRelease(THROWN, 1) == RELEASED
  {
    assert DoThrow(InTask(2, Processing, "", ["a"]), 1).jobs == [Off, Releasing];
    assert DoRelease(THROWN, 1).jobs == [Off, Released] && DoRelease(THROWN, 1).owner == [Pooled];
  }

  lemma Ends()
    ensures CanEndTask(RELEASED, 1) && DoEndTask(RELEASED, 1) == END_STATE
  {
    assert P.Finished(RUNNING, 0) + [TASK] == [TASK];
    assert P.DoEndTask(RUNNING, 1).pcs == [P.Idle, P.Entering(0, P.Complete)];
    assert DoEndTask(RELEASED, 1).jobs == [Off, Off];
  }

  // ---------------------------------------------------------------- the run

  /** A step in front of a run. */
  lemma Prepend(e: Engine, x: Action, xs: seq<Action>, end: Engine) returns (ys: seq<Action>)
    requires Enabled(e, x) && CanRun(Apply(e, x), xs) && RunAll(Apply(e, x), xs) == end
    ensures CanRun(e, ys) && RunAll(e, ys) == end
  {
    ys := [x] + xs;
    assert ys[1..] == xs;
  }

  lemma TaskRuns() returns (xs: seq<Action>)
    ensures CanRun(Lending(RUNNING, Decoding), xs) && RunAll(Lending(RUNNING, Decoding), xs) == END_STATE
  {
    FirstByte();
    SecondByte();
    Throws();
    Ends();
    xs := Prepend(RELEASED, EndTask(1), [], END_STATE);
    xs := Prepend(THROWN, Release(1), xs, END_STATE);
    xs := Prepend(InTask(2, Processing, "", ["a"]), Throw(1), xs, END_STATE);
    xs := Prepend(InTask(1, Decoding, "a", []), Decode(1), xs, END_STATE);
    xs := Prepend(Lending(RUNNING, Decoding), Decode(1), xs, END_STATE);
  }

  lemma ExecuteRuns() returns (xs: seq<Action>)
    ensures CanRun(InPool(EXECUTING), xs) && RunAll(InPool(EXECUTING), xs) == END_STATE
  {
    xs := TaskRuns();
    Executes();
    Takes();
    xs := Prepend(Lending(HANDED, Off), Take(1, 0), xs, END_STATE);
    xs := Prepend(InPool(EXECUTING), Commit(P.Execute(0)), xs, END_STATE);
  }

  lemma SubmitRuns() returns (xs: seq<Action>)
    ensures CanRun(InPool(ENTERING), xs) && RunAll(InPool(ENTERING), xs) == END_STATE
  {
    xs := ExecuteRuns();
    EntersPool();
    xs := Prepend(InPool(MARKING), PoolStep(P.Mark(0)), xs, END_STATE);
    xs := Prepend(InPool(CHECKING), PoolStep(P.Check(0)), xs, END_STATE);
    xs := Prepend(InPool(ENTERING), PoolStep(P.Acquire(0)), xs, END_STATE);
  }

  lemma ReadRuns() returns (xs: seq<Action>)
    ensures CanRun(AtNet(NetAt(N.Selecting)), xs) && RunAll(AtNet(NetAt(N.Selecting)), xs) == END_STATE
  {
    xs := SubmitRuns();
    ReadsChunk();
    Selects();
    var e := AtNet(NetAt(N.Reading(KEY, [])));
    xs := Prepend(DoFill(DoAllocate(e), CHUNK), ReactorEngine.Submit, xs, END_STATE);
    xs := Prepend(DoAllocate(e), Fill(CHUNK), xs, END_STATE);
    xs := Prepend(e, Allocate, xs, END_STATE);
    var n := N.DoSelect(NetAt(N.Selecting), [KEY]);
    xs := Prepend(AtNet(N.DoTestTasks(n)), NetStep(N.NextKey), xs, END_STATE);
    xs := Prepend(AtNet(n), NetStep(N.TestTasks), xs, END_STATE);
    xs := Prepend(AtNet(NetAt(N.Selecting)), NetStep(N.Select([KEY])), xs, END_STATE);
  }

  lemma WholeRun() returns (xs: seq<Action>)
    ensures CanRun(AtNet(START_NET), xs) && RunAll(AtNet(START_NET), xs) == END_STATE
  {
    xs := ReadRuns();
    Selects();
    Wakes();
    var n := N.DoSelect(START_NET, [N.Server]);
    xs := Prepend(AtNet(NetAt(N.Handling([]))), NetStep(N.NextKey), xs, END_STATE);
    xs := Prepend(AtNet(N.DoTestTasks(n)), NetStep(N.Accept), xs, END_STATE);
    xs := Prepend(AtNet(n), NetStep(N.TestTasks), xs, END_STATE);
    xs := Prepend(AtNet(START_NET), NetStep(N.Select([N.Server])), xs, END_STATE);
  }

  lemma StartIsInit()
    ensures AtNet(START_NET) == Init(1)
  {
    var e := Init(1);
    assert e.net.senders == [N.Quiet, N.Quiet] && e.pool.pcs == [P.Idle, P.Idle] && e.jobs == [Off, Off];
  }

  lemma TwoFrames()
    ensures Frames(CHUNK) == ["a", "b"]
  {
    FramesUnique(["a", "b"], "");
    assert ["a", "b"][..1] == ["a"] && ["a"][..0] == [];
    assert Unframe(["a", "b"]) + "" == CHUNK;
  }

  /** The chunk "a;b;" arrives, the first request throws, and the second is never processed although all
      tasks have ended. */
  lemma ExceptionLosesAMessage()
    ensures exists e :: Reachable(e) && Settled(e, 0) && Frames(Stream(e, 0)) == ["a", "b"] && Processed(e, 0) == ["a"]
  {
    var xs := WholeRun();
    StartIsInit();
    TwoFrames();
    assert Reachable(END_STATE) && Settled(END_STATE, 0);
  }
}
