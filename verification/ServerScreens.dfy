/** From typed lines to screens: what the server makes of the lines of a client and what the client shows, in every
    run of the whole server. */
module ServerScreens {
  import SR = SocialRuns
  import SW = SocialWire
  import opened SocialOrder
  import opened Server
  import opened ServerInvariant
  import opened ServerRuns
  import opened ServerDrops
  import opened ServerOrder
  import E = ReactorEngine
  import ER = EngineRuns
  import Cmd = ClientEncoder
  import EE = EndToEnd

  lemma RunIsReachable(workers: nat, xs: seq<Action>)
    requires CanRun(Start(workers), xs)
    ensures Reachable(RunAll(Start(workers), xs))
  {
  }

  /** While well-formed lines are arriving on `c` and none of its requests makes it lose bytes, the requests
      handled are a prefix of the lines' meanings, and all of them once everything has arrived and no task is
      outstanding - whatever the other connections send and throw. */
  lemma LinesArrive(workers: nat, xs: seq<Action>, cs: seq<Cmd.Command>, c: ConnId)
    requires CanRun(Start(workers), xs) && !EverDrops(Start(workers), xs, c)
    requires ReadsFrom(RunAll(Start(workers), xs), cs, c)
    ensures var v := RunAll(Start(workers), xs);
            && Cmd.ParseAll(MessagesOn(v.events, c)) <= Cmd.Somes(Cmd.MeaningsOf(cs))
            && (ER.Settled(v.engine, c) && E.Stream(v.engine, c) == Cmd.EncodeAll(cs) ==>
                  Cmd.ParseAll(MessagesOn(v.events, c)) == Cmd.Somes(Cmd.MeaningsOf(cs)))
  {
    var v := RunAll(Start(workers), xs);
    RunIsReachable(workers, xs);
    ReachableInv(v);
    StartLoses(workers, xs, c);
    assert ConnOk(v, c);
    EE.CommandsArrive(v.engine, c, cs);
  }

  /** All clients type well-formed lines, and none of them loses bytes. */
  ghost predicate AllArrive(workers: nat, xs: seq<Action>, lines: ConnId -> seq<Cmd.Command>)
    requires CanRun(Start(workers), xs)
  {
    ReadsLines(RunAll(Start(workers), xs), lines) && forall d: ConnId :: !EverDrops(Start(workers), xs, d)
  }

  lemma AllTyped(workers: nat, xs: seq<Action>, lines: ConnId -> seq<Cmd.Command>, i: nat)
    requires CanRun(Start(workers), xs) && AllArrive(workers, xs, lines) && i < |RunAll(Start(workers), xs).events|
    ensures SW.Typed(RunAll(Start(workers), xs).events[i])
  {
    var v := RunAll(Start(workers), xs);
    RunIsReachable(workers, xs);
    ReachableInv(v);
    var d: ConnId := v.events[i].conn;
    StartLoses(workers, xs, d);
    assert ReadsFrom(v, lines(d), d);
    EventTyped(v, lines(d), i);
  }

  /** From typed lines to screens.  All clients type well-formed lines and none loses bytes.  Then under every
      interleaving, chunking, scan order and partial write, a client whose LOGSTATs got no record has shown
      exactly the messages queued for it as far as they have been written, and the answers among them are those
      of its own requests, in their order: all of them, once none of its tasks is outstanding. */
  lemma LinesToScreens(workers: nat, xs: seq<Action>, lines: ConnId -> seq<Cmd.Command>, c: ConnId)
    requires CanRun(Start(workers), xs) && AllArrive(workers, xs, lines)
    requires var v := RunAll(Start(workers), xs); c < |v.engine.net.chans| && !GetsRecordIn(v, c)
    ensures var v := RunAll(Start(workers), xs);
            && Shows(v, c) && SR.CanRun(SR.EMPTY, v.events)
            && var answers := Answers(SW.Outbox(SR.RunAll(SR.EMPTY, v.events).log, c));
               Answers(Queued(v, c)) <= answers && (ER.Settled(v.engine, c) ==> Answers(Queued(v, c)) == answers)
  {
    var v := RunAll(Start(workers), xs);
    RunIsReachable(workers, xs);
    ReachableInv(v);
    forall i | 0 <= i < |v.events| ensures SW.Typed(v.events[i]) { AllTyped(workers, xs, lines, i); }
    QueuedIsSafe(v, c);
    assert ConnOk(v, c);
    EE.RepliesArrive(v.engine, c, Queued(v, c));
    AnswersInOrder(v, c);
  }
}
