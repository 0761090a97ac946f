/** When a LOGSTAT puts a record on the wire: an exact condition on the state, the scan and the year. */
module SocialRecords {
  import opened Options
  import opened ServerMessages
  import opened Requests
  import opened Social
  import opened SocialInvariant
  import opened SocialRuns
  import opened SocialLogout

  /** A LOGSTAT whose first active user, in scan order, that has not blocked the asker has a record that can be
      made. */
  predicate GetsRecord(s: Social, e: Event)
    requires CanHandle(s, e)
  {
    && Parse(e.message) == Some(Logstat)
    && var viewer := OrLast(Owner(s, e.aks, e.conn), s.activeMap, e.aks);
       viewer.Some? && FirstIsSendable(s, e.aks, viewer.value, e.now)
  }

  /** The record at position `i` of the scan can be made, and all users before have blocked the asker. */
  predicate SendableAt(s: Social, aks: seq<string>, viewer: UserId, now: int, i: nat)
    requires MapsOk(s) && forall k :: k in aks ==> k in s.activeMap
  {
    && i < |aks| && RecordOf(s, viewer, s.activeMap[aks[i]], now).Sendable?
    && forall j :: 0 <= j < i ==> RecordOf(s, viewer, s.activeMap[aks[j]], now).Refused?
  }

  predicate FirstIsSendable(s: Social, aks: seq<string>, viewer: UserId, now: int)
    requires MapsOk(s) && forall k :: k in aks ==> k in s.activeMap
  {
    exists i :: 0 <= i < |aks| && SendableAt(s, aks, viewer, now, i)
  }

  ghost predicate RecordFrom(log: seq<Sent>, from: nat, conn: int) {
    exists i :: from <= i < |log| && log[i].msg.Stats? && log[i].conn == conn
  }

  lemma ShiftSendable(s: Social, t: Social, aks: seq<string>, viewer: UserId, now: int, i: nat)
    requires MapsOk(s) && aks != [] && (forall k :: k in aks ==> k in s.activeMap)
    requires t == s.(log := t.log) && RecordOf(s, viewer, s.activeMap[aks[0]], now).Refused?
    ensures SendableAt(t, aks[1..], viewer, now, i) <==> SendableAt(s, aks, viewer, now, i + 1)
  {
    if SendableAt(t, aks[1..], viewer, now, i) {
      forall j | 0 <= j < i + 1 ensures RecordOf(s, viewer, s.activeMap[aks[j]], now).Refused? {
        if j > 0 { assert RecordOf(t, viewer, t.activeMap[aks[1..][j - 1]], now).Refused?; }
      }
    }
    if SendableAt(s, aks, viewer, now, i + 1) {
      forall j | 0 <= j < i ensures RecordOf(t, viewer, t.activeMap[aks[1..][j]], now).Refused? {
        assert RecordOf(s, viewer, s.activeMap[aks[j + 1]], now).Refused?;
      }
    }
  }

  lemma RestIsSendable(s: Social, t: Social, aks: seq<string>, viewer: UserId, now: int)
    requires MapsOk(s) && aks != [] && (forall k :: k in aks ==> k in s.activeMap)
    requires t == s.(log := t.log) && RecordOf(s, viewer, s.activeMap[aks[0]], now).Refused?
    ensures FirstIsSendable(t, aks[1..], viewer, now) <==> FirstIsSendable(s, aks, viewer, now)
  {
    if i :| 0 <= i < |aks[1..]| && SendableAt(t, aks[1..], viewer, now, i) {
      ShiftSendable(s, t, aks, viewer, now, i);
    }
    if i :| 0 <= i < |aks| && SendableAt(s, aks, viewer, now, i) {
      ShiftSendable(s, t, aks, viewer, now, i - 1);
    }
  }

  lemma {:induction false} RecordsSendIff(s: Social, aks: seq<string>, viewer: UserId, now: int, conn: int, c: int)
    requires MapsOk(s) && forall k :: k in aks ==> k in s.activeMap
    ensures var t := Records(s, aks, viewer, now, conn).state;
            s.log <= t.log && (RecordFrom(t.log, |s.log|, c) <==> c == conn && FirstIsSendable(s, aks, viewer, now))
    decreases |aks|
  {
    if aks != [] {
      var t := Records(s, aks, viewer, now, conn).state;
      match RecordOf(s, viewer, s.activeMap[aks[0]], now)
      case Refused =>
        var s1 := Reply(s, conn, Error("07"));
        RecordsSendIff(s1, aks[1..], viewer, now, conn, c);
        RestIsSendable(s, s1, aks, viewer, now);
        assert !t.log[|s.log|].msg.Stats?;
      case Broken =>
      case Sendable(m) =>
        RecordsSendIff(Reply(s, conn, m), aks[1..], viewer, now, conn, c);
        assert t.log[|s.log|] == Sent(conn, m, Answer);
        assert SendableAt(s, aks, viewer, now, 0);
    }
  }

  /** A request puts a record on connection `c` if and only if it is a LOGSTAT of that connection that gets one. */
  lemma RecordSentIff(s: Social, e: Event, c: int)
    requires CanHandle(s, e)
    ensures RecordFrom(Handle(s, e).log, |s.log|, c) <==> c == e.conn && GetsRecord(s, e)
  {
    if Parse(e.message) == Some(Logstat) {
      var viewer := OrLast(Owner(s, e.aks, e.conn), s.activeMap, e.aks);
      if viewer.Some? { RecordsSendIff(s, e.aks, viewer.value, e.now, e.conn, c); }
    } else {
      LogoutAnsweredOnce(s, e);
      if Parse(e.message) == Some(Logout) {
        var m :| AboutLogout(m) && Handle(s, e).log == s.log + [Sent(e.conn, m, Answer)];
      }
    }
  }

  /** Some LOGSTAT of the connection gets a record in the run. */
  predicate EverGetsRecord(s: Social, es: seq<Event>, c: int)
    requires CanRun(s, es)
    decreases |es|
  {
    es != [] && ((es[0].conn == c && GetsRecord(s, es[0])) || EverGetsRecord(Handle(s, es[0]), es[1..], c))
  }

  /** Over every run: a record was put on the connection if and only if one of its LOGSTATs got one. */
  lemma {:induction false} RecordEverSentIff(s: Social, es: seq<Event>, c: int)
    requires Inv(s) && CanRun(s, es)
    ensures s.log <= RunAll(s, es).log
    ensures RecordFrom(RunAll(s, es).log, |s.log|, c) <==> EverGetsRecord(s, es, c)
    decreases |es|
  {
    if es != [] {
      var t := Handle(s, es[0]);
      ProcessKeeps(s, es[0].uks, es[0].aks, es[0].now, es[0].conn, es[0].message);
      ProcessGrows(s, es[0]);
      RecordSentIff(s, es[0], c);
      RecordEverSentIff(t, es[1..], c);
      FromSplits(t.log, RunAll(s, es).log, |s.log|, c);
    }
  }

  lemma FromSplits(log: seq<Sent>, log': seq<Sent>, from: nat, c: int)
    requires log <= log' && from <= |log|
    ensures RecordFrom(log', from, c) <==> RecordFrom(log, from, c) || RecordFrom(log', |log|, c)
  {
    if i :| from <= i < |log| && log[i].msg.Stats? && log[i].conn == c { assert log'[i] == log[i]; }
    if i :| from <= i < |log'| && log'[i].msg.Stats? && log'[i].conn == c { assert i < |log| ==> log[i] == log'[i]; }
  }

  lemma FromNoMessages(s: Social, es: seq<Event>, c: int)
    requires Inv(s) && s.log == [] && CanRun(s, es)
    ensures RecordFrom(RunAll(s, es).log, 0, c) <==> EverGetsRecord(s, es, c)
  {
    RecordEverSentIff(s, es, c);
  }

  /** From the empty server: every record on a connection answers one of its LOGSTATs. */
  lemma RunRecordIff(es: seq<Event>, c: int)
    requires CanRun(EMPTY, es)
    ensures RecordFrom(RunAll(EMPTY, es).log, 0, c) <==> EverGetsRecord(EMPTY, es, c)
  {
    EmptyInv();
    FromNoMessages(EMPTY, es, c);
  }
}
