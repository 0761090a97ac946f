/** What the calls of process still have to send, as bags of messages for each connection. */
module Calls {
  import opened ServerMessages
  import opened Social

  /** A worker's call of process: the sends still to be made, and whether it ends with an exception. */
  datatype Call = Call(outgoing: seq<Sent>, threw: bool)

  function One(m: Sent, c: int): multiset<ServerMessage> { if m.conn == c then multiset{m.msg} else multiset{} }

  /** What is sent to one connection, in any order. */
  function Bag(ms: seq<Sent>, c: int): multiset<ServerMessage> {
    if ms == [] then multiset{}
    else One(ms[0], c) + Bag(ms[1..], c)
  }

  /** What the calls still have to send to one connection. */
  function Pending(calls: seq<Call>, c: int): multiset<ServerMessage> {
    if calls == [] then multiset{} else Bag(calls[0].outgoing, c) + Pending(calls[1..], c)
  }

  lemma Regroup<T>(a: multiset<T>, b: multiset<T>, c: multiset<T>)
    ensures (a + b) + c == a + (b + c)
  {
  }

  lemma Turn<T>(a: multiset<T>, b: multiset<T>, c: multiset<T>)
    ensures (a + b) + c == (c + b) + a
  {
  }

  lemma Carry<T>(a: multiset<T>, b: multiset<T>, c: multiset<T>, d: multiset<T>, e: multiset<T>)
    requires a + b == c + d
    ensures (e + a) + b == (e + c) + d
  {
    Regroup(e, a, b);
    Regroup(e, c, d);
  }

  lemma {:induction false} BagConcat(ms: seq<Sent>, ns: seq<Sent>, c: int)
    ensures Bag(ms + ns, c) == Bag(ms, c) + Bag(ns, c)
  {
    if ms == [] {
      assert ms + ns == ns;
    } else {
      calc {
        Bag(ms + ns, c);
      ==  { assert (ms + ns)[0] == ms[0] && (ms + ns)[1..] == ms[1..] + ns; }
        One(ms[0], c) + Bag(ms[1..] + ns, c);
      ==  { BagConcat(ms[1..], ns, c); }
        One(ms[0], c) + (Bag(ms[1..], c) + Bag(ns, c));
      ==  { Regroup(One(ms[0], c), Bag(ms[1..], c), Bag(ns, c)); }
        (One(ms[0], c) + Bag(ms[1..], c)) + Bag(ns, c);
      ==
        Bag(ms, c) + Bag(ns, c);
      }
    }
  }

  lemma BagSnoc(ms: seq<Sent>, m: Sent, c: int)
    ensures Bag(ms + [m], c) == Bag(ms, c) + One(m, c)
  {
    BagConcat(ms, [m], c);
    assert [m][1..] == [];
  }

  lemma {:induction false} SetCall(calls: seq<Call>, t: nat, call: Call, c: int)
    requires t < |calls|
    ensures Pending(calls[t := call], c) + Bag(calls[t].outgoing, c) == Pending(calls, c) + Bag(call.outgoing, c)
  {
    if t == 0 {
      assert calls[t := call][1..] == calls[1..];
      Turn(Bag(call.outgoing, c), Pending(calls[1..], c), Bag(calls[t].outgoing, c));
    } else {
      SetCall(calls[1..], t - 1, call, c);
      assert calls[t := call][1..] == calls[1..][t - 1 := call];
      Carry(Pending(calls[1..][t - 1 := call], c), Bag(calls[t].outgoing, c),
            Pending(calls[1..], c), Bag(call.outgoing, c), Bag(calls[0].outgoing, c));
    }
  }

  /** The call without its first send. */
  function Tail(call: Call): Call
    requires call.outgoing != []
  {
    call.(outgoing := call.outgoing[1..])
  }

  /** What leaves the calls for the queue or for nobody is accounted for there. */
  lemma Leave<T>(pending: multiset<T>, pending': multiset<T>, one: multiset<T>, rest: multiset<T>)
    requires pending' + (one + rest) == pending + rest
    ensures pending' + one == pending
  {
    forall x ensures pending'[x] + one[x] == pending[x] {
      assert (pending' + (one + rest))[x] == (pending + rest)[x];
    }
  }

  lemma TakeHead(calls: seq<Call>, t: nat, c: int)
    requires t < |calls| && calls[t].outgoing != []
    ensures Pending(calls[t := Tail(calls[t])], c) + One(calls[t].outgoing[0], c) == Pending(calls, c)
  {
    var out := calls[t].outgoing;
    SetCall(calls, t, Tail(calls[t]), c);
    Leave(Pending(calls, c), Pending(calls[t := Tail(calls[t])], c), One(out[0], c), Bag(out[1..], c));
  }

  /** The first send of a call is put into the queue of its connection. */
  lemma QueueHead(calls: seq<Call>, t: nat, queued: seq<ServerMessage>, dropped: multiset<ServerMessage>, c: int)
    requires t < |calls| && calls[t].outgoing != []
    ensures var m := calls[t].outgoing[0];
            multiset(if m.conn == c then queued + [m.msg] else queued) + Pending(calls[t := Tail(calls[t])], c)
            + dropped == multiset(queued) + Pending(calls, c) + dropped
  {
    TakeHead(calls, t, c);
    var m := calls[t].outgoing[0];
    Regroup(multiset(queued), One(m, c), Pending(calls[t := Tail(calls[t])], c));
    assert multiset(if m.conn == c then queued + [m.msg] else queued) == multiset(queued) + One(m, c);
  }

  /** The first send of a call has no receiver. */
  lemma DropHead(calls: seq<Call>, t: nat, queued: multiset<ServerMessage>, dropped: seq<Sent>, c: int)
    requires t < |calls| && calls[t].outgoing != []
    ensures queued + Pending(calls[t := Tail(calls[t])], c) + Bag(dropped + [calls[t].outgoing[0]], c) ==
            queued + Pending(calls, c) + Bag(dropped, c)
  {
    TakeHead(calls, t, c);
    BagSnoc(dropped, calls[t].outgoing[0], c);
  }

  /** A call of process begins with new sends. */
  lemma NewCall(calls: seq<Call>, t: nat, call: Call,
                queued: multiset<ServerMessage>, dropped: multiset<ServerMessage>, log: seq<Sent>, c: int)
    requires t < |calls| && calls[t].outgoing == [] && queued + Pending(calls, c) + dropped == Bag(log, c)
    ensures queued + Pending(calls[t := call], c) + dropped == Bag(log + call.outgoing, c)
  {
    SetCall(calls, t, call, c);
    BagConcat(log, call.outgoing, c);
    assert Pending(calls[t := call], c) == Pending(calls, c) + Bag(call.outgoing, c);
  }
}
