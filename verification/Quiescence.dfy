/** Left to themselves, client and server come to rest with nothing in flight. */
module Quiescence {
  import opened Prelude
  import opened Packets
  import opened LoopModel
  import opened System
  import opened Session
  import opened SessionRuns
  import opened Fate
  import opened Drain

  /** A packet moves: nobody asks for anything new. */
  predicate Moves(e: SysEvent) { e.Receive? || e.Serve? || e.Emit? }

  /** How many moves a packet to the client leads to, its own receipt included. */
  function RankDown(m: Message): nat {
    match m
    case PublishMsg(qos, _, _, _, _) => if qos == QoS0 then 1 else if qos == QoS1 then 2 else 5
    case PubRecMsg(_) => 4
    case PubRelMsg(_) => 2
    case _ => 1
  }

  /** An answer of the server has one move more, from its pool into the channel. */
  function RankOwed(m: Message): nat { RankDown(m) + 1 }

  function RankUp(m: Message): nat {
    match m
    case PublishMsg(qos, _, _, _, _) => if qos == QoS0 then 1 else if qos == QoS1 then 3 else 6
    case PubRecMsg(_) => 4
    case PubRelMsg(_) => 3
    case SubscribeMsg(_, _) => 3
    case UnsubscribeMsg(_, _) => 3
    case PingReqMsg => 3
    case _ => 1
  }

  /** Lost packets do not move any more. */
  function Rank(s: Sys): nat { Sum(s.toServer, RankUp) + Sum(s.owed, RankOwed) + Sum(s.toClient, RankDown) }

  lemma ServeRank(m: Message, codes: seq<SubAckReturnCode>)
    ensures var a := Answer(m, codes); RankUp(m) == 1 + if a.Some? then RankOwed(a.value) else 0
  {
  }

  lemma ReceiveRank(s: Sys, key: Key)
    requires Inv(s) && s.toClient != []
    ensures var m := s.toClient[0]; var o := Handle(s.client, Arrival(m, key)).1;
      RankDown(m) >= 1 + if o.sent.Some? then RankUp(o.sent.value) else 0
  {
    ReceiveStep(s, key);
    var m := s.toClient[0];
    if Active(s.client.status) {
      TakeFromClientQueue(s);
      if IsFlow(m) {
        FlowEvent(s.client, Arrival(m, key));
        FlowSends(s.client.data, m, key);
      } else if s.client.status == Some(Connected) {
        PublishSends(s.client.data, m);
      }
    }
  }

  lemma PublishSends(d: Data, m: Message)
    requires m.PublishMsg?
    ensures var r := PublishStep(d, m).1;
      r.Send? && r.packet.Some? ==> RankDown(m) == 1 + RankUp(r.packet.value)
  {
  }

  /** Every move uses up at least one unit. */
  lemma RankStep(s: Sys, e: SysEvent)
    requires Inv(s) && Enabled(s, e) && Moves(e)
    ensures Rank(Next(s, e)) < Rank(s)
  {
    match e
    case Receive(key) =>
      ReceiveRank(s, key);
      SumOpt(s.toServer, Handle(s.client, Arrival(s.toClient[0], key)).1.sent, RankUp);
    case Serve(codes) =>
      ServeRank(s.toServer[0], codes);
      SumOpt(s.owed, Answer(s.toServer[0], codes), RankOwed);
    case Emit(i) =>
      SumWithout(s.owed, i, RankOwed);
      SumOpt(s.toClient, Some(s.owed[i]), RankDown);
  }

  /** The run goes on from `s` by enabled moves only. */
  predicate AllMove(s: Sys, es: seq<SysEvent>)
    decreases |es|
  {
    es == [] || (Enabled(s, es[0]) && Moves(es[0]) && AllMove(Next(s, es[0]), es[1..]))
  }

  /** Moves cannot go on for ever: no run of moves is longer than the rank it starts from. */
  lemma {:induction false} MovesEnd(s: Sys, es: seq<SysEvent>)
    requires Inv(s) && AllMove(s, es)
    ensures |es| + Rank(Continue(s, es)) <= Rank(s) && Inv(Continue(s, es))
    decreases |es|
  {
    if es != [] {
      InvStep(s, es[0]);
      RankStep(s, es[0]);
      MovesEnd(Next(s, es[0]), es[1..]);
    }
  }

  lemma {:induction false} LongerThanAll(keys: set<string>) returns (n: nat)
    ensures forall k | k in keys :: |k| < n
  {
    if keys == {} {
      n := 0;
    } else {
      var k :| k in keys;
      var m := LongerThanAll(keys - {k});
      n := if |k| < m then m else |k| + 1;
    }
  }

  /** There is always a key that is not in the store. */
  lemma SomeFreshKey(store: map<Key, Message>) returns (key: Key)
    ensures key !in store
  {
    var n := LongerThanAll(store.Keys);
    key := seq(n, i => 'k');
  }

  /** As long as a packet is under way, one can move. */
  lemma SomethingMoves(s: Sys) returns (e: SysEvent)
    requires s.toServer != [] || s.owed != [] || s.toClient != []
    ensures Enabled(s, e) && Moves(e)
  {
    if s.toServer != [] {
      var n := if s.toServer[0].SubscribeMsg? then |s.toServer[0].subs| else 0;
      e := Serve(seq(n, i => SuccessQoS0));
    } else if s.owed != [] {
      e := Emit(0);
    } else {
      var key := SomeFreshKey(s.client.data.persistence);
      e := Receive(key);
    }
  }

  /** Nothing is in flight either way, and no request and no ping waits for an answer. */
  predicate AtRest(d: Data) {
    d.clientPublishState == map[] && d.serverPublishState == map[] && d.oneTime == map[] && d.pingSubs == []
  }

  /** Where no packet can move and none is lost, everything is done. */
  lemma StuckIsAtRest(s: Sys)
    requires Inv(s) && s.lost == [] && forall e: SysEvent | Moves(e) :: !Enabled(s, e)
    ensures AtRest(s.client.data) && AllHops(s) == 0 && s.toServer == []
  {
    if s.toServer != [] || s.owed != [] || s.toClient != [] {
      var e := SomethingMoves(s);
      assert false;
    }
    var d := s.client.data;
    forall id ensures id !in d.clientPublishState { assert FlowOk(s, ClientPub(id)); }
    forall id ensures id !in d.serverPublishState { assert FlowOk(s, ServerPub(id)); }
    forall key ensures key !in d.oneTime {
      assert FlowOk(s, if key.SubscribeKey? then Sub(key.id) else Unsub(key.id));
    }
    assert FlowOk(s, Ping);
  }

  lemma MoveInSession(s: Sys, e: SysEvent)
    requires Inv(s) && Enabled(s, e) && Moves(e)
    ensures Next(s, e).client.status == s.client.status
    ensures !Active(s.client.status) ==> Next(s, e).client == s.client
  {
    if e.Receive? {
      ReceiveStep(s, e.key);
      if Active(s.client.status) { ArrivalKeepsStatus(s.client, s.toClient[0], e.key); }
    }
  }

  lemma ArrivalKeepsStatus(c: State, m: Message, key: Key)
    requires Active(c.status)
    ensures Handle(c, Arrival(m, key)).0.status == c.status
  {
  }

  /** From every state in session there are moves that bring it to rest. */
  lemma {:induction false} ComesToRest(s: Sys) returns (es: seq<SysEvent>)
    requires Inv(s) && Active(s.client.status)
    ensures AllMove(s, es) && AtRest(Continue(s, es).client.data) && AllHops(Continue(s, es)) == 0
    ensures Continue(s, es).toServer == []
    decreases Rank(s)
  {
    es := [];
    if s.toServer == [] && s.owed == [] && s.toClient == [] {
      StuckIsAtRest(s);
    } else {
      var e := SomethingMoves(s);
      InvStep(s, e);
      RankStep(s, e);
      MoveInSession(s, e);
      var rest := ComesToRest(Next(s, e));
      es := [e] + rest;
      assert es[1..] == rest;
    }
  }

  /** Out of session, moves change nothing at the client. */
  lemma {:induction false} Frozen(s: Sys, es: seq<SysEvent>)
    requires Inv(s) && !Active(s.client.status) && AllMove(s, es)
    ensures Continue(s, es).client == s.client
    decreases |es|
  {
    if es != [] {
      InvStep(s, es[0]);
      MoveInSession(s, es[0]);
      Frozen(Next(s, es[0]), es[1..]);
    }
  }

  /** Moves can bring the client to rest if and only if it is in session or at rest already. */
  lemma RestsIff(clean: bool, es: seq<SysEvent>, s: Sys)
    requires RunTo(clean, es) == Some(s)
    ensures (exists moves :: AllMove(s, moves) && AtRest(Continue(s, moves).client.data))
      <==> Active(s.client.status) || AtRest(s.client.data)
  {
    Safe(clean, es);
    if Active(s.client.status) {
      var moves := ComesToRest(s);
    } else {
      forall moves | AllMove(s, moves) ensures Continue(s, moves).client == s.client { Frozen(s, moves); }
      assert AllMove(s, []) && Continue(s, []) == s;
    }
  }

  lemma OneMore(clean: bool, es: seq<SysEvent>, s: Sys, e: SysEvent)
    requires RunTo(clean, es) == Some(s) && Enabled(s, e)
    ensures RunTo(clean, es + [e]) == Some(Next(s, e))
  {
    assert Front(es + [e]) == es && Last(es + [e]) == e;
  }

  /** A run goes on with the moves. */
  lemma {:induction false} RunContinues(clean: bool, es: seq<SysEvent>, s: Sys, moves: seq<SysEvent>)
    requires RunTo(clean, es) == Some(s) && AllMove(s, moves)
    ensures RunTo(clean, es + moves) == Some(Continue(s, moves))
    decreases |moves|
  {
    if moves == [] {
      assert es + moves == es;
    } else {
      var e, rest, t := moves[0], moves[1..], Next(s, moves[0]);
      ConcatAssoc(es, [e], rest);
      assert moves == [e] + rest;
      OneMore(clean, es, s, e);
      RunContinues(clean, es + [e], t, rest);
    }
  }

  /**
   Every session can be drained: moves lead to a state with nothing in flight and an empty
   store, in which every caller of an accepted publish has exactly one answer, a good one.
   */
  lemma DrainFinishes(clean: bool, es: seq<SysEvent>, s: Sys) returns (moves: seq<SysEvent>)
    requires RunTo(clean, es) == Some(s) && Active(s.client.status)
    ensures AllMove(s, moves) && |moves| <= Rank(s)
    ensures RunTo(clean, es + moves) == Some(Continue(s, moves))
    ensures AtRest(Continue(s, moves).client.data)
    ensures Drained(Continue(s, moves).client.data, Accepted(UNCONNECTED, ClientRun(clean, es + moves)))
  {
    Safe(clean, es);
    moves := ComesToRest(s);
    MovesEnd(s, moves);
    RunContinues(clean, es, s, moves);
    DrainedCompletely(clean, es + moves, Continue(s, moves));
  }
}
