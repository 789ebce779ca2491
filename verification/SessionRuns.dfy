/** Safety over whole runs of a session. */
module SessionRuns {
  import opened Prelude
  import opened LoopModel
  import opened Ledger
  import opened System
  import opened Session

  /** How a client gets into session: a Connect, and a CONNACK that accepts it. */
  function Opening(clean: bool): seq<Event> {
    [ConnectEvent(true), Inbound(ConnAckMsg(0, clean), Removed, Appended(""), true)]
  }

  function Start(clean: bool): Sys { Sys(After(UNCONNECTED, Opening(clean)), [], [], [], [], map[]) }

  /** The system after a run whose every step was enabled. */
  function RunTo(clean: bool, es: seq<SysEvent>): Option<Sys>
    decreases |es|
  {
    if es == [] then Some(Start(clean))
    else match RunTo(clean, Front(es))
      case None => None
      case Some(s) => if Enabled(s, Last(es)) then Some(Next(s, Last(es))) else None
  }

  /** What a step of the system is to the client. */
  function ClientSees(s: Sys, e: SysEvent): seq<Event>
    requires Enabled(s, e)
  {
    match e
    case Local(ev) => [ev]
    case Receive(key) => [Arrival(s.toClient[0], key)]
    case _ => []
  }

  /** The client's own events in a run of the system. */
  function ClientRun(clean: bool, es: seq<SysEvent>): seq<Event>
    requires RunTo(clean, es).Some?
    decreases |es|
  {
    if es == [] then Opening(clean)
    else ClientRun(clean, Front(es)) + ClientSees(RunTo(clean, Front(es)).value, Last(es))
  }

  lemma OpeningConnects(clean: bool)
    ensures var s := After(UNCONNECTED, Opening(clean));
      && s.status == Some(Connected)
      && s.data == NEW_DATA.(callers := 1, replies := s.data.replies, streams := s.data.streams, sessionSubs := s.data.sessionSubs)
      && GoodRun(UNCONNECTED, Opening(clean)) && NoPacketPanics(UNCONNECTED, Opening(clean)) && AllStoreSucceeds(Opening(clean))
  {
    var es := Opening(clean);
    var first := Front(es);
    assert first == [ConnectEvent(true)] && Front(first) == [];
    assert After(UNCONNECTED, first) == Handle(UNCONNECTED, ConnectEvent(true)).0;
    assert After(UNCONNECTED, es) == Handle(After(UNCONNECTED, first), Last(es)).0;
    assert GoodRun(UNCONNECTED, first) && NoPacketPanics(UNCONNECTED, first);
  }

  lemma StartIsGood(clean: bool)
    ensures Inv(Start(clean))
  {
    OpeningConnects(clean);
    var s := Start(clean);
    forall f: Flow | f != NoFlow ensures FlowOk(s, f) {}
  }

  /** The invariant holds in every reachable state. */
  lemma {:induction false} Safe(clean: bool, es: seq<SysEvent>)
    requires RunTo(clean, es).Some?
    ensures Inv(RunTo(clean, es).value)
    decreases |es|
  {
    if es == [] {
      StartIsGood(clean);
    } else {
      Safe(clean, Front(es));
      InvStep(RunTo(clean, Front(es)).value, Last(es));
    }
  }

  // ------------------------------------------------------------ main results

  /** The state of a publish that a packet of its flow goes with. */
  predicate Matching(m: Message, up: bool, st: PublishState) {
    if up then (m.PublishMsg? && st.Sent?) || (m.PubRelMsg? && st.Released?)
    else ((m.PubAckMsg? || m.PubRecMsg?) && st.Sent?) || (m.PubCompMsg? && st.Released?)
  }

  predicate AllMatch(q: seq<Message>, up: bool, id: u16, flying: map<u16, PublishState>) {
    forall i | 0 <= i < |q| && FlowOf(q[i], up) == ClientPub(id) :: id in flying && Matching(q[i], up, flying[id])
  }

  /**
   Every publish of the client that is in flight has exactly one packet, which matches its
   state and is in transit or reached the client out of session; an identifier that is not in
   flight has none.
   */
  lemma OnePacket(clean: bool, es: seq<SysEvent>, s: Sys, id: u16)
    requires RunTo(clean, es) == Some(s)
    ensures var flying := s.client.data.clientPublishState;
      && InTransit(s, ClientPub(id)) + Count(s.lost, false, ClientPub(id)) == (if id in flying then 1 else 0)
      && AllMatch(s.toServer, true, id, flying) && AllMatch(s.owed, false, id, flying)
      && AllMatch(s.toClient, false, id, flying) && AllMatch(s.lost, false, id, flying)
    ensures Active(s.client.status) ==> s.lost == []
  {
    Safe(clean, es);
    assert FlowOk(s, ClientPub(id));
  }

  /** In session, that packet is in transit. */
  lemma OneInTransit(clean: bool, es: seq<SysEvent>, s: Sys, id: u16)
    requires RunTo(clean, es) == Some(s) && Active(s.client.status)
    ensures InTransit(s, ClientPub(id)) == if id in s.client.data.clientPublishState then 1 else 0
  {
    OnePacket(clean, es, s, id);
  }

  /** A session that has ended does not start again. */
  lemma OutForGood(s: Sys, e: SysEvent)
    requires Inv(s) && !Active(s.client.status) && Enabled(s, e)
    ensures !Active(Next(s, e).client.status)
  {
    match e
    case Local(ev) => QuietLocal(s.client, ev, s.flights);
    case Receive(key) => ReceiveStep(s, key);
    case _ =>
  }

  /** A publish loses its packet if the session times out before the packet arrives. */
  lemma TimeoutLosesPacket(s: Sys, key: Key, id: u16)
    requires Inv(s) && Active(s.client.status) && s.toClient != [] && FlowOf(s.toClient[0], false) == ClientPub(id)
    ensures Enabled(s, Local(PingTimeout)) && Enabled(Next(s, Local(PingTimeout)), Receive(key))
    ensures var u := Next(Next(s, Local(PingTimeout)), Receive(key));
      id in u.client.data.clientPublishState && InTransit(u, ClientPub(id)) == 0
  {
    var t := Next(s, Local(PingTimeout));
    InvStep(s, Local(PingTimeout));
    TakeFromClientQueue(t);
    ReceiveStep(t, key);
    var v, u := t.(toClient := t.toClient[1..]), Next(t, Receive(key));
    assert u.toServer == v.toServer && u.owed == v.owed && u.toClient == v.toClient;
    assert Total(v, ClientPub(id)) == 0;
    assert Most(PartOf(t.client.data, t.flights, ClientPub(id))) == 1;
  }

  /** No packet from the server makes a handler panic or fail, whatever timers have fired. */
  lemma NoHandlerFails(clean: bool, es: seq<SysEvent>, s: Sys, key: Key)
    requires RunTo(clean, es) == Some(s) && s.toClient != []
    ensures Handle(s.client, Arrival(s.toClient[0], key)).1.response == Empty
  {
    Safe(clean, es);
    ReceiveStep(s, key);
  }

  /** At most one ping is unanswered, and in session one is if and only if a caller waits for it. */
  lemma OnePing(clean: bool, es: seq<SysEvent>, s: Sys)
    requires RunTo(clean, es) == Some(s)
    ensures InTransit(s, Ping) <= if s.client.data.pingSubs == [] then 0 else 1
    ensures Active(s.client.status) ==> InTransit(s, Ping) == if s.client.data.pingSubs == [] then 0 else 1
  {
    Safe(clean, es);
    assert FlowOk(s, Ping);
  }

  /** A request to subscribe or unsubscribe has one packet, in transit or lost like the above. */
  lemma OneRequestInTransit(clean: bool, es: seq<SysEvent>, s: Sys, id: u16)
    requires RunTo(clean, es) == Some(s)
    ensures InTransit(s, Sub(id)) + Count(s.lost, false, Sub(id))
      == (if SubscribeKey(id) in s.client.data.oneTime then 1 else 0)
    ensures InTransit(s, Unsub(id)) + Count(s.lost, false, Unsub(id))
      == (if UnsubscribeKey(id) in s.client.data.oneTime then 1 else 0)
    ensures Active(s.client.status) ==> s.lost == []
  {
    Safe(clean, es);
    assert FlowOk(s, Sub(id)) && FlowOk(s, Unsub(id));
  }

  // ------------------------------------------------------------ the client's own run

  lemma SeenIsGood(s: Sys, e: SysEvent)
    requires Inv(s) && Enabled(s, e)
    ensures ClientSees(s, e) == [] ==> Next(s, e).client == s.client
    ensures ClientSees(s, e) != [] ==> var ev := ClientSees(s, e)[0];
      && ClientSees(s, e) == [ev]
      && Next(s, e).client == Handle(s.client, ev).0
      && GoodEvent(s.client, ev) && StoreSucceeds(ev) && !PacketPanics(s.client, ev)
  {
    match e
    case Receive(key) => ReceiveStep(s, key);
    case _ =>
  }

  lemma RunSnoc(es: seq<Event>, e: Event)
    ensures Front(es + [e]) == es && Last(es + [e]) == e
  {
  }

  /** A run of the system is, for the client, a run without panics or failing persistence calls. */
  lemma {:induction false} ClientRuns(clean: bool, es: seq<SysEvent>)
    requires RunTo(clean, es).Some?
    ensures var run := ClientRun(clean, es);
      && RunTo(clean, es).value.client == After(UNCONNECTED, run)
      && GoodRun(UNCONNECTED, run) && NoPacketPanics(UNCONNECTED, run) && AllStoreSucceeds(run)
    decreases |es|
  {
    if es == [] {
      OpeningConnects(clean);
    } else {
      ClientRuns(clean, Front(es));
      Safe(clean, Front(es));
      var s, before := RunTo(clean, Front(es)).value, ClientRun(clean, Front(es));
      SeenIsGood(s, Last(es));
      if ClientSees(s, Last(es)) == [] {
        assert before + [] == before;
      } else {
        var e := ClientSees(s, Last(es))[0];
        RunSnoc(before, e);
        var run := before + [e];
        assert GoodRun(UNCONNECTED, run) && NoPacketPanics(UNCONNECTED, run);
        forall i | 0 <= i < |run| ensures StoreSucceeds(run[i]) {
          if i < |before| { assert StoreSucceeds(before[i]); }
        }
      }
    }
  }

  // ------------------------------------------------------------ pings

  /** The loop handles a PINGRESP. */
  predicate IsPong(s: State, e: Event) { Active(s.status) && e.Inbound? && e.packet == PingRespMsg }

  /** A PINGRESP answers every caller that waits, and they wait no more. */
  lemma PingAnswersAll(s: State, e: Event)
    requires IsPong(s, e)
    ensures var d := Handle(s, e).0.data;
      && d.pingSubs == []
      && |d.replies| == |s.data.replies| + |s.data.pingSubs|
      && forall i | 0 <= i < |s.data.pingSubs| ::
        d.replies[|s.data.replies| + i] == (s.data.pingSubs[i], Onetime)
  {
    FlowEvent(s, e);
  }

  /** Until then they keep waiting, whatever else happens. */
  lemma PingCallersWait(s: State, e: Event)
    requires !IsPong(s, e)
    ensures s.data.pingSubs <= Handle(s, e).0.data.pingSubs
  {
    if e.Inbound? {
      if Active(s.status) && IsFlow(e.packet) {
        FlowEvent(s, e);
        FlowPings(s.data, e.packet, e.remove, e.append);
      }
    } else if e.ClientEvent? {
      RequestPings(s, e.request, e.sendOk);
    }
  }

  predicate NoPong(s: State, es: seq<Event>)
    decreases |es|
  {
    es == [] || (NoPong(s, Front(es)) && !IsPong(After(s, Front(es)), Last(es)))
  }

  lemma {:induction false} PingCallersKeepWaiting(s: State, es: seq<Event>)
    requires NoPong(s, es)
    ensures s.data.pingSubs <= After(s, es).data.pingSubs
    decreases |es|
  {
    if es != [] {
      PingCallersKeepWaiting(s, Front(es));
      PingCallersWait(After(s, Front(es)), Last(es));
    }
  }

  /** A caller that waits for a ping is answered by the next PINGRESP, however long that takes. */
  lemma AnsweredByNextPong(s: State, es: seq<Event>, t: State, e: Event, i: nat)
    requires t == After(s, es) && i < |s.data.pingSubs| && NoPong(s, es) && IsPong(t, e)
    ensures var n, d := |t.data.replies|, Handle(t, e).0.data;
      d.pingSubs == [] && n + i < |d.replies| && d.replies[n + i] == (s.data.pingSubs[i], Onetime)
  {
    PingCallersKeepWaiting(s, es);
    PingAnswersAll(t, e);
  }

  lemma RequestPings(s: State, r: Request, ok: bool)
    ensures s.data.pingSubs <= HandleRequest(s, r, ok).0.data.pingSubs
  {
  }

  lemma FlowPings(d: Data, p: Message, remove: RemoveResult, append: AppendResult)
    requires p != PingRespMsg
    ensures FlowStep(d, p, remove, append).0.pingSubs == d.pingSubs
  {
    match p
    case PubAckMsg(id) => AckFrame(d, id, remove);
    case PubRecMsg(id) => RecFrame(d, id, remove, append);
    case PubCompMsg(id) => CompFrame(d, id, remove);
    case PubRelMsg(id) => PubRelFrame(d, id);
    case SubAckMsg(id, codes) => SubAckFrame(d, id, codes);
    case _ =>
  }
}
