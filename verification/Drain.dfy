/** Draining the client's publishes while it waits to disconnect. */
module Drain {
  import opened Prelude
  import opened Packets
  import opened LoopModel
  import opened Ledger
  import opened Replies
  import opened Fate
  import opened System
  import opened Session
  import opened SessionRuns

  // ------------------------------------------------------------ remaining hops

  /** How many times a packet of a client publish and its successors are still to be processed. */
  function Hops(m: Message, up: bool): nat {
    match m
    case PublishMsg(qos, _, _, _, _) => if !up || qos == QoS0 then 0 else if qos == QoS1 then 2 else 4
    case PubRelMsg(_) => if up then 2 else 0
    case PubAckMsg(_) => if up then 0 else 1
    case PubRecMsg(_) => if up then 0 else 3
    case PubCompMsg(_) => if up then 0 else 1
    case _ => 0
  }

  function HopsUp(m: Message): nat { Hops(m, true) }

  function HopsDown(m: Message): nat { Hops(m, false) }

  /** What the packets of a queue weigh together. */
  function Sum(q: seq<Message>, w: Message -> nat): nat {
    if q == [] then 0 else w(q[0]) + Sum(q[1..], w)
  }

  lemma {:induction false} SumConcat(a: seq<Message>, b: seq<Message>, w: Message -> nat)
    ensures Sum(a + b, w) == Sum(a, w) + Sum(b, w)
  {
    if a == [] {
      assert a + b == b;
    } else {
      assert (a + b)[1..] == a[1..] + b;
      SumConcat(a[1..], b, w);
    }
  }

  /** A packet, if there is one, added to a queue. */
  lemma SumOpt(q: seq<Message>, m: Option<Message>, w: Message -> nat)
    ensures Sum(q + Opt(m), w) == Sum(q, w) + if m.Some? then w(m.value) else 0
  {
    SumConcat(q, Opt(m), w);
    if m.Some? { assert [m.value][1..] == []; }
  }

  lemma SumHead(m: Message, q: seq<Message>, w: Message -> nat)
    ensures Sum([m] + q, w) == w(m) + Sum(q, w)
  {
    assert ([m] + q)[1..] == q;
  }

  /** A packet taken out of a queue. */
  lemma SumWithout(q: seq<Message>, i: nat, w: Message -> nat)
    requires i < |q|
    ensures Sum(q, w) == Sum(q[..i] + q[i + 1..], w) + w(q[i])
  {
    var front, m, back := q[..i], q[i], q[i + 1..];
    assert q == front + ([m] + back);
    SumConcat(front, [m] + back, w);
    SumHead(m, back, w);
    SumConcat(front, back, w);
  }

  /** Lost packets keep their hops: they are never processed. */
  function AllHops(s: Sys): nat {
    Sum(s.toServer, HopsUp) + Sum(s.owed, HopsDown) + Sum(s.toClient, HopsDown) + Sum(s.lost, HopsDown)
  }

  /** A queue has at least as many hops to go as it has packets of any one client publish. */
  lemma {:induction false} HopsCover(q: seq<Message>, up: bool, id: u16)
    ensures Count(q, up, ClientPub(id)) <= if up then Sum(q, HopsUp) else Sum(q, HopsDown)
  {
    if q != [] { HopsCover(q[1..], up, id); }
  }

  /** The packet at hand, if the step processes one: by the server, or by the client in session. */
  function Processes(s: Sys, e: SysEvent): nat {
    match e
    case Receive(_) => if s.toClient != [] && Active(s.client.status) && FlowOf(s.toClient[0], false).ClientPub? then 1 else 0
    case Serve(_) => if s.toServer != [] && FlowOf(s.toServer[0], true).ClientPub? then 1 else 0
    case _ => 0
  }

  /** Hops that a new publish brings. */
  function Brings(s: Sys, e: SysEvent): nat {
    if e.Local? && e.e.ClientEvent? && e.e.request.PublishRequest? && s.client.status == Some(Connected) then
      match e.e.request.qos case QoS0 => 0 case QoS1 => 2 case QoS2 => 4
    else 0
  }

  /** What the client sends on receiving a packet of its own publishes is one hop on. */
  lemma ReceiveHops(s: Sys, key: Key)
    requires Inv(s) && s.toClient != [] && Active(s.client.status)
    ensures var m := s.toClient[0]; var o := Handle(s.client, Arrival(m, key)).1;
      (if o.sent.Some? then Hops(o.sent.value, true) else 0) + (if FlowOf(m, false).ClientPub? then 1 else 0)
      == Hops(m, false)
  {
    ReceiveStep(s, key);
    TakeFromClientQueue(s);
    var m := s.toClient[0];
    if IsFlow(m) {
      FlowEvent(s.client, Arrival(m, key));
      FlowSends(s.client.data, m, key);
    }
  }

  lemma FlowSends(d: Data, m: Message, key: Key)
    requires IsFlow(m) && FlowStep(d, m, Removed, Appended(key)).1.Send?
    ensures var p := FlowStep(d, m, Removed, Appended(key)).1.packet;
      p == if m.PubRecMsg? then Some(PubRelMsg(m.id)) else if m.PubRelMsg? then Some(PubCompMsg(m.id)) else None
  {
  }

  lemma ServeHops(m: Message, codes: seq<SubAckReturnCode>)
    ensures var a := Answer(m, codes);
      (if a.Some? then Hops(a.value, false) else 0) + (if FlowOf(m, true).ClientPub? then 1 else 0) == Hops(m, true)
  {
  }

  lemma LocalHops(s: Sys, e: Event)
    requires Inv(s) && Asked(s.client, e)
    ensures var o := Handle(s.client, e).1;
      (if o.sent.Some? then Hops(o.sent.value, true) else 0) == Brings(s, Local(e))
  {
    if e.ClientEvent? {
      assert Handle(s.client, e) == HandleRequest(s.client, e.request, e.sendOk);
      if s.client.status == Some(Connected) {
        RequestSends(NewCaller(s.client.data).0, e.request, s.client.data.callers);
      }
    }
  }

  lemma RequestSends(d: Data, r: Request, c: Caller)
    requires Sensible(d, r)
    ensures var res := RequestStep(d, r, c).1;
      if r.PublishRequest? then res.Send? && res.packet.Some? && res.packet.value.PublishMsg? && res.packet.value.qos == r.qos
      else res.Send? && res.packet.Some? ==> Hops(res.packet.value, true) == 0
  {
  }

  /** Every step takes off the hops exactly the packets it processes, new publishes aside. */
  lemma HopStep(s: Sys, e: SysEvent)
    requires Inv(s) && Enabled(s, e)
    ensures AllHops(Next(s, e)) + Processes(s, e) == AllHops(s) + Brings(s, e)
  {
    match e
    case Local(ev) => LocalHopStep(s, ev);
    case Receive(key) => ReceiveHopStep(s, key);
    case Serve(codes) =>
      ServeHops(s.toServer[0], codes);
      SumOpt(s.owed, Answer(s.toServer[0], codes), HopsDown);
    case Emit(i) =>
      SumWithout(s.owed, i, HopsDown);
      SumOpt(s.toClient, Some(s.owed[i]), HopsDown);
    case Originate(m) =>
      SumOpt(s.owed, Some(m), HopsDown);
  }

  lemma LocalHopStep(s: Sys, ev: Event)
    requires Inv(s) && Asked(s.client, ev)
    ensures AllHops(ClientHandles(s, ev)) == AllHops(s) + Brings(s, Local(ev))
  {
    LocalHops(s, ev);
    SumOpt(s.toServer, Handle(s.client, ev).1.sent, HopsUp);
  }

  lemma ReceiveHopStep(s: Sys, key: Key)
    requires Inv(s) && Enabled(s, Receive(key))
    ensures AllHops(Next(s, Receive(key))) + Processes(s, Receive(key)) == AllHops(s)
  {
    if Active(s.client.status) {
      ReceiveHops(s, key);
      SumOpt(s.toServer, Handle(s.client, Arrival(s.toClient[0], key)).1.sent, HopsUp);
    } else {
      ReceiveStep(s, key);
      assert Next(s, Receive(key)).toServer == s.toServer;
      SumOpt(s.lost, Some(s.toClient[0]), HopsDown);
    }
  }

  // ------------------------------------------------------------ draining

  predicate IsWaiting(s: Sys) {
    s.client.status.Some? && s.client.status.value.Disconnecting? && s.client.status.value.state.Waiting?
  }

  /** A client that waits to disconnect does so until a ping times out. */
  lemma WaitingUntilTimeout(s: Sys, e: SysEvent)
    requires Inv(s) && IsWaiting(s) && Enabled(s, e)
    ensures IsWaiting(Next(s, e)) <==> e != Local(PingTimeout)
  {
    if e.Receive? { ReceiveStep(s, e.key); }
  }

  predicate IsConnected(s: Sys) { s.client.status == Some(Connected) }

  /** Once it has left Connected, for whatever reason, the client is not connected again and takes on no publish. */
  lemma LeftForGood(s: Sys, e: SysEvent)
    requires Inv(s) && !IsConnected(s) && Enabled(s, e)
    ensures !IsConnected(Next(s, e)) && Brings(s, e) == 0
    ensures e.Local? ==> AcceptedBy(s.client, e.e) == {}
  {
    if e.Receive? { ReceiveStep(s, e.key); }
  }

  /** The packets of client publishes processed in a run that goes on from `s`. */
  function Processed(s: Sys, es: seq<SysEvent>): nat
    decreases |es|
  {
    if es == [] || !Enabled(s, es[0]) then 0 else Processes(s, es[0]) + Processed(Next(s, es[0]), es[1..])
  }

  /** The system after the enabled steps of a run that goes on from `s`. */
  function Continue(s: Sys, es: seq<SysEvent>): Sys
    decreases |es|
  {
    if es == [] || !Enabled(s, es[0]) then s else Continue(Next(s, es[0]), es[1..])
  }

  /**
   Once the client has left Connected, each packet of a client publish that either side
   processes takes one hop off, and nothing puts one on, timers included: no run processes more
   packets than there were hops to go.
   */
  lemma {:induction false} DrainBound(s: Sys, es: seq<SysEvent>)
    requires Inv(s) && !IsConnected(s)
    ensures AllHops(Continue(s, es)) + Processed(s, es) == AllHops(s)
    ensures Inv(Continue(s, es)) && !IsConnected(Continue(s, es))
    decreases |es|
  {
    if es != [] && Enabled(s, es[0]) {
      InvStep(s, es[0]);
      LeftForGood(s, es[0]);
      HopStep(s, es[0]);
      DrainBound(Next(s, es[0]), es[1..]);
    }
  }

  /** A drain begins with a disconnect that waits: it sends nothing, and its run takes off the hops there are. */
  lemma DisconnectDrains(clean: bool, es: seq<SysEvent>, s: Sys, ok: bool, more: seq<SysEvent>)
    requires RunTo(clean, es) == Some(s) && IsConnected(s)
    ensures Enabled(s, Local(DisconnectEvent(true, ok)))
    ensures var t := Next(s, Local(DisconnectEvent(true, ok)));
      && IsWaiting(t) && t.client.status.value.ret == s.client.data.callers && t.toServer == s.toServer
      && AllHops(Continue(t, more)) + Processed(t, more) == AllHops(s)
      && !IsConnected(Continue(t, more))
  {
    var e := Local(DisconnectEvent(true, ok));
    Safe(clean, es);
    InvStep(s, e);
    HopStep(s, e);
    DrainBound(Next(s, e), more);
  }

  /** One that does not wait sends DISCONNECT last of all, and the session is over. */
  lemma {:induction false} DisconnectEnds(clean: bool, es: seq<SysEvent>, s: Sys, more: seq<SysEvent>)
    requires RunTo(clean, es) == Some(s) && IsConnected(s)
    ensures var t := Next(s, Local(DisconnectEvent(false, true)));
      && t.toServer == s.toServer + [DisconnectMsg]
      && !Active(Continue(t, more).client.status)
  {
    Safe(clean, es);
    InvStep(s, Local(DisconnectEvent(false, true)));
    StaysOut(Next(s, Local(DisconnectEvent(false, true))), more);
  }

  lemma {:induction false} StaysOut(s: Sys, es: seq<SysEvent>)
    requires Inv(s) && !Active(s.client.status)
    ensures !Active(Continue(s, es).client.status)
    decreases |es|
  {
    if es != [] && Enabled(s, es[0]) {
      InvStep(s, es[0]);
      OutForGood(s, es[0]);
      StaysOut(Next(s, es[0]), es[1..]);
    }
  }

  /** With no hops to go, nothing is in flight. */
  lemma DrainedFlights(s: Sys)
    requires Inv(s) && AllHops(s) == 0
    ensures s.client.data.clientPublishState == map[]
  {
    forall id ensures id !in s.client.data.clientPublishState {
      assert FlowOk(s, ClientPub(id));
      HopsCover(s.toServer, true, id);
      HopsCover(s.owed, false, id);
      HopsCover(s.toClient, false, id);
      HopsCover(s.lost, false, id);
    }
  }

  // ------------------------------------------------------------ what callers were told

  /** All answers to callers of accepted publishes are good ones. */
  ghost predicate AllOk(s: State, accepted: set<Caller>) {
    forall i | 0 <= i < |s.data.replies| :: s.data.replies[i].0 in accepted ==> s.data.replies[i].1 == Onetime
  }

  /** An answer to give: a good one, or one that goes to a caller without a publish. */
  ghost predicate Proper(s: State, answer: (Caller, Reply)) {
    answer.1 == Onetime || At(s, InStatus, answer.0) || exists k :: At(s, InOneTime(k), answer.0)
  }

  /** Answers were added, and each is proper. */
  ghost predicate AddsProper(s: State, d': Data) {
    && s.data.replies <= d'.replies
    && forall i | |s.data.replies| <= i < |d'.replies| :: Proper(s, d'.replies[i])
  }

  /** If the store does not fail, what a flight answers is good. */
  lemma FlightAnswers(d: Data, id: u16, key: Key)
    ensures var a := PubAckStep(d, id, Removed).0.replies; a == d.replies || exists c :: a == d.replies + [(c, Onetime)]
    ensures PubRecStep(d, id, Removed, Appended(key)).0.replies == d.replies
    ensures var a := PubCompStep(d, id, Removed).0.replies; a == d.replies || exists c :: a == d.replies + [(c, Onetime)]
  {
  }

  lemma FlowAnswers(s: State, p: Message, key: Key)
    ensures AddsProper(s, FlowStep(s.data, p, Removed, Appended(key)).0)
  {
    match p
    case PubAckMsg(id) => FlightAnswers(s.data, id, key);
    case PubRecMsg(id) => FlightAnswers(s.data, id, key);
    case PubCompMsg(id) => FlightAnswers(s.data, id, key);
    case PubRelMsg(id) => PubRelFrame(s.data, id);
    case SubAckMsg(id, codes) =>
      SubAckFrame(s.data, id, codes);
      if SubscribeKey(id) in s.data.oneTime {
        assert At(s, InOneTime(SubscribeKey(id)), s.data.oneTime[SubscribeKey(id)].1);
      }
    case _ =>
  }

  lemma InboundAnswers(s: State, p: Message, key: Key, ok: bool)
    ensures AddsProper(s, HandleInbound(s, p, Removed, Appended(key), ok).0.data)
  {
    if Active(s.status) && (s.status != Some(Connected) || IsFlow(p)) { FlowAnswers(s, p, key); }
  }

  /** A new answer goes to someone waiting, and to the caller of a publish it is a good one. */
  lemma NewAnswers(s: State, e: Event)
    requires StoreSucceeds(e)
    ensures AddsProper(s, Handle(s, e).0.data)
  {
    if e.Inbound? {
      InboundAnswers(s, e.packet, e.append.key, e.sendOk);
    } else if e.ClientEvent? {
      RequestMakes(s, e.request, e.sendOk);
    }
  }

  lemma AllOkStep(s: State, e: Event, accepted: set<Caller>, letGo: set<Caller>)
    requires OnePlace(s) && Accounted(s, accepted, letGo) && AllOk(s, accepted) && StoreSucceeds(e)
    ensures AllOk(Handle(s, e).0, accepted + AcceptedBy(s, e))
  {
    var s' := Handle(s, e).0;
    NewAnswers(s, e);
    forall i | 0 <= i < |s'.data.replies| && s'.data.replies[i].0 in accepted + AcceptedBy(s, e)
      ensures s'.data.replies[i].1 == Onetime
    {
      var c := s'.data.replies[i].0;
      if i < |s.data.replies| {
        assert At(s, Answered(i), c);
      } else {
        assert Proper(s, s'.data.replies[i]);
      }
    }
  }

  lemma NobodyLetGo(s: State, e: Event)
    requires DistinctId(s, e) && !PacketPanics(s, e) && StoreSucceeds(e)
    ensures LetGoBy(s, e) == {}
  {
    if AcksPublish(s, e) && WrongState(s.data, e.packet) { WrongStatePanics(s, e); }
  }

  lemma {:induction false} AllOkHolds(es: seq<Event>)
    requires GoodRun(UNCONNECTED, es) && NoPacketPanics(UNCONNECTED, es) && AllStoreSucceeds(es)
    ensures AllOk(After(UNCONNECTED, es), Accepted(UNCONNECTED, es)) && LetGo(UNCONNECTED, es) == {}
    decreases |es|
  {
    if es != [] {
      assert StoreSucceeds(es[|es| - 1]);
      forall i | 0 <= i < |Front(es)| ensures StoreSucceeds(Front(es)[i]) { assert StoreSucceeds(es[i]); }
      AllOkHolds(Front(es));
      AccountsHold(Front(es));
      NobodyLetGo(After(UNCONNECTED, Front(es)), Last(es));
      AllOkStep(After(UNCONNECTED, Front(es)), Last(es), Accepted(UNCONNECTED, Front(es)), LetGo(UNCONNECTED, Front(es)));
    }
  }

  /** The answers that a caller got. */
  function Answers(replies: seq<(Caller, Reply)>, c: Caller): seq<Reply> {
    if replies == [] then [] else (if replies[0].0 == c then [replies[0].1] else []) + Answers(replies[1..], c)
  }

  lemma {:induction false} NoAnswers(replies: seq<(Caller, Reply)>, c: Caller)
    requires forall i | 0 <= i < |replies| :: replies[i].0 != c
    ensures Answers(replies, c) == []
  {
    if replies != [] { NoAnswers(replies[1..], c); }
  }

  lemma {:induction false} OneAnswer(replies: seq<(Caller, Reply)>, c: Caller, i: nat)
    requires i < |replies| && replies[i].0 == c
    requires forall j | 0 <= j < |replies| :: replies[j].0 == c ==> j == i
    ensures Answers(replies, c) == [replies[i].1]
  {
    if i == 0 {
      forall j | 0 <= j < |replies[1..]| ensures replies[1..][j].0 != c { assert replies[j + 1].0 != c; }
      NoAnswers(replies[1..], c);
    } else {
      forall j | 0 <= j < |replies[1..]| && replies[1..][j].0 == c ensures j == i - 1 { assert replies[j + 1].0 == c; }
      OneAnswer(replies[1..], c, i - 1);
    }
  }

  lemma NothingStored(d: Data)
    requires Exact(d) && d.clientPublishState == map[]
    ensures d.persistence == map[]
  {
    forall k ensures k !in d.persistence {}
  }

  lemma EachAnsweredOnce(s: State, accepted: set<Caller>)
    requires OnePlace(s) && Accounted(s, accepted, {}) && AllOk(s, accepted) && s.data.clientPublishState == map[]
    ensures forall c | c in accepted :: Answers(s.data.replies, c) == [Onetime]
  {
    forall c | c in accepted ensures Answers(s.data.replies, c) == [Onetime] {
      assert !Flying(s, c);
      var i :| At(s, Answered(i), c);
      forall j | 0 <= j < |s.data.replies| && s.data.replies[j].0 == c ensures j == i { assert At(s, Answered(j), c); }
      OneAnswer(s.data.replies, c, i);
    }
  }

  /** Nothing in flight, an empty store, and one answer, a good one, for each caller. */
  predicate Drained(d: Data, accepted: set<Caller>) {
    && d.clientPublishState == map[] && d.persistence == map[]
    && forall c | c in accepted :: Answers(d.replies, c) == [Onetime]
  }

  /**
   When no hops are left to go, nothing is in flight, the store is empty, and every caller
   whose publish was accepted has exactly one answer, a good one.
   */
  lemma DrainedCompletely(clean: bool, es: seq<SysEvent>, s: Sys)
    requires RunTo(clean, es) == Some(s) && AllHops(s) == 0
    ensures Drained(s.client.data, Accepted(UNCONNECTED, ClientRun(clean, es)))
  {
    var run := ClientRun(clean, es);
    Safe(clean, es);
    DrainedFlights(s);
    ClientRuns(clean, es);
    LedgerHolds(None, run);
    NothingStored(s.client.data);
    AccountsHold(run);
    AllOkHolds(run);
    EachAnsweredOnce(s.client, Accepted(UNCONNECTED, run));
  }
}
