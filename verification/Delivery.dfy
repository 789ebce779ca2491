/** The server is handed each accepted publish exactly once, as it was asked for. */
module Delivery {
  import opened Prelude
  import opened Packets
  import opened LoopModel
  import opened Fate
  import opened System
  import opened SessionRuns
  import opened Drain
  import opened Quiescence
  import opened Subscriptions
  import opened Outcomes
  import opened StatusRuns
  import ExactlyOnce

  // ------------------------------------------------------------ requests of the client

  /** A publish, subscribe or unsubscribe. */
  predicate IsRequest(m: Message) { m.PublishMsg? || m.SubscribeMsg? || m.UnsubscribeMsg? }

  /** The requests of a queue, in order. */
  function RequestsIn(q: seq<Message>): seq<Message> {
    if q == [] then [] else (if IsRequest(q[0]) then [q[0]] else []) + RequestsIn(q[1..])
  }

  /** Those that the server has processed in a run. */
  function ServedIn(clean: bool, es: seq<SysEvent>): seq<Message>
    requires RunTo(clean, es).Some?
    decreases |es|
  {
    if es == [] then []
    else
      var s := RunTo(clean, Front(es)).value;
      ServedIn(clean, Front(es)) + (if Last(es).Serve? then RequestsIn([s.toServer[0]]) else [])
  }

  /** What an event asks the client to send, word for word. */
  function AskedMessage(s: State, e: Event): seq<Message> {
    if !e.ClientEvent? || s.status != Some(Connected) then []
    else
      var id := NextId(s.data);
      match e.request
      case PublishRequest(qos, retain, topic, payload, append) =>
        if qos == QoS0 then [PublishMsg(QoS0, retain, 0, topic, payload)]
        else if append.Appended? then [PublishMsg(qos, retain, id, topic, payload)] else []
      case SubscribeRequest(subs) => if TextsFit(Topics(subs)) then [SubscribeMsg(id, subs)] else []
      case UnsubscribeRequest(topics) => if TextsFit(topics) then [UnsubscribeMsg(id, topics)] else []
      case PingRequest => []
  }

  function AskedMessages(s: State, es: seq<Event>): seq<Message>
    decreases |es|
  {
    if es == [] then [] else AskedMessages(s, Front(es)) + AskedMessage(After(s, Front(es)), Last(es))
  }

  lemma {:induction false} RequestsConcat(a: seq<Message>, b: seq<Message>)
    ensures RequestsIn(a + b) == RequestsIn(a) + RequestsIn(b)
  {
    if a == [] {
      assert a + b == b;
    } else {
      assert (a + b)[1..] == a[1..] + b;
      RequestsConcat(a[1..], b);
      ConcatAssoc(if IsRequest(a[0]) then [a[0]] else [], RequestsIn(a[1..]), RequestsIn(b));
    }
  }

  lemma RequestsOpt(m: Option<Message>)
    ensures RequestsIn(Opt(m)) == if m.Some? && IsRequest(m.value) then [m.value] else []
  {
    if m.Some? { assert [m.value][1..] == []; }
  }

  /** What the client sends of its own accord is what it is asked to. */
  lemma LocalSends(s: Sys, e: Event)
    requires Asked(s.client, e)
    ensures RequestsIn(Opt(Handle(s.client, e).1.sent)) == AskedMessage(s.client, e)
  {
    RequestsOpt(Handle(s.client, e).1.sent);
    if e.ClientEvent? && s.client.status == Some(Connected) { RequestSent(s.client, e.request); }
  }

  lemma RequestSent(s: State, r: Request)
    requires s.status == Some(Connected)
    ensures var m, sent := AskedMessage(s, ClientEvent(r, true)), Handle(s, ClientEvent(r, true)).1.sent;
      if r.PingRequest? then m == [] && (sent.Some? ==> !IsRequest(sent.value)) else m == Opt(sent) && (sent.Some? ==> IsRequest(sent.value))
  {
    match r
    case PublishRequest(_, _, _, _, _) => PublishOutcome(s, r, true);
    case SubscribeRequest(subs) => TableSent(s, r, SubscribeKey(NextId(s.data)));
    case UnsubscribeRequest(topics) => TableSent(s, r, UnsubscribeKey(NextId(s.data)));
    case PingRequest => PingOutcome(s, true);
  }

  lemma TableSent(s: State, r: Request, key: OneTimeKey)
    requires s.status == Some(Connected) && (r.SubscribeRequest? || r.UnsubscribeRequest?)
    requires key == if r.SubscribeRequest? then SubscribeKey(NextId(s.data)) else UnsubscribeKey(NextId(s.data))
    ensures Opt(Handle(s, ClientEvent(r, true)).1.sent) == AskedMessage(s, ClientEvent(r, true))
  {
    if key in RequestBy(s, ClientEvent(r, true)) {
      AskedIsSent(s, ClientEvent(r, true), key);
    } else {
      TooLongOutcome(s, r, true);
    }
  }

  lemma FlowSendsNone(d: Data, m: Message, remove: RemoveResult, append: AppendResult)
    ensures var r := FlowStep(d, m, remove, append).1; r.Send? && r.packet.Some? ==> !IsRequest(r.packet.value)
  {
  }

  /** What it sends on receiving a packet is no request. */
  lemma ReceiveSends(c: State, m: Message, key: Key)
    ensures RequestsIn(Opt(Handle(c, Arrival(m, key)).1.sent)) == []
  {
    RequestsOpt(Handle(c, Arrival(m, key)).1.sent);
    FlowSendsNone(c.data, m, Removed, Appended(key));
  }

  /** The server's queue after one step. */
  lemma QueueStep(s: Sys, e: SysEvent)
    requires Enabled(s, e)
    ensures (if e.Serve? then RequestsIn([s.toServer[0]]) else []) + RequestsIn(Next(s, e).toServer)
      == RequestsIn(s.toServer) + (if e.Local? then AskedMessage(s.client, e.e) else [])
  {
    match e
    case Local(ev) =>
      LocalSends(s, ev);
      RequestsConcat(s.toServer, Opt(Handle(s.client, ev).1.sent));
    case Receive(key) =>
      ReceiveSends(s.client, s.toClient[0], key);
      RequestsConcat(s.toServer, Opt(Handle(s.client, Arrival(s.toClient[0], key)).1.sent));
    case Serve(_) =>
      assert s.toServer == [s.toServer[0]] + s.toServer[1..];
      RequestsConcat([s.toServer[0]], s.toServer[1..]);
    case _ =>
  }

  lemma SeenAsks(s: Sys, e: SysEvent, before: seq<Event>)
    requires Enabled(s, e) && s.client == After(UNCONNECTED, before)
    ensures AskedMessages(UNCONNECTED, before + ClientSees(s, e))
      == AskedMessages(UNCONNECTED, before) + (if e.Local? then AskedMessage(s.client, e.e) else [])
  {
    if ClientSees(s, e) == [] {
      assert before + [] == before;
    } else {
      RunSnoc(before, ClientSees(s, e)[0]);
    }
  }

  lemma Chain(a: seq<Message>, b: seq<Message>, c: seq<Message>, d: seq<Message>, e: seq<Message>)
    requires b + c == d + e
    ensures a + b + c == a + d + e
  {
    assert a + b + c == a + (b + c) == a + (d + e);
  }

  /**
   Over every run, timers included, the requests that the server has processed and those on
   their way to it are those that the client was asked for, one for one, in order and unchanged.
   */
  lemma {:induction false} HandedOver(clean: bool, es: seq<SysEvent>, s: Sys)
    requires RunTo(clean, es) == Some(s)
    ensures ServedIn(clean, es) + RequestsIn(s.toServer) == AskedMessages(UNCONNECTED, ClientRun(clean, es))
    decreases |es|
  {
    if es == [] {
      OpeningAsks(clean);
    } else {
      var before, e := RunTo(clean, Front(es)).value, Last(es);
      HandedOver(clean, Front(es), before);
      ClientRuns(clean, Front(es));
      SeenAsks(before, e, ClientRun(clean, Front(es)));
      QueueStep(before, e);
      Chain(ServedIn(clean, Front(es)), if e.Serve? then RequestsIn([before.toServer[0]]) else [], RequestsIn(s.toServer),
        RequestsIn(before.toServer), if e.Local? then AskedMessage(before.client, e.e) else []);
    }
  }

  lemma OpeningAsks(clean: bool)
    ensures AskedMessages(UNCONNECTED, Opening(clean)) == []
  {
    var es := Opening(clean);
    assert Front(es) == [ConnectEvent(true)] && Front(Front(es)) == [];
  }

  /** The publishes of a sequence that are acknowledged. */
  function PublishesIn(q: seq<Message>): seq<Message> {
    if q == [] then []
    else (if q[0].PublishMsg? && q[0].qos != QoS0 then [q[0]] else []) + PublishesIn(q[1..])
  }

  lemma {:induction false} PublishesConcat(a: seq<Message>, b: seq<Message>)
    ensures PublishesIn(a + b) == PublishesIn(a) + PublishesIn(b)
  {
    if a == [] {
      assert a + b == b;
    } else {
      assert (a + b)[1..] == a[1..] + b;
      PublishesConcat(a[1..], b);
      ConcatAssoc(if a[0].PublishMsg? && a[0].qos != QoS0 then [a[0]] else [], PublishesIn(a[1..]), PublishesIn(b));
    }
  }

  predicate NoPublish(q: seq<Message>) { forall i | 0 <= i < |q| :: !(q[i].PublishMsg? && q[i].qos != QoS0) }

  lemma {:induction false} NoPublishesIn(q: seq<Message>)
    requires NoPublish(q)
    ensures PublishesIn(RequestsIn(q)) == []
  {
    if q != [] {
      forall i | 0 <= i < |q[1..]| ensures !(q[1..][i].PublishMsg? && q[1..][i].qos != QoS0) {
        assert !(q[i + 1].PublishMsg? && q[i + 1].qos != QoS0);
      }
      NoPublishesIn(q[1..]);
      assert !(q[0].PublishMsg? && q[0].qos != QoS0);
      var first := if IsRequest(q[0]) then [q[0]] else [];
      PublishesConcat(first, RequestsIn(q[1..]));
      if first != [] { assert [q[0]][1..] == []; }
    }
  }

  /** With nothing in flight, the server has processed exactly the accepted publishes. */
  lemma AllHandedOver(clean: bool, es: seq<SysEvent>, s: Sys)
    requires RunTo(clean, es) == Some(s) && s.client.data.clientPublishState == map[]
    ensures PublishesIn(ServedIn(clean, es)) == PublishesIn(AskedMessages(UNCONNECTED, ClientRun(clean, es)))
  {
    HandedOver(clean, es, s);
    Safe(clean, es);
    forall i | 0 <= i < |s.toServer| ensures !(s.toServer[i].PublishMsg? && s.toServer[i].qos != QoS0) {}
    NoPublishesIn(s.toServer);
    PublishesConcat(ServedIn(clean, es), RequestsIn(s.toServer));
  }

  /** With the channel empty, it has processed everything that was asked. */
  lemma EverythingHandedOver(clean: bool, es: seq<SysEvent>, s: Sys)
    requires RunTo(clean, es) == Some(s) && s.toServer == []
    ensures ServedIn(clean, es) == AskedMessages(UNCONNECTED, ClientRun(clean, es))
  {
    HandedOver(clean, es, s);
  }

  /** At rest, every QoS 2 publish taken in from the server has been dispatched. */
  lemma AllDispatched(clean: bool, es: seq<SysEvent>, s: Sys, id: u16)
    requires RunTo(clean, es) == Some(s) && AtRest(s.client.data)
    ensures var run := ClientRun(clean, es);
      ExactlyOnce.Taken(UNCONNECTED, run, id) == ExactlyOnce.Released(UNCONNECTED, run, id)
  {
    ClientRuns(clean, es);
    ExactlyOnce.TakenAndReleased(None, ClientRun(clean, es), id);
  }

  // ------------------------------------------------------------ publishes of the server

  predicate IsPublish(m: Message, qos: QualityOfService, id: u16) { m.PublishMsg? && m.qos == qos && m.id == id }

  /** Counts the publishes of one kind. */
  function Publish(qos: QualityOfService, id: u16): Message -> nat {
    (m: Message) => if IsPublish(m, qos, id) then 1 else 0
  }

  function Originated(es: seq<SysEvent>, qos: QualityOfService, id: u16): nat
    decreases |es|
  {
    if es == [] then 0
    else
      var last := if Last(es).Originate? then Publish(qos, id)(Last(es).m) else 0;
      Originated(Front(es), qos, id) + last
  }

  /** Those that reached the client while it was connected. */
  function Arrived(clean: bool, es: seq<SysEvent>, qos: QualityOfService, id: u16): nat
    requires RunTo(clean, es).Some?
    decreases |es|
  {
    if es == [] then 0
    else
      var s := RunTo(clean, Front(es)).value;
      Arrived(clean, Front(es), qos, id)
        + (if Last(es).Receive? && IsConnected(s) then Publish(qos, id)(s.toClient[0]) else 0)
  }

  /** Those that reached it later, while it waited to disconnect or afterwards. */
  function Dropped(clean: bool, es: seq<SysEvent>, qos: QualityOfService, id: u16): nat
    requires RunTo(clean, es).Some?
    decreases |es|
  {
    if es == [] then 0
    else
      var s := RunTo(clean, Front(es)).value;
      Dropped(clean, Front(es), qos, id)
        + (if Last(es).Receive? && !IsConnected(s) then Publish(qos, id)(s.toClient[0]) else 0)
  }

  function OnTheWay(s: Sys, qos: QualityOfService, id: u16): nat {
    Sum(s.owed, Publish(qos, id)) + Sum(s.toClient, Publish(qos, id))
  }

  lemma OnTheWayStep(s: Sys, e: SysEvent, qos: QualityOfService, id: u16)
    requires Enabled(s, e)
    ensures OnTheWay(Next(s, e), qos, id) + (if e.Receive? then Publish(qos, id)(s.toClient[0]) else 0)
      == OnTheWay(s, qos, id) + (if e.Originate? then Publish(qos, id)(e.m) else 0)
  {
    var w := Publish(qos, id);
    match e
    case Serve(codes) => SumOpt(s.owed, Answer(s.toServer[0], codes), w);
    case Emit(i) =>
      SumWithout(s.owed, i, w);
      SumOpt(s.toClient, Some(s.owed[i]), w);
    case Originate(m) => SumOpt(s.owed, Some(m), w);
    case _ =>
  }

  /** Over every run, what the server published has arrived, was dropped, or is on its way. */
  lemma {:induction false} OriginatedConserved(clean: bool, es: seq<SysEvent>, s: Sys, qos: QualityOfService, id: u16)
    requires RunTo(clean, es) == Some(s)
    ensures Originated(es, qos, id) == Arrived(clean, es, qos, id) + Dropped(clean, es, qos, id) + OnTheWay(s, qos, id)
    decreases |es|
  {
    if es != [] {
      var before := RunTo(clean, Front(es)).value;
      OriginatedConserved(clean, Front(es), before, qos, id);
      OnTheWayStep(before, Last(es), qos, id);
    }
  }

  /** A QoS 2 publish that arrives while connected is taken in. */
  lemma ArrivalIsTaken(s: Sys, key: Key, id: u16)
    requires Inv(s) && s.toClient != []
    ensures ExactlyOnce.TakesPublish(s.client, Arrival(s.toClient[0], key), id)
      <==> IsConnected(s) && IsPublish(s.toClient[0], QoS2, id)
  {
    TakeFromClientQueue(s);
  }

  lemma {:induction false} ArrivedIsTaken(clean: bool, es: seq<SysEvent>, s: Sys, id: u16)
    requires RunTo(clean, es) == Some(s)
    ensures Arrived(clean, es, QoS2, id) == ExactlyOnce.Taken(UNCONNECTED, ClientRun(clean, es), id)
    decreases |es|
  {
    if es == [] {
      OpeningTakes(clean, id);
    } else {
      var before, run := RunTo(clean, Front(es)).value, ClientRun(clean, Front(es));
      ArrivedIsTaken(clean, Front(es), before, id);
      ClientRuns(clean, Front(es));
      Safe(clean, Front(es));
      if Last(es).Receive? { ArrivalIsTaken(before, Last(es).key, id); }
      SeenTakes(before, Last(es), run, id);
    }
  }

  lemma SeenTakes(s: Sys, e: SysEvent, before: seq<Event>, id: u16)
    requires Enabled(s, e) && s.client == After(UNCONNECTED, before)
    ensures ExactlyOnce.Taken(UNCONNECTED, before + ClientSees(s, e), id) == ExactlyOnce.Taken(UNCONNECTED, before, id)
      + (if e.Receive? && ExactlyOnce.TakesPublish(s.client, Arrival(s.toClient[0], e.key), id) then 1 else 0)
  {
    if ClientSees(s, e) == [] {
      assert before + [] == before;
    } else {
      RunSnoc(before, ClientSees(s, e)[0]);
    }
  }

  lemma OpeningTakes(clean: bool, id: u16)
    ensures ExactlyOnce.Taken(UNCONNECTED, Opening(clean), id) == 0
  {
    var es := Opening(clean);
    assert Front(es) == [ConnectEvent(true)] && Front(Front(es)) == [];
  }

  /** At rest, every QoS 2 publish of the server was dispatched or dropped, or is on its way. */
  lemma AllAccountedFor(clean: bool, es: seq<SysEvent>, s: Sys, id: u16)
    requires RunTo(clean, es) == Some(s) && AtRest(s.client.data)
    ensures Originated(es, QoS2, id) == ExactlyOnce.Released(UNCONNECTED, ClientRun(clean, es), id)
      + Dropped(clean, es, QoS2, id) + OnTheWay(s, QoS2, id)
  {
    OriginatedConserved(clean, es, s, QoS2, id);
    ArrivedIsTaken(clean, es, s, id);
    AllDispatched(clean, es, s, id);
  }

  // ------------------------------------------------------------ acknowledgements of the client

  function IsPubAck(id: u16): Message -> nat { (m: Message) => if m == PubAckMsg(id) then 1 else 0 }

  /** The PUBACKs for an identifier that the server has processed in a run. */
  function AcksServed(clean: bool, es: seq<SysEvent>, id: u16): nat
    requires RunTo(clean, es).Some?
    decreases |es|
  {
    if es == [] then 0
    else
      var s := RunTo(clean, Front(es)).value;
      AcksServed(clean, Front(es), id) + (if Last(es).Serve? then IsPubAck(id)(s.toServer[0]) else 0)
  }

  /** Those on their way to it. */
  function AcksUp(s: Sys, id: u16): nat { Sum(s.toServer, IsPubAck(id)) }

  lemma LocalSendsNoAck(c: State, e: Event, id: u16)
    requires !e.Inbound?
    ensures Handle(c, e).1.sent != Some(PubAckMsg(id))
  {
  }

  /** A PUBACK is sent exactly for a QoS 1 publish that arrives while connected. */
  lemma ReceiveAcks(clean: bool, es: seq<SysEvent>, s: Sys, key: Key, id: u16)
    requires RunTo(clean, es) == Some(s) && s.toClient != []
    ensures Handle(s.client, Arrival(s.toClient[0], key)).1.sent == Some(PubAckMsg(id))
      <==> IsConnected(s) && IsPublish(s.toClient[0], QoS1, id)
  {
    NoHandlerFails(clean, es, s, key);
    ClientRuns(clean, es);
    InboundOutcome(None, ClientRun(clean, es), s.client, Arrival(s.toClient[0], key));
  }

  lemma AcksUpStep(clean: bool, es: seq<SysEvent>, s: Sys, e: SysEvent, id: u16)
    requires RunTo(clean, es) == Some(s) && Enabled(s, e)
    ensures AcksUp(Next(s, e), id) + (if e.Serve? then IsPubAck(id)(s.toServer[0]) else 0)
      == AcksUp(s, id) + (if e.Receive? && IsConnected(s) then Publish(QoS1, id)(s.toClient[0]) else 0)
  {
    match e
    case Local(ev) =>
      LocalSendsNoAck(s.client, ev, id);
      SumOpt(s.toServer, Handle(s.client, ev).1.sent, IsPubAck(id));
    case Receive(key) =>
      ReceiveAcks(clean, es, s, key, id);
      SumOpt(s.toServer, Handle(s.client, Arrival(s.toClient[0], key)).1.sent, IsPubAck(id));
    case _ =>
  }

  /** Over every run, each QoS 1 publish that arrived while connected has its one PUBACK, served or on its way. */
  lemma {:induction false} AckPerArrival(clean: bool, es: seq<SysEvent>, s: Sys, id: u16)
    requires RunTo(clean, es) == Some(s)
    ensures Arrived(clean, es, QoS1, id) == AcksServed(clean, es, id) + AcksUp(s, id)
    decreases |es|
  {
    if es != [] {
      var before := RunTo(clean, Front(es)).value;
      AckPerArrival(clean, Front(es), before, id);
      AcksUpStep(clean, Front(es), before, Last(es), id);
    }
  }

  function Awaits(s: Sys, id: u16): nat { if id in s.flights && s.flights[id] == AwaitAck then 1 else 0 }

  lemma AwaitStep(s: Sys, e: SysEvent, id: u16)
    requires Inv(s) && Enabled(s, e)
    ensures Awaits(Next(s, e), id) + (if e.Serve? then IsPubAck(id)(s.toServer[0]) else 0)
      == Awaits(s, id) + (if e.Originate? then Publish(QoS1, id)(e.m) else 0)
  {
    if e.Serve? { TakeFromServerQueue(s); }
  }

  /** The server waits for a PUBACK exactly as long as it has not processed the one for its publish. */
  lemma {:induction false} AwaitedAcks(clean: bool, es: seq<SysEvent>, s: Sys, id: u16)
    requires RunTo(clean, es) == Some(s)
    ensures Originated(es, QoS1, id) == AcksServed(clean, es, id) + Awaits(s, id)
    decreases |es|
  {
    if es != [] {
      var before := RunTo(clean, Front(es)).value;
      AwaitedAcks(clean, Front(es), before, id);
      Safe(clean, Front(es));
      AwaitStep(before, Last(es), id);
    }
  }

  /**
   A QoS 1 publish of the server that is not acknowledged was dropped, or it or its PUBACK is on
   its way. So with nothing under way and nothing dropped, the server waits for none.
   */
  lemma UnacknowledgedIs(clean: bool, es: seq<SysEvent>, s: Sys, id: u16)
    requires RunTo(clean, es) == Some(s)
    ensures Awaits(s, id) == Dropped(clean, es, QoS1, id) + OnTheWay(s, QoS1, id) + AcksUp(s, id)
  {
    OriginatedConserved(clean, es, s, QoS1, id);
    AckPerArrival(clean, es, s, id);
    AwaitedAcks(clean, es, s, id);
  }
}
