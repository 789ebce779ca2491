/** What every step of a session keeps, and what follows for the handlers. */
module Session {
  import opened Prelude
  import opened Packets
  import opened TopicFilters
  import opened LoopModel
  import opened System

  // ------------------------------------------------------------ packets arriving at the client

  /** The client takes packet `m` without error, and its answer, if any, keeps the invariant. */
  ghost predicate Goes(v: Sys, m: Message, key: Key) {
    && Inv(ClientHandles(v, Arrival(m, key)))
    && Handle(v.client, Arrival(m, key)).1.response == Empty
  }

  lemma Arrives(v: Sys, m: Message, key: Key, d: Data, r: Option<Message>)
    requires Active(v.client.status)
    requires Handle(v.client, Arrival(m, key)) == (v.client.(data := d), Outcome(r, Empty))
    requires var f := FlowOf(m, false); var t := v.(client := v.client.(data := d));
      && Vacant(v, f) && OnlyPart(v, t, f)
      && var p := PartOf(d, v.flights, f);
      && (f != NoFlow ==> PartOk(f, p) && Least(p) <= |Opt(r)| <= Most(p))
      && (r.Some? ==> FlowOf(r.value, true) == f && Fits(p, r.value, true))
    ensures Goes(v, m, key)
  {
    var t := ClientHandles(v, Arrival(m, key));
    Advance(v, t, FlowOf(m, false), r, None);
  }

  /** What is known in session when a packet has been taken off the channel. */
  ghost predicate Taken(v: Sys, m: Message) { Active(v.client.status) && Waits(v, m) }

  ghost predicate Waits(v: Sys, m: Message) {
    var f := FlowOf(m, false);
    && Vacant(v, f)
    && (f != NoFlow ==> Most(PartOf(v.client.data, v.flights, f)) == 1)
    && Fits(PartOf(v.client.data, v.flights, f), m, false)
  }

  lemma AckArrives(v: Sys, m: Message, key: Key)
    requires Taken(v, m) && m.PubAckMsg?
    ensures Goes(v, m, key)
  {
    FlowEvent(v.client, Arrival(m, key));
    var (d, r) := PubAckStep(v.client.data, m.id, Removed);
    AckFrame(v.client.data, m.id, Removed);
    Arrives(v, m, key, d, r.packet);
  }

  lemma RecArrives(v: Sys, m: Message, key: Key)
    requires Taken(v, m) && m.PubRecMsg?
    ensures Goes(v, m, key)
  {
    FlowEvent(v.client, Arrival(m, key));
    var (d, r) := PubRecStep(v.client.data, m.id, Removed, Appended(key));
    RecFrame(v.client.data, m.id, Removed, Appended(key));
    Arrives(v, m, key, d, r.packet);
  }

  lemma CompArrives(v: Sys, m: Message, key: Key)
    requires Taken(v, m) && m.PubCompMsg?
    ensures Goes(v, m, key)
  {
    FlowEvent(v.client, Arrival(m, key));
    var (d, r) := PubCompStep(v.client.data, m.id, Removed);
    CompFrame(v.client.data, m.id, Removed);
    Arrives(v, m, key, d, r.packet);
  }

  lemma PublishArrives(v: Sys, m: Message, key: Key)
    requires Taken(v, m) && m.PublishMsg?
    ensures Goes(v, m, key)
  {
    if v.client.status == Some(Connected) {
      var (d, r) := PublishStep(v.client.data, m);
      Arrives(v, m, key, d, r.packet);
    } else {
      Arrives(v, m, key, v.client.data, None);
    }
  }

  lemma ReleaseArrives(v: Sys, m: Message, key: Key)
    requires Taken(v, m) && m.PubRelMsg?
    ensures Goes(v, m, key)
  {
    FlowEvent(v.client, Arrival(m, key));
    var (d, r) := PubRelStep(v.client.data, m.id);
    PubRelFrame(v.client.data, m.id);
    Arrives(v, m, key, d, r.packet);
  }

  lemma {:induction false} CompiledLoopEnds(d: Data, subs: seq<(string, QualityOfService)>,
                                           codes: seq<SubAckReturnCode>, done: seq<SubResult>)
    requires AllCompile(subs)
    ensures SubAckLoop(d, subs, codes, done).1.Some?
    decreases |subs|
  {
    if subs != [] && codes != [] {
      var (topic, qos) := subs[0];
      assert AllCompile(subs[1..]) by {
        forall i | 0 <= i < |subs[1..]| ensures Compile(subs[1..][i].0).Some? { assert Compile(subs[i + 1].0).Some?; }
      }
      if !codes[0].IsOk() {
        CompiledLoopEnds(d, subs[1..], codes[1..], done + [Rejected(topic, qos)]);
      } else {
        var rx := |d.streams|;
        assert Compile(subs[0].0).Some?;
        var d1 := d.(streams := d.streams + [[]]);
        CompiledLoopEnds(d1.(subscriptions := d1.subscriptions[topic := (Compile(topic).value, rx)]), subs[1..], codes[1..],
          done + [Stream(rx, qos)]);
      }
    }
  }

  /** The request that `m` answers goes off the table. */
  lemma OneTimeArrives(v: Sys, m: Message, key: Key, k: OneTimeKey, d': Data)
    requires Active(v.client.status)
    requires FlowOf(m, false) == (if k.SubscribeKey? then Sub(k.id) else Unsub(k.id)) && Vacant(v, FlowOf(m, false))
    requires d'.oneTime == v.client.data.oneTime - {k} && d'.clientPublishState == v.client.data.clientPublishState
    requires d'.serverPublishState == v.client.data.serverPublishState && d'.pingSubs == v.client.data.pingSubs
    requires Handle(v.client, Arrival(m, key)) == (v.client.(data := d'), Outcome(None, Empty))
    ensures Goes(v, m, key)
  {
    Arrives(v, m, key, d', None);
  }

  lemma SubAckArrives(v: Sys, m: Message, key: Key)
    requires Taken(v, m) && m.SubAckMsg?
    ensures Goes(v, m, key)
  {
    FlowEvent(v.client, Arrival(m, key));
    var d := v.client.data;
    var k := SubscribeKey(m.id);
    SubAckFrame(d, m.id, m.codes);
    CompiledLoopEnds(d.(oneTime := d.oneTime - {k}), d.oneTime[k].0.subs, m.codes, []);
    OneTimeArrives(v, m, key, k, SubAckStep(d, m.id, m.codes).0);
  }

  lemma UnsubAckArrives(v: Sys, m: Message, key: Key)
    requires Taken(v, m) && m.UnsubAckMsg?
    ensures Goes(v, m, key)
  {
    FlowEvent(v.client, Arrival(m, key));
    OneTimeArrives(v, m, key, UnsubscribeKey(m.id), UnsubAckStep(v.client.data, m.id).0);
  }

  lemma PingRespArrives(v: Sys, m: Message, key: Key)
    requires Taken(v, m) && m.PingRespMsg?
    ensures Goes(v, m, key)
  {
    FlowEvent(v.client, Arrival(m, key));
    Arrives(v, m, key, PingRespStep(v.client.data).0, None);
  }

  lemma SessionArrives(v: Sys, m: Message, key: Key)
    requires Taken(v, m)
    ensures Goes(v, m, key)
  {
    if m.PublishMsg? { PublishArrives(v, m, key); }
    else if m.PubRelMsg? { ReleaseArrives(v, m, key); }
    else if m.SubAckMsg? { SubAckArrives(v, m, key); }
    else if m.UnsubAckMsg? { UnsubAckArrives(v, m, key); }
    else if m.PingRespMsg? { PingRespArrives(v, m, key); }
    else if m.PubAckMsg? { AckArrives(v, m, key); }
    else if m.PubRecMsg? { RecArrives(v, m, key); }
    else { CompArrives(v, m, key); }
  }

  /** Out of session, a packet that is no CONNACK is dropped. */
  lemma OutOfSession(c: State, m: Message, key: Key)
    requires !Active(c.status) && !m.ConnAckMsg?
    ensures Handle(c, Arrival(m, key)) == (c, Outcome(None, Empty))
  {
  }

  lemma LostArrives(v: Sys, m: Message)
    requires !Active(v.client.status) && Waits(v, m)
    ensures Inv(v.(lost := v.lost + [m]))
  {
    Advance(v, v.(lost := v.lost + [m]), FlowOf(m, false), None, Some(m));
  }

  /** Every packet that a conformant server sends is taken without error and without panic. */
  lemma ReceiveStep(s: Sys, key: Key)
    requires Inv(s) && s.toClient != []
    ensures Handle(s.client, Arrival(s.toClient[0], key)).1.response == Empty
    ensures Active(s.client.status) ==> Goes(s.(toClient := s.toClient[1..]), s.toClient[0], key)
    ensures !Active(s.client.status) ==> Handle(s.client, Arrival(s.toClient[0], key)) == (s.client, Outcome(None, Empty))
    ensures Enabled(s, Receive(key)) ==> Inv(Next(s, Receive(key)))
  {
    TakeFromClientQueue(s);
    var v, m := s.(toClient := s.toClient[1..]), s.toClient[0];
    if Active(s.client.status) {
      SessionArrives(v, m, key);
    } else {
      OutOfSession(s.client, m, key);
      LostArrives(v, m);
      assert v.toServer + [] == v.toServer;
    }
  }

  // ------------------------------------------------------------ the other steps

  /** What serving a packet changes is the part of its flow, and the answer fits it. */
  lemma ServePart(d: Data, flights: map<u16, Phase>, m: Message, codes: seq<SubAckReturnCode>)
    requires var f := FlowOf(m, true);
      Fits(PartOf(d, flights, f), m, true) && PartOk(f, PartOf(d, flights, f)) && (f != NoFlow ==> Most(PartOf(d, flights, f)) == 1)
    ensures var f, a, t := FlowOf(m, true), Answer(m, codes), Flights(m, flights);
      && (forall g: Flow | g != f :: PartOf(d, t, g) == PartOf(d, flights, g))
      && (f != NoFlow ==> PartOk(f, PartOf(d, t, f)) && Least(PartOf(d, t, f)) <= |Opt(a)| <= Most(PartOf(d, t, f)))
      && (a.Some? ==> FlowOf(a.value, false) == f && Fits(PartOf(d, t, f), a.value, false))
  {
  }

  lemma ServeStep(s: Sys, codes: seq<SubAckReturnCode>)
    requires Inv(s) && Enabled(s, Serve(codes))
    ensures Inv(Next(s, Serve(codes)))
  {
    TakeFromServerQueue(s);
    var v, m := s.(toServer := s.toServer[1..]), s.toServer[0];
    ServePart(v.client.data, v.flights, m, codes);
    Advance(v, Next(s, Serve(codes)), FlowOf(m, true), None, Answer(m, codes));
  }

  lemma EmitStep(s: Sys, i: nat)
    requires Inv(s) && i < |s.owed|
    ensures Inv(Next(s, Emit(i)))
  {
    TakeOwed(s, i);
    var f := FlowOf(s.owed[i], false);
    var v := s.(owed := s.owed[..i] + s.owed[i + 1..]);
    Advance(v, Next(s, Emit(i)), f, None, Some(s.owed[i]));
  }

  /** A flow with nothing in transit is vacant as it stands. */
  lemma VacantAlready(s: Sys, f: Flow)
    requires Inv(s) && (f != NoFlow ==> Most(PartOf(s.client.data, s.flights, f)) == 0)
    ensures Vacant(s, f)
  {
    if f != NoFlow { assert FlowOk(s, f); }
    forall g: Flow | g != NoFlow && g != f ensures FlowOk(s, g) {}
  }

  lemma OriginateStep(s: Sys, m: Message)
    requires Inv(s) && Enabled(s, Originate(m))
    ensures Inv(Next(s, Originate(m)))
  {
    var f := FlowOf(m, false);
    VacantAlready(s, f);
    if f != NoFlow { assert FlowOk(s, f); }
    Advance(s, Next(s, Originate(m)), f, None, Some(m));
  }

  /** The flow that a request opens. */
  function Opens(d: Data, r: Request): Flow {
    match r
    case SubscribeRequest(_) => Sub(NextId(d))
    case UnsubscribeRequest(_) => Unsub(NextId(d))
    case PingRequest => if d.pingSubs == [] then Ping else NoFlow
    case PublishRequest(qos, _, _, _, _) => if qos == QoS0 then NoFlow else ClientPub(NextId(d))
  }

  /** A request in session makes no mistake but a text too long, and opens its own flow. */
  lemma RequestGoes(s: Sys, r: Request, t: Sys)
    requires Inv(s) && s.client.status == Some(Connected) && FreeId(s.client.data) && Sensible(s.client.data, r)
    requires t == ClientHandles(s, ClientEvent(r, true))
    ensures var (d, res) := RequestStep(NewCaller(s.client.data).0, r, s.client.data.callers);
      && t.client == State(Some(Connected), d) && !res.Panicked?
      && t == s.(client := t.client, toServer := s.toServer + Opt(if res.Send? then res.packet else None))
  {
  }

  /** What a request changes is the part of the flow it opens. */
  lemma RequestPart(s: State, r: Request, flights: map<u16, Phase>)
    ensures var d, f := s.data, Opens(s.data, r); var (d', res) := RequestStep(NewCaller(d).0, r, d.callers);
      && (res.Send? ==> forall g: Flow | g != f :: PartOf(d', flights, g) == PartOf(d, flights, g))
      && (r.PublishRequest? && r.append.Appended? ==> res.Send?)
      && (res.Err? && !r.PublishRequest? ==> forall g: Flow :: PartOf(d', flights, g) == PartOf(d, flights, g))
  {
  }

  /** The flow was closed, is opened properly, and its first packet fits. */
  lemma RequestFits(s: State, r: Request, flights: map<u16, Phase>)
    requires FreeId(s.data) && Sensible(s.data, r)
    ensures var d, f := s.data, Opens(s.data, r); var (d', res) := RequestStep(NewCaller(d).0, r, d.callers);
      res.Send? ==>
        && PartOk(f, PartOf(d', flights, f)) && Most(PartOf(d, flights, f)) == 0
        && (f != NoFlow ==> Least(PartOf(d', flights, f)) <= |Opt(res.packet)| <= Most(PartOf(d', flights, f)))
        && (res.packet.Some? ==> FlowOf(res.packet.value, true) == f && Fits(PartOf(d', flights, f), res.packet.value, true))
  {
  }

  lemma RequestOpens(s: Sys, r: Request)
    requires Inv(s) && s.client.status == Some(Connected) && FreeId(s.client.data) && Sensible(s.client.data, r)
    ensures Inv(ClientHandles(s, ClientEvent(r, true)))
  {
    var t := ClientHandles(s, ClientEvent(r, true));
    RequestGoes(s, r, t);
    RequestPart(s.client, r, s.flights);
    RequestFits(s.client, r, s.flights);
    var res := RequestStep(NewCaller(s.client.data).0, r, s.client.data.callers).1;
    if res.Err? {
      VacantAlready(s, NoFlow);
      Advance(s, t, NoFlow, None, None);
    } else {
      VacantAlready(s, Opens(s.client.data, r));
      Advance(s, t, Opens(s.client.data, r), res.packet, None);
    }
  }

  lemma KeepAliveStep(s: Sys)
    requires Inv(s) && Active(s.client.status)
    ensures Inv(ClientHandles(s, KeepAlive(true)))
  {
    var f := if s.client.data.pingSubs == [] then Ping else NoFlow;
    VacantAlready(s, f);
    Advance(s, ClientHandles(s, KeepAlive(true)), f, if f == Ping then Some(PingReqMsg) else None, None);
  }

  /** The client serves a request or a keep-alive. */
  predicate Served(c: State, e: Event) {
    (e.ClientEvent? && c.status == Some(Connected)) || (e.KeepAlive? && Active(c.status))
  }

  /** Whatever else happens at the client leaves the flows alone and starts no session. */
  lemma QuietLocal(c: State, e: Event, flights: map<u16, Phase>)
    requires !e.Inbound? && !Served(c, e)
    ensures var (c', o) := Handle(c, e);
      && (Active(c'.status) ==> Active(c.status))
      && (o.sent.Some? ==> FlowOf(o.sent.value, true) == NoFlow)
      && forall f: Flow :: PartOf(c'.data, flights, f) == PartOf(c.data, flights, f)
  {
  }

  lemma LocalStep(s: Sys, e: Event)
    requires Inv(s) && Asked(s.client, e)
    ensures Inv(ClientHandles(s, e))
  {
    if !Served(s.client, e) {
      QuietLocal(s.client, e, s.flights);
      VacantAlready(s, NoFlow);
      Advance(s, ClientHandles(s, e), NoFlow, Handle(s.client, e).1.sent, None);
    } else if e.ClientEvent? {
      RequestOpens(s, e.request);
    } else {
      KeepAliveStep(s);
    }
  }

  lemma InvStep(s: Sys, e: SysEvent)
    requires Inv(s) && Enabled(s, e)
    ensures Inv(Next(s, e))
  {
    match e
    case Local(ev) => LocalStep(s, ev);
    case Receive(key) => ReceiveStep(s, key);
    case Serve(codes) => ServeStep(s, codes);
    case Emit(i) => EmitStep(s, i);
    case Originate(m) => OriginateStep(s, m);
  }
}
