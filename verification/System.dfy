/**
 The client and a server that follows section 4.3 of MQTT 3.1.1, over two lossless channels,
 from the moment they are in session. The server answers when it likes: what it owes waits in
 a pool. Timers fire and the client is asked to connect and disconnect at any time. Sends and
 persistence calls in session succeed.
 */
module System {
  import opened Prelude
  import opened Packets
  import opened TopicFilters
  import opened LoopModel
  import opened Ledger

  /** What the server waits for in a publish of its own. */
  datatype Phase = AwaitAck | AwaitRec | AwaitComp

  datatype Sys = Sys(
    client: State,
    toServer: seq<Message>,
    owed: seq<Message>,
    toClient: seq<Message>,
    // what reached the client when it was no longer in session
    lost: seq<Message>,
    flights: map<u16, Phase>)

  datatype SysEvent =
    | Local(e: Event)
    | Receive(key: Key)
    | Serve(codes: seq<SubAckReturnCode>)
    | Emit(i: nat)
    | Originate(m: Message)

  // ------------------------------------------------------------ steps

  /** The identifier that the client hands out next is not in use. */
  predicate FreeId(d: Data) {
    && NextId(d) !in d.clientPublishState
    && SubscribeKey(NextId(d)) !in d.oneTime
    && UnsubscribeKey(NextId(d)) !in d.oneTime
  }

  /** What may happen at the client: anything, except that what it serves in session succeeds. */
  predicate Asked(c: State, e: Event) {
    match e
    case ClientEvent(r, ok) =>
      StoreSucceeds(e) && (c.status == Some(Connected) ==> ok && FreeId(c.data) && Sensible(c.data, r))
    case KeepAlive(ok) => Active(c.status) ==> ok
    case Inbound(_, _, _, _) => false
    case _ => true
  }

  /** Filters are valid, and an append succeeds with a fresh key. */
  predicate Sensible(d: Data, r: Request) {
    match r
    case SubscribeRequest(subs) => AllCompile(subs)
    case PublishRequest(_, _, _, _, append) => append.Appended? && FreshKey(d, append)
    case _ => true
  }

  predicate AllCompile(subs: seq<(string, QualityOfService)>) {
    forall i | 0 <= i < |subs| :: Compile(subs[i].0).Some?
  }

  /** How the client takes a packet in. */
  function Arrival(m: Message, key: Key): Event { Inbound(m, Removed, Appended(key), true) }

  predicate Enabled(s: Sys, e: SysEvent) {
    match e
    case Local(ev) => Asked(s.client, ev)
    case Receive(key) => s.toClient != [] && FreshAppend(s.client, Arrival(s.toClient[0], key))
    case Serve(codes) =>
      s.toServer != [] && (s.toServer[0].SubscribeMsg? ==> |codes| == |s.toServer[0].subs|)
    case Emit(i) => i < |s.owed|
    case Originate(m) => m.PublishMsg? && (m.qos != QoS0 ==> m.id !in s.flights)
  }

  /**
   Section 4.3, and the answers of sections 3.8 to 3.12. A second CONNECT is a protocol violation
   (section 3.1) and gets no CONNACK.
   */
  function Answer(m: Message, codes: seq<SubAckReturnCode>): Option<Message> {
    match m
    case PublishMsg(qos, _, id, _, _) =>
      if qos == QoS1 then Some(PubAckMsg(id)) else if qos == QoS2 then Some(PubRecMsg(id)) else None
    case PubRelMsg(id) => Some(PubCompMsg(id))
    case PubRecMsg(id) => Some(PubRelMsg(id))
    case SubscribeMsg(id, _) => Some(SubAckMsg(id, codes))
    case UnsubscribeMsg(id, _) => Some(UnsubAckMsg(id))
    case PingReqMsg => Some(PingRespMsg)
    case _ => None
  }

  function Flights(m: Message, flights: map<u16, Phase>): map<u16, Phase> {
    match m
    case PubAckMsg(id) => flights - {id}
    case PubRecMsg(id) => flights[id := AwaitComp]
    case PubCompMsg(id) => flights - {id}
    case _ => flights
  }

  function Opt(m: Option<Message>): seq<Message> { if m.Some? then [m.value] else [] }

  /** The client handles an event, and what it sends goes to the server. */
  function ClientHandles(s: Sys, e: Event): Sys {
    var (c, o) := Handle(s.client, e);
    s.(client := c, toServer := s.toServer + Opt(o.sent))
  }

  function Next(s: Sys, e: SysEvent): Sys
    requires Enabled(s, e)
  {
    match e
    case Local(ev) => ClientHandles(s, ev)
    case Receive(key) =>
      var t := ClientHandles(s.(toClient := s.toClient[1..]), Arrival(s.toClient[0], key));
      if Active(s.client.status) then t else t.(lost := t.lost + [s.toClient[0]])
    case Serve(codes) =>
      s.(toServer := s.toServer[1..], owed := s.owed + Opt(Answer(s.toServer[0], codes)),
         flights := Flights(s.toServer[0], s.flights))
    case Emit(i) => s.(owed := s.owed[..i] + s.owed[i + 1..], toClient := s.toClient + [s.owed[i]])
    case Originate(m) =>
      s.(owed := s.owed + [m],
         flights := if m.qos == QoS0 then s.flights
                    else s.flights[m.id := if m.qos == QoS1 then AwaitAck else AwaitRec])
  }

  // ------------------------------------------------------------ flows

  /** The exchanges that packets belong to. */
  datatype Flow = ClientPub(id: u16) | ServerPub(id: u16) | Sub(id: u16) | Unsub(id: u16) | Ping | NoFlow

  /** The flow of a packet on its way up to the server or down to the client. */
  function FlowOf(m: Message, up: bool): Flow {
    match m
    case PublishMsg(qos, _, id, _, _) => if qos == QoS0 then NoFlow else if up then ClientPub(id) else ServerPub(id)
    case PubRelMsg(id) => if up then ClientPub(id) else ServerPub(id)
    case PubAckMsg(id) => if up then ServerPub(id) else ClientPub(id)
    case PubRecMsg(id) => if up then ServerPub(id) else ClientPub(id)
    case PubCompMsg(id) => if up then ServerPub(id) else ClientPub(id)
    case SubscribeMsg(id, _) => if up then Sub(id) else NoFlow
    case SubAckMsg(id, _) => if up then NoFlow else Sub(id)
    case UnsubscribeMsg(id, _) => if up then Unsub(id) else NoFlow
    case UnsubAckMsg(id) => if up then NoFlow else Unsub(id)
    case PingReqMsg => if up then Ping else NoFlow
    case PingRespMsg => if up then NoFlow else Ping
    case _ => NoFlow
  }

  /** The part of the state that a flow is about. */
  datatype Part =
    | PubPart(st: Option<PublishState>)
    | ServerPart(phase: Option<Phase>, held: Option<PublishState>)
    | RequestPart(request: Option<Message>)
    | PingPart(waiting: bool)
    | NoPart

  function ValueAt<K, V>(m: map<K, V>, k: K): Option<V> { if k in m then Some(m[k]) else None }

  function RequestAt(d: Data, k: OneTimeKey): Option<Message> {
    if k in d.oneTime then Some(d.oneTime[k].0) else None
  }

  function PartOf(d: Data, flights: map<u16, Phase>, f: Flow): Part {
    match f
    case ClientPub(id) => PubPart(ValueAt(d.clientPublishState, id))
    case ServerPub(id) => ServerPart(ValueAt(flights, id), ValueAt(d.serverPublishState, id))
    case Sub(id) => RequestPart(RequestAt(d, SubscribeKey(id)))
    case Unsub(id) => RequestPart(RequestAt(d, UnsubscribeKey(id)))
    case Ping => PingPart(d.pingSubs != [])
    case NoFlow => NoPart
  }

  predicate PartOk(f: Flow, p: Part) {
    match p
    case PubPart(st) => st.Some? ==> !st.value.Received?
    case ServerPart(phase, held) =>
      held.Some? ==> held.value.Received? && held.value.packet.PublishMsg? && phase.Some? && phase.value != AwaitAck
    case RequestPart(r) =>
      r.Some? ==> if f.Sub? then r.value.SubscribeMsg? && AllCompile(r.value.subs) else r.value.UnsubscribeMsg?
    case _ => true
  }

  /** At most so many packets of the flow are in transit... */
  function Most(p: Part): nat {
    match p
    case PubPart(st) => if st.Some? then 1 else 0
    case ServerPart(phase, _) => if phase.Some? then 1 else 0
    case RequestPart(r) => if r.Some? then 1 else 0
    case PingPart(waiting) => if waiting then 1 else 0
    case NoPart => 0
  }

  /** ... and at least so many; a server publish may have been dropped while disconnecting. */
  function Least(p: Part): nat {
    match p
    case ServerPart(phase, held) => if phase == Some(AwaitComp) || held.Some? then 1 else 0
    case _ => Most(p)
  }

  /** The packet is one that its flow can have in transit in this state. */
  predicate Fits(p: Part, m: Message, up: bool) {
    match p
    case PubPart(st) =>
      && st.Some?
      && if up then (if m.PublishMsg? then st.value.Sent? else m.PubRelMsg? && st.value.Released?)
         else (if m.PubCompMsg? then st.value.Released? else (m.PubAckMsg? || m.PubRecMsg?) && st.value.Sent?)
    case ServerPart(phase, held) =>
      if up then
        match m
        case PubAckMsg(_) => phase == Some(AwaitAck) && held.None?
        case PubRecMsg(_) => phase == Some(AwaitRec) && held.Some?
        case _ => m.PubCompMsg? && phase == Some(AwaitComp) && held.None?
      else if m.PublishMsg? then
        held.None? && phase == Some(if m.qos == QoS1 then AwaitAck else AwaitRec)
      else m.PubRelMsg? && phase == Some(AwaitComp) && held.Some?
    case RequestPart(r) => r.Some?
    case PingPart(waiting) => waiting
    case NoPart => up || m.PublishMsg?
  }

  // ------------------------------------------------------------ packets in transit

  /** How many packets of flow `f` a queue holds. */
  function Count(q: seq<Message>, up: bool, f: Flow): nat {
    if q == [] then 0 else (if FlowOf(q[0], up) == f then 1 else 0) + Count(q[1..], up, f)
  }

  lemma {:induction false} CountConcat(a: seq<Message>, b: seq<Message>, up: bool, f: Flow)
    ensures Count(a + b, up, f) == Count(a, up, f) + Count(b, up, f)
  {
    if a == [] {
      assert a + b == b;
    } else {
      assert (a + b)[1..] == a[1..] + b;
      CountConcat(a[1..], b, up, f);
    }
  }

  lemma CountOne(m: Message, up: bool, f: Flow)
    ensures Count([m], up, f) == if FlowOf(m, up) == f then 1 else 0
  {
    assert [m][1..] == [];
  }

  lemma {:induction false} CountHas(q: seq<Message>, up: bool, f: Flow, i: nat)
    requires i < |q| && FlowOf(q[i], up) == f
    ensures Count(q, up, f) >= 1
  {
    if i > 0 { CountHas(q[1..], up, f, i - 1); }
  }

  /** The packets in transit of flow `f`. */
  function InTransit(s: Sys, f: Flow): nat {
    Count(s.toServer, true, f) + Count(s.owed, false, f) + Count(s.toClient, false, f)
  }

  /** Those that are lost as well. */
  function Total(s: Sys, f: Flow): nat { InTransit(s, f) + Count(s.lost, false, f) }

  ghost predicate AllFit(q: seq<Message>, up: bool, d: Data, flights: map<u16, Phase>) {
    forall i | 0 <= i < |q| :: Fits(PartOf(d, flights, FlowOf(q[i], up)), q[i], up)
  }

  predicate FlowOk(s: Sys, f: Flow) {
    var p := PartOf(s.client.data, s.flights, f);
    PartOk(f, p) && Least(p) <= Total(s, f) <= Most(p)
  }

  ghost predicate FlowsOk(s: Sys) { forall f: Flow | f != NoFlow :: FlowOk(s, f) }

  /** Every packet fits its flow, and nothing is lost in session. */
  ghost predicate QueuesOk(s: Sys) {
    && (Active(s.client.status) ==> s.lost == [])
    && AllFit(s.toServer, true, s.client.data, s.flights)
    && AllFit(s.owed, false, s.client.data, s.flights)
    && AllFit(s.toClient, false, s.client.data, s.flights)
    && AllFit(s.lost, false, s.client.data, s.flights)
  }

  /** What every step keeps. */
  ghost predicate Inv(s: Sys) { FlowsOk(s) && QueuesOk(s) }

  // ------------------------------------------------------------ one flow moves at a time

  /** With packet `m` of flow `f` taken off its queue, the flow has nothing in transit. */
  ghost predicate Vacant(s: Sys, f: Flow) {
    && (forall g: Flow | g != NoFlow && g != f :: FlowOk(s, g))
    && (f != NoFlow ==> Total(s, f) == 0 && PartOk(f, PartOf(s.client.data, s.flights, f)))
    && QueuesOk(s)
  }

  /** The packets `a` go up, and `b` down or to the lost ones. */
  predicate Adds(s: Sys, t: Sys, a: Option<Message>, b: Option<Message>) {
    && t.toServer == s.toServer + Opt(a)
    && (|| (t.owed == s.owed + Opt(b) && t.toClient == s.toClient && t.lost == s.lost)
        || (t.owed == s.owed && t.toClient == s.toClient + Opt(b) && t.lost == s.lost)
        || (t.owed == s.owed && t.toClient == s.toClient && t.lost == s.lost + Opt(b)))
  }

  /** Only flow `f` sees a change. */
  ghost predicate OnlyPart(s: Sys, t: Sys, f: Flow) {
    forall g: Flow | g != f :: PartOf(t.client.data, t.flights, g) == PartOf(s.client.data, s.flights, g)
  }

  lemma StillFits(q: seq<Message>, up: bool, s: Sys, t: Sys, f: Flow)
    requires OnlyPart(s, t, f) && (f != NoFlow ==> Count(q, up, f) == 0)
    requires AllFit(q, up, s.client.data, s.flights)
    ensures AllFit(q, up, t.client.data, t.flights)
  {
    forall i | 0 <= i < |q| ensures Fits(PartOf(t.client.data, t.flights, FlowOf(q[i], up)), q[i], up) {
      if FlowOf(q[i], up) == f && f != NoFlow { CountHas(q, up, f, i); }
    }
  }

  /** The packets `a` go up and `b` down, on behalf of flow `f`, and its part is then right. */
  lemma Advance(s: Sys, t: Sys, f: Flow, a: Option<Message>, b: Option<Message>)
    requires Vacant(s, f) && OnlyPart(s, t, f) && Adds(s, t, a, b) && (Active(t.client.status) ==> t.lost == [])
    requires var p := PartOf(t.client.data, t.flights, f);
      && (f != NoFlow ==> PartOk(f, p) && Least(p) <= |Opt(a)| + |Opt(b)| <= Most(p))
      && (a.Some? ==> FlowOf(a.value, true) == f && Fits(p, a.value, true))
      && (b.Some? ==> FlowOf(b.value, false) == f && Fits(p, b.value, false))
    ensures Inv(t)
  {
    forall g: Flow | g != NoFlow ensures FlowOk(t, g) {
      TotalAfter(s, t, f, g, a, b);
      if g != f { assert FlowOk(s, g); }
    }
    if f != NoFlow { assert Total(s, f) == 0; }
    StillFits(s.toServer, true, s, t, f);
    StillFits(s.owed, false, s, t, f);
    StillFits(s.toClient, false, s, t, f);
    StillFits(s.lost, false, s, t, f);
  }

  lemma TotalAfter(s: Sys, t: Sys, f: Flow, g: Flow, a: Option<Message>, b: Option<Message>)
    requires Adds(s, t, a, b)
    requires a.Some? ==> FlowOf(a.value, true) == f
    requires b.Some? ==> FlowOf(b.value, false) == f
    ensures Total(t, g) == Total(s, g) + if f == g then |Opt(a)| + |Opt(b)| else 0
  {
    CountConcat(s.toServer, Opt(a), true, g);
    CountConcat(s.owed, Opt(b), false, g);
    CountConcat(s.toClient, Opt(b), false, g);
    CountConcat(s.lost, Opt(b), false, g);
    if a.Some? { CountOne(a.value, true, g); }
    if b.Some? { CountOne(b.value, false, g); }
  }

  /** Taking the only packet of its flow off a queue leaves the flow with nothing in transit. */
  lemma TakeOff(s: Sys, t: Sys, f: Flow)
    requires Inv(s) && t.client == s.client && t.flights == s.flights
    requires forall g: Flow :: Total(s, g) == Total(t, g) + (if g == f then 1 else 0)
    requires QueuesOk(t)
    ensures Vacant(t, f)
    ensures f != NoFlow ==> Most(PartOf(s.client.data, s.flights, f)) == 1
  {
    if f != NoFlow { assert FlowOk(s, f); }
    forall g: Flow | g != NoFlow && g != f ensures FlowOk(t, g) { assert FlowOk(s, g); }
  }

  lemma AllFitTail(q: seq<Message>, up: bool, d: Data, flights: map<u16, Phase>)
    requires q != [] && AllFit(q, up, d, flights)
    ensures AllFit(q[1..], up, d, flights)
    ensures Fits(PartOf(d, flights, FlowOf(q[0], up)), q[0], up)
  {
    forall i | 0 <= i < |q[1..]| ensures Fits(PartOf(d, flights, FlowOf(q[1..][i], up)), q[1..][i], up) {
      assert q[1..][i] == q[i + 1];
    }
  }

  lemma TakeFromClientQueue(s: Sys)
    requires Inv(s) && s.toClient != []
    ensures var f := FlowOf(s.toClient[0], false);
      && Vacant(s.(toClient := s.toClient[1..]), f)
      && (f != NoFlow ==> Most(PartOf(s.client.data, s.flights, f)) == 1)
      && Fits(PartOf(s.client.data, s.flights, f), s.toClient[0], false)
  {
    AllFitTail(s.toClient, false, s.client.data, s.flights);
    TakeOff(s, s.(toClient := s.toClient[1..]), FlowOf(s.toClient[0], false));
  }

  lemma TakeFromServerQueue(s: Sys)
    requires Inv(s) && s.toServer != []
    ensures var f := FlowOf(s.toServer[0], true);
      && Vacant(s.(toServer := s.toServer[1..]), f)
      && (f != NoFlow ==> Most(PartOf(s.client.data, s.flights, f)) == 1)
      && Fits(PartOf(s.client.data, s.flights, f), s.toServer[0], true)
  {
    AllFitTail(s.toServer, true, s.client.data, s.flights);
    TakeOff(s, s.(toServer := s.toServer[1..]), FlowOf(s.toServer[0], true));
  }

  lemma TakeOwed(s: Sys, i: nat)
    requires Inv(s) && i < |s.owed|
    ensures var f := FlowOf(s.owed[i], false);
      && Vacant(s.(owed := s.owed[..i] + s.owed[i + 1..]), f)
      && (f != NoFlow ==> Most(PartOf(s.client.data, s.flights, f)) == 1)
      && Fits(PartOf(s.client.data, s.flights, f), s.owed[i], false)
  {
    var m, rest := s.owed[i], s.owed[..i] + s.owed[i + 1..];
    forall g: Flow ensures Count(s.owed, false, g) == Count(rest, false, g) + (if FlowOf(m, false) == g then 1 else 0) {
      assert s.owed == s.owed[..i] + ([m] + s.owed[i + 1..]);
      CountConcat(s.owed[..i], [m] + s.owed[i + 1..], false, g);
      CountConcat([m], s.owed[i + 1..], false, g);
      CountConcat(s.owed[..i], s.owed[i + 1..], false, g);
      CountOne(m, false, g);
    }
    forall j | 0 <= j < |rest| ensures Fits(PartOf(s.client.data, s.flights, FlowOf(rest[j], false)), rest[j], false) {
      assert rest[j] == s.owed[if j < i then j else j + 1];
    }
    TakeOff(s, s.(owed := rest), FlowOf(m, false));
  }
}
