/**
 The client loop as a state machine on values: the loop data, the status, the events that
 reach the loop, and what each handler does (src/backend). Channels are numbers: a `Caller`
 is a oneshot reply channel, a `StreamId` a subscription channel, and what was sent on them
 is recorded.
 */
module LoopModel {
  import opened Prelude
  import opened TopicFilters
  import opened Packets

  type Caller = nat
  type StreamId = nat
  type Key = string

  /** Control packets as the handlers see them: the fields they read. */
  datatype Message =
    | ConnectMsg
    | ConnAckMsg(code: u8, clean: bool)
    | PublishMsg(qos: QualityOfService, retain: bool, id: u16, topic: string, payload: Bytes)
    | PubAckMsg(id: u16)
    | PubRecMsg(id: u16)
    | PubRelMsg(id: u16)
    | PubCompMsg(id: u16)
    | SubscribeMsg(id: u16, subs: seq<(string, QualityOfService)>)
    | SubAckMsg(id: u16, codes: seq<SubAckReturnCode>)
    | UnsubscribeMsg(id: u16, topics: seq<string>)
    | UnsubAckMsg(id: u16)
    | PingReqMsg
    | PingRespMsg
    | DisconnectMsg

  datatype ErrorKind =
    | PersistenceError
    | UnexpectedResponse(ty: PacketType)
    | QualityOfServiceError
    | InvalidTopicFilter
    | StringConversionError
    | ClientUnavailable
    | AlreadyConnected
    | LoopError
    | ResponseTimeout(ty: PacketType)
    | ConnectionRefused(code: u8)

  datatype SubItem = SubItem(topic: string, payload: Bytes)

  datatype SubResult = Stream(id: StreamId, qos: QualityOfService) | Rejected(topic: string, qos: QualityOfService)

  /** What goes over a reply channel. */
  datatype Reply = Onetime | Ongoing(results: seq<SubResult>) | Failed(error: ErrorKind)

  datatype PublishState =
    | Sent(key: Key, sender: Option<Caller>)
    | Received(packet: Message)
    | Released(key: Key, sender: Option<Caller>)

  datatype OneTimeKey = SubscribeKey(id: u16) | UnsubscribeKey(id: u16)

  datatype Data = Data(
    nextPacketId: nat,
    sessionSubs: Option<StreamId>,
    serverPublishState: map<u16, PublishState>,
    clientPublishState: map<u16, PublishState>,
    oneTime: map<OneTimeKey, (Message, Caller)>,
    pingSubs: seq<Caller>,
    subscriptions: map<string, (TopicFilter, StreamId)>,
    persistence: map<Key, Message>,
    // what was sent on each subscription channel, and on reply channels; reply channels made
    streams: seq<seq<SubItem>>,
    replies: seq<(Caller, Reply)>,
    callers: nat)

  const NEW_DATA := Data(0, None, map[], map[], map[], [], map[], map[], [], [], 0)

  /** How a persistence call ends; a failed call may or may not have changed the store. */
  datatype RemoveResult = Removed | RemoveFailed(gone: bool)
  datatype AppendResult = Appended(key: Key) | AppendFailed(stray: Option<Key>)

  /** What a handler hands back: a packet to send, if any, an error, or `unreachable!()`. */
  datatype Result = Send(packet: Option<Message>) | Err(error: ErrorKind) | Panicked

  // ------------------------------------------------------------ channels, ids, store

  /** `channel()`. */
  function NewCaller(d: Data): (Data, Caller) { (d.(callers := d.callers + 1), d.callers) }

  function Tell(d: Data, c: Caller, r: Reply): Data { d.(replies := d.replies + [(c, r)]) }

  function TellSome(d: Data, c: Option<Caller>, r: Reply): Data {
    if c.Some? then Tell(d, c.value, r) else d
  }

  /** `gen_packet_id`, narrowed to the sixteen bits a packet has. */
  function NextId(d: Data): u16 { d.nextPacketId % 0x1_0000 }

  function GenPacketId(d: Data): Data { d.(nextPacketId := d.nextPacketId + 1) }

  function StoreRemove(d: Data, key: Key, r: RemoveResult): Data {
    if r.Removed? || r.gone then d.(persistence := d.persistence - {key}) else d
  }

  function StoreAppend(d: Data, m: Message, r: AppendResult): Data {
    match r
    case Appended(k) => d.(persistence := d.persistence[k := m])
    case AppendFailed(Some(k)) => d.(persistence := d.persistence[k := m])
    case AppendFailed(None) => d
  }

  // ------------------------------------------------------------ dispatch to subscribers

  /** The subscription on channel `s`, if there is one, has a filter that matches the topic. */
  predicate Listens(d: Data, s: StreamId, topic: string) {
    exists k | k in d.subscriptions :: d.subscriptions[k].1 == s && d.subscriptions[k].0.MatchTopic(topic)
  }

  /** One copy of the message on every channel that listens. */
  function Deliver(d: Data, topic: string, payload: Bytes): Data {
    d.(streams := seq(|d.streams|, s requires 0 <= s < |d.streams| =>
      if Listens(d, s, topic) then d.streams[s] + [SubItem(topic, payload)] else d.streams[s]))
  }

  /** Each subscription has a channel of its own. */
  predicate OwnStreams(d: Data) {
    && (forall k | k in d.subscriptions :: d.subscriptions[k].1 < |d.streams|)
    && (forall j, k | j in d.subscriptions && k in d.subscriptions && j != k ::
      d.subscriptions[j].1 != d.subscriptions[k].1)
  }

  // ------------------------------------------------------------ inbound handlers

  /** The end of a flight: its key goes, and its caller hears how that went. */
  function Settle(d: Data, key: Key, sender: Option<Caller>, remove: RemoveResult): (Data, Result) {
    var d1 := StoreRemove(d, key, remove);
    if remove.Removed? then (TellSome(d1, sender, Onetime), Send(None))
    else (TellSome(d1, sender, Failed(PersistenceError)), Err(PersistenceError))
  }

  function PubAckStep(d: Data, id: u16, remove: RemoveResult): (Data, Result) {
    if id !in d.clientPublishState then (d, Err(UnexpectedResponse(PubAck)))
    else
      var st := d.clientPublishState[id];
      var d1 := d.(clientPublishState := d.clientPublishState - {id});
      if !st.Sent? then (d1, Panicked) else Settle(d1, st.key, st.sender, remove)
  }

  /** If the old key cannot be removed, the caller is let go without an answer. */
  function PubRecStep(d: Data, id: u16, remove: RemoveResult, append: AppendResult): (Data, Result) {
    if id !in d.clientPublishState then (d, Err(UnexpectedResponse(PubRec)))
    else
      var st := d.clientPublishState[id];
      var d1 := d.(clientPublishState := d.clientPublishState - {id});
      if !st.Sent? then (d1, Panicked)
      else
        var d2 := StoreRemove(d1, st.key, remove);
        if !remove.Removed? then (d2, Err(PersistenceError))
        else
          var d3 := StoreAppend(d2, PubRelMsg(id), append);
          if append.AppendFailed? then (TellSome(d3, st.sender, Failed(PersistenceError)), Err(PersistenceError))
          else
            (d3.(clientPublishState := d3.clientPublishState[id := Released(append.key, st.sender)]),
             Send(Some(PubRelMsg(id))))
  }

  function PubCompStep(d: Data, id: u16, remove: RemoveResult): (Data, Result) {
    if id !in d.clientPublishState then (d, Err(UnexpectedResponse(PubComp)))
    else
      var st := d.clientPublishState[id];
      var d1 := d.(clientPublishState := d.clientPublishState - {id});
      if !st.Released? then (d1, Panicked) else Settle(d1, st.key, st.sender, remove)
  }

  function PublishStep(d: Data, p: Message): (Data, Result)
    requires p.PublishMsg?
  {
    match p.qos
    case QoS0 => (Deliver(d, p.topic, p.payload), Send(None))
    case QoS1 => (Deliver(d, p.topic, p.payload), Send(Some(PubAckMsg(p.id))))
    case QoS2 =>
      if p.id in d.serverPublishState then (d, Err(QualityOfServiceError))
      else
        (d.(serverPublishState := d.serverPublishState[p.id := Received(p)]), Send(Some(PubRecMsg(p.id))))
  }

  function PubRelStep(d: Data, id: u16): (Data, Result) {
    if id !in d.serverPublishState then (d, Err(UnexpectedResponse(PubRel)))
    else
      var st := d.serverPublishState[id];
      var d1 := d.(serverPublishState := d.serverPublishState - {id});
      if !st.Received? || !st.packet.PublishMsg? then (d1, Panicked)
      else (Deliver(d1, st.packet.topic, st.packet.payload), Send(Some(PubCompMsg(id))))
  }

  /**
   The loop over the acknowledged filters and their codes, as far as both go. A filter that
   does not compile ends it, after its channel was made.
   */
  function SubAckLoop(d: Data, subs: seq<(string, QualityOfService)>, codes: seq<SubAckReturnCode>,
                      done: seq<SubResult>): (Data, Option<seq<SubResult>>)
    decreases |subs|
  {
    if subs == [] || codes == [] then (d, Some(done))
    else
      var (topic, qos) := subs[0];
      if !codes[0].IsOk() then SubAckLoop(d, subs[1..], codes[1..], done + [Rejected(topic, qos)])
      else
        var rx := |d.streams|;
        var d1 := d.(streams := d.streams + [[]]);
        match Compile(topic)
        case None => (d1, None)
        case Some(filter) =>
          SubAckLoop(d1.(subscriptions := d1.subscriptions[topic := (filter, rx)]),
                     subs[1..], codes[1..], done + [Stream(rx, qos)])
  }

  function SubAckStep(d: Data, id: u16, codes: seq<SubAckReturnCode>): (Data, Result) {
    var key := SubscribeKey(id);
    if key !in d.oneTime then (d, Err(UnexpectedResponse(SubAck)))
    else
      var (orig, c) := d.oneTime[key];
      var d1 := d.(oneTime := d.oneTime - {key});
      if !orig.SubscribeMsg? then (d1, Panicked)
      else
        var (d2, r) := SubAckLoop(d1, orig.subs, codes, []);
        if r.None? then (d2, Err(InvalidTopicFilter)) else (Tell(d2, c, Ongoing(r.value)), Send(None))
  }

  function UnsubAckStep(d: Data, id: u16): (Data, Result) {
    var key := UnsubscribeKey(id);
    if key !in d.oneTime then (d, Err(UnexpectedResponse(UnsubAck)))
    else
      var (orig, c) := d.oneTime[key];
      var d1 := d.(oneTime := d.oneTime - {key});
      if !orig.UnsubscribeMsg? then (d1, Panicked)
      else
        var gone := set t | t in orig.topics;
        (Tell(d1.(subscriptions := d1.subscriptions - gone), c, Onetime), Send(None))
  }

  function PingReplies(cs: seq<Caller>): seq<(Caller, Reply)> {
    seq(|cs|, i requires 0 <= i < |cs| => (cs[i], Onetime))
  }

  function PingRespStep(d: Data): (Data, Result) {
    (d.(pingSubs := [], replies := d.replies + PingReplies(d.pingSubs)), Send(None))
  }

  // ------------------------------------------------------------ outbound handlers

  datatype Request =
    | SubscribeRequest(subs: seq<(string, QualityOfService)>)
    | UnsubscribeRequest(topics: seq<string>)
    | PingRequest
    | PublishRequest(qos: QualityOfService, retain: bool, topic: string, payload: Bytes, append: AppendResult)

  /** The length of a string in UTF-8. */
  function Utf8Length(s: string): nat {
    if s == [] then 0
    else
      var c := s[0] as int;
      (if c < 0x80 then 1 else if c < 0x800 then 2 else if c < 0x1_0000 then 3 else 4) + Utf8Length(s[1..])
  }

  predicate FitsMqttString(s: string) { Utf8Length(s) <= 0xFFFF }

  function SubscribeStep(d: Data, subs: seq<(string, QualityOfService)>, c: Caller): (Data, Result) {
    var id, d1 := NextId(d), GenPacketId(d);
    if exists i | 0 <= i < |subs| :: !FitsMqttString(subs[i].0) then (d1, Err(StringConversionError))
    else
      var packet := SubscribeMsg(id, subs);
      (d1.(oneTime := d1.oneTime[SubscribeKey(id) := (packet, c)]), Send(Some(packet)))
  }

  function UnsubscribeStep(d: Data, topics: seq<string>, c: Caller): (Data, Result) {
    var id, d1 := NextId(d), GenPacketId(d);
    if exists i | 0 <= i < |topics| :: !FitsMqttString(topics[i]) then (d1, Err(StringConversionError))
    else
      var packet := UnsubscribeMsg(id, topics);
      (d1.(oneTime := d1.oneTime[UnsubscribeKey(id) := (packet, c)]), Send(Some(packet)))
  }

  /** A ping goes out only if no other is waiting for its answer. */
  function PingReqStep(d: Data, c: Caller): (Data, Result) {
    (d.(pingSubs := d.pingSubs + [c]), Send(if d.pingSubs == [] then Some(PingReqMsg) else None))
  }

  function ClientPublishStep(d: Data, r: Request, c: Caller): (Data, Result)
    requires r.PublishRequest?
  {
    if r.qos == QoS0 then (d, Send(Some(PublishMsg(QoS0, r.retain, 0, r.topic, r.payload))))
    else
      var id := NextId(d);
      var packet := PublishMsg(r.qos, r.retain, id, r.topic, r.payload);
      var d1 := StoreAppend(GenPacketId(d), packet, r.append);
      if r.append.AppendFailed? then (d1, Err(PersistenceError))
      else
        (d1.(clientPublishState := d1.clientPublishState[id := Sent(r.append.key, Some(c))]), Send(Some(packet)))
  }

  function RequestStep(d: Data, r: Request, c: Caller): (Data, Result) {
    match r
    case SubscribeRequest(subs) => SubscribeStep(d, subs, c)
    case UnsubscribeRequest(topics) => UnsubscribeStep(d, topics, c)
    case PingRequest => PingReqStep(d, c)
    case PublishRequest(_, _, _, _, _) => ClientPublishStep(d, r, c)
  }

  // ------------------------------------------------------------ the loop

  datatype DisconnectState = Waiting | Closing

  datatype LoopStatus =
    | Disconnected
    | Connecting(ret: Caller)
    | Connected
    | Disconnecting(ret: Caller, state: DisconnectState)
    | PendingError(error: ErrorKind)

  datatype State = State(status: Option<LoopStatus>, data: Data)

  /** Messages to the loop. `sendOk` says whether the connection takes the packet to be sent. */
  datatype Event =
    | ConnectEvent(sendOk: bool)
    | ConnectTimeout
    | ClientEvent(request: Request, sendOk: bool)
    | DisconnectEvent(wait: bool, sendOk: bool)
    | DisconnectTimeout
    | KeepAlive(sendOk: bool)
    | PingTimeout
    | Inbound(packet: Message, remove: RemoveResult, append: AppendResult, sendOk: bool)

  /** What the sender of a message gets at once. */
  datatype Response = Empty | Future(caller: Caller) | Fail(error: ErrorKind) | Panic

  datatype Outcome = Outcome(sent: Option<Message>, response: Response)

  /** Sending what a handler handed back. */
  function Conclude(r: Result, ok: Response, sendOk: bool): Outcome {
    match r
    case Panicked => Outcome(None, Panic)
    case Err(e) => Outcome(None, Fail(e))
    case Send(None) => Outcome(None, ok)
    case Send(Some(p)) => if sendOk then Outcome(Some(p), ok) else Outcome(None, Fail(LoopError))
  }

  function HandleConnect(s: State, sendOk: bool): (State, Outcome) {
    match s.status
    case Some(Connected) => (s, Outcome(None, Fail(AlreadyConnected)))
    case Some(PendingError(e)) => (s.(status := None), Outcome(None, Fail(e)))
    case Some(_) => (s, Outcome(None, Fail(ClientUnavailable)))
    case None =>
      var (d, c) := NewCaller(s.data);
      if sendOk then (State(Some(Connecting(c)), d), Outcome(Some(ConnectMsg), Future(c)))
      else (State(None, d), Outcome(None, Fail(LoopError)))
  }

  function HandleConnectTimeout(s: State): (State, Outcome) {
    match s.status
    case Some(Connecting(c)) =>
      (State(None, Tell(s.data, c, Failed(ResponseTimeout(Connect)))), Outcome(None, Empty))
    case Some(PendingError(e)) => (s.(status := None), Outcome(None, Fail(e)))
    case _ => (s, Outcome(None, Empty))
  }

  function HandleRequest(s: State, r: Request, sendOk: bool): (State, Outcome) {
    match s.status
    case Some(Connected) =>
      var (d0, c) := NewCaller(s.data);
      var (d1, res) := RequestStep(d0, r, c);
      (State(s.status, d1), Conclude(res, Future(c), sendOk))
    case Some(PendingError(e)) => (s.(status := Some(Disconnected)), Outcome(None, Fail(e)))
    case Some(_) => (s, Outcome(None, Fail(ClientUnavailable)))
    case None => (s, Outcome(None, Panic))
  }

  function HandleDisconnect(s: State, wait: bool, sendOk: bool): (State, Outcome) {
    match s.status
    case Some(Connected) =>
      var (d, c) := NewCaller(s.data);
      if wait then (State(Some(Disconnecting(c, Waiting)), d), Outcome(None, Future(c)))
      else
        (State(Some(Disconnecting(c, Closing)), d),
         if sendOk then Outcome(Some(DisconnectMsg), Future(c)) else Outcome(None, Fail(LoopError)))
    case Some(PendingError(e)) => (s.(status := None), Outcome(None, Fail(e)))
    case Some(_) => (s, Outcome(None, Fail(ClientUnavailable)))
    case None => (s, Outcome(None, Panic))
  }

  /** The states in which the connection is in use. */
  predicate Active(status: Option<LoopStatus>) {
    status == Some(Connected) || (status.Some? && status.value.Disconnecting? && status.value.state.Waiting?)
  }

  function HandleKeepAlive(s: State, sendOk: bool): (State, Outcome) {
    if !Active(s.status) then (s, Outcome(None, Empty))
    else
      var (d0, c) := NewCaller(s.data);
      var (d1, res) := PingReqStep(d0, c);
      (State(s.status, d1), Conclude(res, Empty, sendOk))
  }

  function HandlePingTimeout(s: State): (State, Outcome) {
    match s.status
    case Some(Disconnected) => (s, Outcome(None, Empty))
    case Some(PendingError(_)) => (s, Outcome(None, Empty))
    case _ => (s.(status := Some(PendingError(ResponseTimeout(PingReq)))), Outcome(None, Empty))
  }

  /** The handlers that serve both while connected and while waiting to disconnect. */
  function FlowStep(d: Data, p: Message, remove: RemoveResult, append: AppendResult): (Data, Result) {
    match p
    case PingRespMsg => PingRespStep(d)
    case PubAckMsg(id) => PubAckStep(d, id, remove)
    case PubCompMsg(id) => PubCompStep(d, id, remove)
    case PubRecMsg(id) => PubRecStep(d, id, remove, append)
    case PubRelMsg(id) => PubRelStep(d, id)
    case SubAckMsg(id, codes) => SubAckStep(d, id, codes)
    case UnsubAckMsg(id) => UnsubAckStep(d, id)
    case _ => (d, Send(None))
  }

  predicate IsFlow(p: Message) {
    p.PingRespMsg? || p.PubAckMsg? || p.PubCompMsg? || p.PubRecMsg? || p.PubRelMsg? || p.SubAckMsg? || p.UnsubAckMsg?
  }

  /** While connected, a packet that only a client sends, or a second CONNACK, is `unreachable!()`. */
  function ConnectedStep(d: Data, p: Message, remove: RemoveResult, append: AppendResult): (Data, Result) {
    if p.PublishMsg? then PublishStep(d, p)
    else if IsFlow(p) then FlowStep(d, p, remove, append)
    else (d, Panicked)
  }

  function ConnAckStep(s: State, p: Message): State
    requires p.ConnAckMsg? && s.status.Some? && s.status.value.Connecting?
  {
    var c := s.status.value.ret;
    if p.code != 0 then State(Some(Disconnected), Tell(s.data, c, Failed(ConnectionRefused(p.code))))
    else if p.clean then State(Some(Connected), Tell(s.data, c, Onetime))
    else
      var rx := |s.data.streams|;
      var d := s.data.(streams := s.data.streams + [[]], sessionSubs := Some(rx));
      State(Some(Connected), Tell(d, c, Ongoing([Stream(rx, QoS0)])))
  }

  function HandleInbound(s: State, p: Message, remove: RemoveResult, append: AppendResult, sendOk: bool): (State, Outcome) {
    if s.status == Some(Connected) then
      var (d, r) := ConnectedStep(s.data, p, remove, append);
      (State(s.status, d), Conclude(r, Empty, sendOk))
    else if Active(s.status) then
      var (d, r) := FlowStep(s.data, p, remove, append);
      (State(s.status, d), Conclude(r, Empty, sendOk))
    else if s.status.Some? && s.status.value.Connecting? && p.ConnAckMsg? then
      (ConnAckStep(s, p), Outcome(None, Empty))
    else (s, Outcome(None, Empty))
  }

  function Handle(s: State, e: Event): (State, Outcome) {
    match e
    case ConnectEvent(ok) => HandleConnect(s, ok)
    case ConnectTimeout => HandleConnectTimeout(s)
    case ClientEvent(r, ok) => HandleRequest(s, r, ok)
    case DisconnectEvent(wait, ok) => HandleDisconnect(s, wait, ok)
    case DisconnectTimeout => (s, Outcome(None, Empty))
    case KeepAlive(ok) => HandleKeepAlive(s, ok)
    case PingTimeout => HandlePingTimeout(s)
    case Inbound(p, remove, append, ok) => HandleInbound(s, p, remove, append, ok)
  }

  /** The SUBACK loop makes channels and subscriptions, and touches nothing else. */
  lemma {:induction false} SubAckLoopFrame(d: Data, subs: seq<(string, QualityOfService)>,
                                          codes: seq<SubAckReturnCode>, done: seq<SubResult>)
    ensures var d' := SubAckLoop(d, subs, codes, done).0;
      && d' == d.(streams := d'.streams, subscriptions := d'.subscriptions)
      && d.streams <= d'.streams
      && forall i | |d.streams| <= i < |d'.streams| :: d'.streams[i] == []
    decreases |subs|
  {
    if subs != [] && codes != [] {
      var (topic, qos) := subs[0];
      if !codes[0].IsOk() {
        SubAckLoopFrame(d, subs[1..], codes[1..], done + [Rejected(topic, qos)]);
      } else {
        var rx := |d.streams|;
        var f := Compile(topic);
        if f.Some? {
          var d1 := d.(streams := d.streams + [[]]);
          SubAckLoopFrame(d1.(subscriptions := d1.subscriptions[topic := (f.value, rx)]), subs[1..], codes[1..],
            done + [Stream(rx, qos)]);
        }
      }
    }
  }

  /** The same for the whole SUBACK handler, which also settles the request. */
  lemma SubAckFrame(d: Data, id: u16, codes: seq<SubAckReturnCode>)
    ensures var d' := SubAckStep(d, id, codes).0;
      && d' == d.(streams := d'.streams, subscriptions := d'.subscriptions, oneTime := d.oneTime - {SubscribeKey(id)},
                  replies := d'.replies)
      && d.streams <= d'.streams
      && (forall i | |d.streams| <= i < |d'.streams| :: d'.streams[i] == [])
      && (d'.replies == d.replies
          || (SubscribeKey(id) in d.oneTime && exists r :: d'.replies == d.replies + [(d.oneTime[SubscribeKey(id)].1, r)]))
  {
    var key := SubscribeKey(id);
    if key !in d.oneTime {
      assert d.oneTime - {key} == d.oneTime;
    } else if d.oneTime[key].0.SubscribeMsg? {
      SubAckLoopFrame(d.(oneTime := d.oneTime - {key}), d.oneTime[key].0.subs, codes, []);
    }
  }

  /** A publish touches the identifiers, the flights and the store only. */
  lemma ClientPublishFrame(d: Data, r: Request, c: Caller)
    requires r.PublishRequest?
    ensures var a := ClientPublishStep(d, r, c).0;
      a == d.(nextPacketId := a.nextPacketId, clientPublishState := a.clientPublishState, persistence := a.persistence)
  {
    AppendFrame(GenPacketId(d), PublishMsg(r.qos, r.retain, NextId(d), r.topic, r.payload), r.append);
  }

  /** A request leaves subscriptions, channels, and what came from the server alone. */
  lemma RequestFrame(d: Data, r: Request, c: Caller)
    ensures var d' := RequestStep(d, r, c).0;
      && d'.subscriptions == d.subscriptions && d'.streams == d.streams
      && d'.serverPublishState == d.serverPublishState && d'.callers == d.callers && d'.replies == d.replies
  {
    if r.PublishRequest? { ClientPublishFrame(d, r, c); }
  }

  lemma PubRelFrame(d: Data, id: u16)
    ensures var d' := PubRelStep(d, id).0;
      && d' == d.(serverPublishState := d.serverPublishState - {id}, streams := d'.streams)
      && |d'.streams| == |d.streams|
  {
    if id !in d.serverPublishState { assert d.serverPublishState - {id} == d.serverPublishState; }
  }

  lemma PublishFrame(d: Data, p: Message)
    requires p.PublishMsg?
    ensures var d' := PublishStep(d, p).0;
      && d' == d.(serverPublishState := d'.serverPublishState, streams := d'.streams)
      && |d'.streams| == |d.streams|
  {
  }

  lemma RemoveFrame(d: Data, key: Key, r: RemoveResult)
    ensures StoreRemove(d, key, r) == d.(persistence := StoreRemove(d, key, r).persistence)
  {
  }

  lemma AppendFrame(d: Data, m: Message, r: AppendResult)
    ensures StoreAppend(d, m, r) == d.(persistence := StoreAppend(d, m, r).persistence)
  {
  }

  lemma SettleFrame(d: Data, key: Key, sender: Option<Caller>, remove: RemoveResult)
    ensures var a := Settle(d, key, sender, remove).0; a == d.(persistence := a.persistence, replies := a.replies)
  {
  }

  lemma AckFrame(d: Data, id: u16, remove: RemoveResult)
    ensures var a := PubAckStep(d, id, remove).0;
      && a == d.(clientPublishState := a.clientPublishState, persistence := a.persistence, replies := a.replies)
      && a.clientPublishState.Keys <= d.clientPublishState.Keys
  {
    if id in d.clientPublishState && d.clientPublishState[id].Sent? {
      var st := d.clientPublishState[id];
      SettleFrame(d.(clientPublishState := d.clientPublishState - {id}), st.key, st.sender, remove);
    }
  }

  lemma RecFrame(d: Data, id: u16, remove: RemoveResult, append: AppendResult)
    ensures var a := PubRecStep(d, id, remove, append).0;
      && a == d.(clientPublishState := a.clientPublishState, persistence := a.persistence, replies := a.replies)
      && a.clientPublishState.Keys <= d.clientPublishState.Keys
  {
    if id in d.clientPublishState && d.clientPublishState[id].Sent? {
      var d1 := d.(clientPublishState := d.clientPublishState - {id});
      RemoveFrame(d1, d.clientPublishState[id].key, remove);
      AppendFrame(StoreRemove(d1, d.clientPublishState[id].key, remove), PubRelMsg(id), append);
    }
  }

  lemma CompFrame(d: Data, id: u16, remove: RemoveResult)
    ensures var a := PubCompStep(d, id, remove).0;
      && a == d.(clientPublishState := a.clientPublishState, persistence := a.persistence, replies := a.replies)
      && a.clientPublishState.Keys <= d.clientPublishState.Keys
  {
    if id in d.clientPublishState && d.clientPublishState[id].Released? {
      var st := d.clientPublishState[id];
      SettleFrame(d.(clientPublishState := d.clientPublishState - {id}), st.key, st.sender, remove);
    }
  }

  /** Other than SUBACK and UNSUBACK, no packet of a flow touches the subscriptions. */
  lemma FlowFrame(d: Data, p: Message, remove: RemoveResult, append: AppendResult)
    requires !p.SubAckMsg? && !p.UnsubAckMsg?
    ensures var d' := FlowStep(d, p, remove, append).0;
      d'.subscriptions == d.subscriptions && |d'.streams| == |d.streams| && d'.oneTime == d.oneTime
  {
    match p
    case PubAckMsg(id) => AckFrame(d, id, remove);
    case PubRecMsg(id) => RecFrame(d, id, remove, append);
    case PubCompMsg(id) => CompFrame(d, id, remove);
    case PubRelMsg(id) => PubRelFrame(d, id);
    case _ =>
  }

  /** In use, the loop hands each flow packet to its handler. */
  lemma FlowEvent(s: State, e: Event)
    requires e.Inbound? && Active(s.status) && IsFlow(e.packet)
    ensures var (d, r) := FlowStep(s.data, e.packet, e.remove, e.append);
      Handle(s, e) == (s.(data := d), Conclude(r, Empty, e.sendOk))
  {
  }

  // ------------------------------------------------------------ runs

  /** A loop that has not been asked to connect. */
  const UNCONNECTED := State(None, NEW_DATA)

  /** The state after a run of events. */
  function After(s: State, es: seq<Event>): State
    decreases |es|
  {
    if es == [] then s else Handle(After(s, Front(es)), Last(es)).0
  }

  function Front<T>(es: seq<T>): seq<T>
    requires es != []
  {
    es[..|es| - 1]
  }

  function Last<T>(es: seq<T>): T
    requires es != []
  {
    es[|es| - 1]
  }

  /** An append hands out a key that is not in the store. */
  predicate FreshKey(d: Data, r: AppendResult) {
    match r
    case Appended(k) => k !in d.persistence
    case AppendFailed(Some(k)) => k !in d.persistence
    case AppendFailed(None) => true
  }

  /** The append that the event comes with, if it gets that far, hands out a fresh key. */
  predicate FreshAppend(s: State, e: Event) {
    match e
    case ClientEvent(PublishRequest(_, _, _, _, append), _) => s.status == Some(Connected) ==> FreshKey(s.data, append)
    case Inbound(PubRecMsg(id), remove, append, _) =>
      Active(s.status) && id in s.data.clientPublishState && s.data.clientPublishState[id].Sent? ==>
        FreshKey(StoreRemove(s.data, s.data.clientPublishState[id].key, remove), append)
    case _ => true
  }

  /** A new publish does not get the identifier of one in flight. */
  predicate DistinctId(s: State, e: Event) {
    s.status == Some(Connected) && e.ClientEvent? && e.request.PublishRequest? && e.request.qos != QoS0 ==>
      NextId(s.data) !in s.data.clientPublishState
  }

  predicate GoodEvent(s: State, e: Event) { FreshAppend(s, e) && DistinctId(s, e) }

  /** All appends of the run hand out fresh keys. */
  predicate FreshRun(s: State, es: seq<Event>)
    decreases |es|
  {
    es == [] || (FreshRun(s, Front(es)) && FreshAppend(After(s, Front(es)), Last(es)))
  }

  /** No publish of the run gets the identifier of another in flight. */
  predicate DistinctRun(s: State, es: seq<Event>)
    decreases |es|
  {
    es == [] || (DistinctRun(s, Front(es)) && DistinctId(After(s, Front(es)), Last(es)))
  }

  predicate GoodRun(s: State, es: seq<Event>) { FreshRun(s, es) && DistinctRun(s, es) }

  /** A packet from the server reaches `unreachable!()`. */
  predicate PacketPanics(s: State, e: Event) { e.Inbound? && Handle(s, e).1.response == Panic }

  /** No packet of the run does. */
  predicate NoPacketPanics(s: State, es: seq<Event>)
    decreases |es|
  {
    es == [] || (NoPacketPanics(s, Front(es)) && !PacketPanics(After(s, Front(es)), Last(es)))
  }
}
