/** The loop's mutable data, and the handlers that work on it packet by packet. */
module Handlers {
  import opened Prelude
  import opened TopicFilters
  import opened Packets
  import opened LoopModel
  import opened Ledger

  class LoopData {
    var nextPacketId: nat
    var sessionSubs: Option<StreamId>
    var serverPublishState: map<u16, PublishState>
    var clientPublishState: map<u16, PublishState>
    var oneTime: map<OneTimeKey, (Message, Caller)>
    var pingSubs: seq<Caller>
    var subscriptions: map<string, (TopicFilter, StreamId)>
    var persistence: map<Key, Message>
    // what was sent on each subscription channel, and on reply channels; reply channels made
    var streams: seq<seq<SubItem>>
    var replies: seq<(Caller, Reply)>
    var callers: nat

    function View(): Data
      reads this
    {
      Data(nextPacketId, sessionSubs, serverPublishState, clientPublishState, oneTime, pingSubs, subscriptions,
           persistence, streams, replies, callers)
    }

    /** Each subscription has a channel of its own. */
    ghost predicate Valid()
      reads this
    {
      OwnStreams(View())
    }

    constructor ()
      ensures Valid() && View() == NEW_DATA
    {
      nextPacketId, sessionSubs, callers := 0, None, 0;
      serverPublishState, clientPublishState, oneTime := map[], map[], map[];
      pingSubs, subscriptions, persistence, streams, replies := [], map[], map[], [], [];
    }

    method GenPacketId() returns (id: u16)
      modifies this
      ensures id == NextId(old(View())) && View() == LoopModel.GenPacketId(old(View()))
    {
      id := nextPacketId % 0x1_0000;
      nextPacketId := nextPacketId + 1;
    }

    /** `channel()`: a reply channel. */
    method Channel() returns (c: Caller)
      modifies this`callers
      ensures (View(), c) == NewCaller(old(View()))
    {
      c := callers;
      callers := callers + 1;
    }

    /** `unbounded()`: a subscription channel. */
    method Unbounded() returns (rx: StreamId)
      modifies this`streams
      ensures rx == old(|streams|) && streams == old(streams) + [[]]
    {
      rx := |streams|;
      streams := streams + [[]];
    }

    /** A reply to a caller. */
    method Reply(c: Caller, r: Reply)
      modifies this`replies
      ensures View() == Tell(old(View()), c, r)
    {
      replies := replies + [(c, r)];
    }

    /** A reply to a caller, if there is one. */
    method ReplyIfAny(c: Option<Caller>, r: Reply)
      modifies this`replies
      ensures View() == TellSome(old(View()), c, r)
    {
      if c.Some? { Reply(c.value, r); }
    }

    /** `persistence.remove`, with its outcome. */
    method Remove(key: Key, result: RemoveResult)
      modifies this`persistence
      ensures View() == StoreRemove(old(View()), key, result)
    {
      if result.Removed? || result.gone { persistence := persistence - {key}; }
    }

    /** `persistence.append`, with its outcome. */
    method Append(m: Message, result: AppendResult)
      modifies this`persistence
      ensures View() == StoreAppend(old(View()), m, result)
    {
      match result
      case Appended(key) => persistence := persistence[key := m];
      case AppendFailed(Some(key)) => persistence := persistence[key := m];
      case AppendFailed(None) =>
    }
  }

  // ------------------------------------------------------------ inbound

  /** One of the keys looked at so far has channel `s` and a filter that matches. */
  ghost predicate Reached(d: Data, keys: set<string>, s: StreamId, topic: string) {
    exists k | k in keys && k in d.subscriptions :: d.subscriptions[k].1 == s && d.subscriptions[k].0.MatchTopic(topic)
  }

  /** What the channels hold when the subscriptions `seen` have been served. */
  ghost predicate ServedSoFar(d: Data, seen: set<string>, topic: string, payload: Bytes, streams: seq<seq<SubItem>>) {
    && |streams| == |d.streams|
    && forall s: StreamId | s < |streams| ::
      streams[s] == if Reached(d, seen, s, topic) then d.streams[s] + [SubItem(topic, payload)] else d.streams[s]
  }

  /** Serving one more subscription. */
  lemma ServeOne(d: Data, seen: set<string>, k: string, topic: string, payload: Bytes,
                 streams: seq<seq<SubItem>>, streams': seq<seq<SubItem>>)
    requires OwnStreams(d) && seen <= d.subscriptions.Keys && k in d.subscriptions && k !in seen
    requires ServedSoFar(d, seen, topic, payload, streams)
    requires var (f, tx) := d.subscriptions[k];
      streams' == if f.MatchTopic(topic) then streams[tx := streams[tx] + [SubItem(topic, payload)]] else streams
    ensures ServedSoFar(d, seen + {k}, topic, payload, streams')
  {
    var (f, tx) := d.subscriptions[k];
    forall s: StreamId | s < |streams'|
      ensures streams'[s] == if Reached(d, seen + {k}, s, topic) then d.streams[s] + [SubItem(topic, payload)] else d.streams[s]
    {
      if s == tx {
        assert !Reached(d, seen, s, topic);
        assert f.MatchTopic(topic) ==> k in seen + {k};
      } else if j :| j in seen && j in d.subscriptions && d.subscriptions[j].1 == s && d.subscriptions[j].0.MatchTopic(topic) {
        assert j in seen + {k};
      }
    }
  }

  lemma ServedAll(d: Data, topic: string, payload: Bytes, streams: seq<seq<SubItem>>)
    requires ServedSoFar(d, d.subscriptions.Keys, topic, payload, streams)
    ensures Deliver(d, topic, payload) == d.(streams := streams)
  {
    forall s: StreamId | s < |streams| ensures streams[s] == Deliver(d, topic, payload).streams[s] {
      assert Reached(d, d.subscriptions.Keys, s, topic) <==> Listens(d, s, topic);
    }
  }

  /** A copy for one subscription, if its filter matches. */
  method SendTo(k: string, topic: string, payload: Bytes, data: LoopData, ghost d: Data, ghost seen: set<string>)
    requires OwnStreams(d) && data.View() == d.(streams := data.streams)
    requires seen <= data.subscriptions.Keys && k in data.subscriptions && k !in seen
    requires ServedSoFar(d, seen, topic, payload, data.streams)
    modifies data`streams
    ensures data.View() == d.(streams := data.streams)
    ensures ServedSoFar(d, seen + {k}, topic, payload, data.streams)
  {
    var (filter, sender) := data.subscriptions[k];
    ghost var before := data.streams;
    if filter.MatchTopic(topic) {
      data.streams := data.streams[sender := data.streams[sender] + [SubItem(topic, payload)]];
    }
    ServeOne(d, seen, k, topic, payload, before, data.streams);
  }

  /** The loop over the subscriptions' values, in any order. */
  method Dispatch(topic: string, payload: Bytes, data: LoopData)
    requires data.Valid()
    modifies data`streams
    ensures data.View() == Deliver(old(data.View()), topic, payload)
  {
    ghost var d := data.View();
    ghost var all := data.subscriptions.Keys;
    var left := data.subscriptions.Keys;
    while left != {}
      invariant left <= all && data.View() == d.(streams := data.streams)
      invariant ServedSoFar(d, all - left, topic, payload, data.streams)
      decreases |left|
    {
      var k :| k in left;
      SendTo(k, topic, payload, data, d, all - left);
      assert all - (left - {k}) == all - left + {k};
      left := left - {k};
    }
    assert all - left == all;
    ServedAll(d, topic, payload, data.streams);
  }

  method SubAckHandler(id: u16, codes: seq<SubAckReturnCode>, data: LoopData) returns (r: Result)
    modifies data
    ensures (data.View(), r) == SubAckStep(old(data.View()), id, codes)
  {
    if SubscribeKey(id) !in data.oneTime { return Err(UnexpectedResponse(SubAck)); }
    var (orig, c) := data.oneTime[SubscribeKey(id)];
    data.oneTime := data.oneTime - {SubscribeKey(id)};
    if !orig.SubscribeMsg? { return Panicked; }
    var subs, collect, i := orig.subs, [], 0;
    ghost var start := data.View();
    while i < |subs| && i < |codes|
      invariant i <= |subs| && i <= |codes|
      invariant SubAckLoop(data.View(), subs[i..], codes[i..], collect) == SubAckLoop(start, subs, codes, [])
    {
      var (topic, qos) := subs[i];
      if codes[i].IsOk() {
        var rx := data.Unbounded();
        var filter := Compile(topic);
        if filter.None? { return Err(InvalidTopicFilter); }
        data.subscriptions := data.subscriptions[topic := (filter.value, rx)];
        collect := collect + [Stream(rx, qos)];
      } else {
        collect := collect + [Rejected(topic, qos)];
      }
      i := i + 1;
    }
    data.Reply(c, Ongoing(collect));
    return Send(None);
  }

  method UnsubAckHandler(id: u16, data: LoopData) returns (r: Result)
    modifies data
    ensures (data.View(), r) == UnsubAckStep(old(data.View()), id)
  {
    if UnsubscribeKey(id) !in data.oneTime { return Err(UnexpectedResponse(UnsubAck)); }
    var (orig, c) := data.oneTime[UnsubscribeKey(id)];
    data.oneTime := data.oneTime - {UnsubscribeKey(id)};
    if !orig.UnsubscribeMsg? { return Panicked; }
    ghost var start := data.View();
    for i := 0 to |orig.topics|
      invariant data.View() == start.(subscriptions := start.subscriptions - (set t | t in orig.topics[..i]))
    {
      data.subscriptions := data.subscriptions - {orig.topics[i]};
      assert orig.topics[..i + 1] == orig.topics[..i] + [orig.topics[i]];
    }
    assert orig.topics[..|orig.topics|] == orig.topics;
    data.Reply(c, Onetime);
    return Send(None);
  }

  method PingRespHandler(data: LoopData) returns (r: Result)
    modifies data
    ensures (data.View(), r) == PingRespStep(old(data.View()))
  {
    while data.pingSubs != []
      invariant data.View() == old(data.View()).(pingSubs := data.pingSubs, replies := data.replies)
      invariant data.replies + PingReplies(data.pingSubs) == old(data.replies) + PingReplies(old(data.pingSubs))
      decreases |data.pingSubs|
    {
      var client := data.pingSubs[0];
      assert PingReplies(data.pingSubs) == [(client, Onetime)] + PingReplies(data.pingSubs[1..]);
      data.pingSubs := data.pingSubs[1..];
      data.Reply(client, Onetime);
    }
    assert data.replies == data.replies + PingReplies([]);
    return Send(None);
  }

  method PublishHandler(p: Message, data: LoopData) returns (r: Result)
    requires p.PublishMsg? && data.Valid()
    modifies data
    ensures (data.View(), r) == PublishStep(old(data.View()), p)
  {
    match p.qos
    case QoS0 =>
      Dispatch(p.topic, p.payload, data);
      r := Send(None);
    case QoS1 =>
      Dispatch(p.topic, p.payload, data);
      r := Send(Some(PubAckMsg(p.id)));
    case QoS2 =>
      if p.id in data.serverPublishState { return Err(QualityOfServiceError); }
      data.serverPublishState := data.serverPublishState[p.id := Received(p)];
      r := Send(Some(PubRecMsg(p.id)));
  }

  method PubAckHandler(id: u16, remove: RemoveResult, data: LoopData) returns (r: Result)
    modifies data
    ensures (data.View(), r) == PubAckStep(old(data.View()), id, remove)
    ensures old(Balanced(data.View())) ==> Balanced(data.View())
  {
    if Balanced(data.View()) { AckStep(data.View(), id, remove); }
    if id !in data.clientPublishState { return Err(UnexpectedResponse(PubAck)); }
    var state := data.clientPublishState[id];
    data.clientPublishState := data.clientPublishState - {id};
    if !state.Sent? { return Panicked; }
    data.Remove(state.key, remove);
    if remove.RemoveFailed? {
      data.ReplyIfAny(state.sender, Failed(PersistenceError));
      return Err(PersistenceError);
    }
    data.ReplyIfAny(state.sender, Onetime);
    return Send(None);
  }

  method PubRecHandler(id: u16, remove: RemoveResult, append: AppendResult, data: LoopData) returns (r: Result)
    modifies data
    ensures (data.View(), r) == PubRecStep(old(data.View()), id, remove, append)
    ensures old(Balanced(data.View()) && FreshRelease(data.View(), id, remove, append)) ==> Balanced(data.View())
  {
    if Balanced(data.View()) && FreshRelease(data.View(), id, remove, append) { RecStep(data.View(), id, remove, append); }
    if id !in data.clientPublishState { return Err(UnexpectedResponse(PubRec)); }
    var state := data.clientPublishState[id];
    data.clientPublishState := data.clientPublishState - {id};
    if !state.Sent? { return Panicked; }
    data.Remove(state.key, remove);
    if remove.RemoveFailed? { return Err(PersistenceError); }
    data.Append(PubRelMsg(id), append);
    if append.AppendFailed? {
      data.ReplyIfAny(state.sender, Failed(PersistenceError));
      return Err(PersistenceError);
    }
    data.clientPublishState := data.clientPublishState[id := Released(append.key, state.sender)];
    return Send(Some(PubRelMsg(id)));
  }

  method PubCompHandler(id: u16, remove: RemoveResult, data: LoopData) returns (r: Result)
    modifies data
    ensures (data.View(), r) == PubCompStep(old(data.View()), id, remove)
    ensures old(Balanced(data.View())) ==> Balanced(data.View())
  {
    if Balanced(data.View()) { CompStep(data.View(), id, remove); }
    if id !in data.clientPublishState { return Err(UnexpectedResponse(PubComp)); }
    var state := data.clientPublishState[id];
    data.clientPublishState := data.clientPublishState - {id};
    if !state.Released? { return Panicked; }
    data.Remove(state.key, remove);
    if remove.RemoveFailed? {
      data.ReplyIfAny(state.sender, Failed(PersistenceError));
      return Err(PersistenceError);
    }
    data.ReplyIfAny(state.sender, Onetime);
    return Send(None);
  }

  method PubRelHandler(id: u16, data: LoopData) returns (r: Result)
    requires data.Valid()
    modifies data
    ensures (data.View(), r) == PubRelStep(old(data.View()), id)
  {
    if id !in data.serverPublishState { return Err(UnexpectedResponse(PubRel)); }
    var state := data.serverPublishState[id];
    data.serverPublishState := data.serverPublishState - {id};
    if !state.Received? || !state.packet.PublishMsg? { return Panicked; }
    Dispatch(state.packet.topic, state.packet.payload, data);
    return Send(Some(PubCompMsg(id)));
  }

  // ------------------------------------------------------------ outbound

  method SubscribeHandler(subs: seq<(string, QualityOfService)>, client: Caller, data: LoopData) returns (r: Result)
    modifies data
    ensures (data.View(), r) == SubscribeStep(old(data.View()), subs, client)
  {
    var id := data.GenPacketId();
    var newSubs := [];
    for i := 0 to |subs|
      invariant newSubs == subs[..i] && forall j | 0 <= j < i :: FitsMqttString(subs[j].0)
    {
      if !FitsMqttString(subs[i].0) { return Err(StringConversionError); }
      newSubs := newSubs + [subs[i]];
    }
    assert newSubs == subs;
    var packet := SubscribeMsg(id, newSubs);
    data.oneTime := data.oneTime[SubscribeKey(id) := (packet, client)];
    return Send(Some(packet));
  }

  method UnsubscribeHandler(topics: seq<string>, client: Caller, data: LoopData) returns (r: Result)
    modifies data
    ensures (data.View(), r) == UnsubscribeStep(old(data.View()), topics, client)
  {
    var id := data.GenPacketId();
    var newTopics := [];
    for i := 0 to |topics|
      invariant newTopics == topics[..i] && forall j | 0 <= j < i :: FitsMqttString(topics[j])
    {
      if !FitsMqttString(topics[i]) { return Err(StringConversionError); }
      newTopics := newTopics + [topics[i]];
    }
    assert newTopics == topics;
    var packet := UnsubscribeMsg(id, newTopics);
    data.oneTime := data.oneTime[UnsubscribeKey(id) := (packet, client)];
    return Send(Some(packet));
  }

  method PingReqHandler(client: Caller, data: LoopData) returns (r: Result)
    modifies data
    ensures (data.View(), r) == PingReqStep(old(data.View()), client)
  {
    r := Send(if data.pingSubs == [] then Some(PingReqMsg) else None);
    data.pingSubs := data.pingSubs + [client];
  }

  method ClientPublishHandler(req: Request, client: Caller, data: LoopData) returns (r: Result)
    requires req.PublishRequest?
    modifies data
    ensures (data.View(), r) == ClientPublishStep(old(data.View()), req, client)
    ensures old(Balanced(data.View()) && FreshPublish(data.View(), req)) ==> Balanced(data.View())
  {
    if Balanced(data.View()) && FreshPublish(data.View(), req) { PublishBooked(data.View(), req, client); }
    if req.qos == QoS0 { return Send(Some(PublishMsg(QoS0, req.retain, 0, req.topic, req.payload))); }
    var id := data.GenPacketId();
    var packet := PublishMsg(req.qos, req.retain, id, req.topic, req.payload);
    data.Append(packet, req.append);
    if req.append.AppendFailed? { return Err(PersistenceError); }
    data.clientPublishState := data.clientPublishState[id := Sent(req.append.key, Some(client))];
    return Send(Some(packet));
  }

  // ------------------------------------------------------------ channels stay apart

  lemma {:induction false} SubAckLoopOwn(d: Data, subs: seq<(string, QualityOfService)>,
                                        codes: seq<SubAckReturnCode>, done: seq<SubResult>)
    requires OwnStreams(d)
    ensures OwnStreams(SubAckLoop(d, subs, codes, done).0)
    decreases |subs|
  {
    if subs != [] && codes != [] {
      var (topic, qos) := subs[0];
      var rx, f := |d.streams|, Compile(topic);
      if !codes[0].IsOk() {
        SubAckLoopOwn(d, subs[1..], codes[1..], done + [Rejected(topic, qos)]);
      } else if f.Some? {
        var d1 := d.(streams := d.streams + [[]], subscriptions := d.subscriptions[topic := (f.value, rx)]);
        SubAckLoopOwn(d1, subs[1..], codes[1..], done + [Stream(rx, qos)]);
      }
    }
  }

  lemma FlowOwn(d: Data, p: Message, remove: RemoveResult, append: AppendResult)
    requires OwnStreams(d)
    ensures OwnStreams(FlowStep(d, p, remove, append).0)
  {
    match p
    case SubAckMsg(id, codes) =>
      if SubscribeKey(id) in d.oneTime && d.oneTime[SubscribeKey(id)].0.SubscribeMsg? {
        SubAckLoopOwn(d.(oneTime := d.oneTime - {SubscribeKey(id)}), d.oneTime[SubscribeKey(id)].0.subs, codes, []);
      }
    case UnsubAckMsg(_) =>
    case _ => FlowFrame(d, p, remove, append);
  }
}
