/** The subscription table over whole runs. */
module Subscriptions {
  import opened Prelude
  import opened Packets
  import opened TopicFilters
  import opened FilterMeaning
  import opened LoopModel
  import opened Replies

  // ------------------------------------------------------------ acknowledged operations

  datatype Op = Added(topic: string) | Dropped(topic: string)

  /**
   What a SUBACK acknowledges: the filters with a good code, in order, up to one that does not
   compile.
   */
  function AckedOps(subs: seq<(string, QualityOfService)>, codes: seq<SubAckReturnCode>): seq<Op> {
    if subs == [] || codes == [] then []
    else if !codes[0].IsOk() then AckedOps(subs[1..], codes[1..])
    else if Compile(subs[0].0).None? then []
    else [Added(subs[0].0)] + AckedOps(subs[1..], codes[1..])
  }

  function DroppedOps(topics: seq<string>): seq<Op> {
    seq(|topics|, i requires 0 <= i < |topics| => Dropped(topics[i]))
  }

  // ------------------------------------------------------------ requests

  predicate TextsFit(texts: seq<string>) { forall i | 0 <= i < |texts| :: FitsMqttString(texts[i]) }

  function Topics(subs: seq<(string, QualityOfService)>): seq<string> {
    seq(|subs|, i requires 0 <= i < |subs| => subs[i].0)
  }

  /** The request for an answer that an event makes of the server. */
  function RequestBy(s: State, e: Event): map<OneTimeKey, Message> {
    if !e.ClientEvent? || s.status != Some(Connected) then map[]
    else
      var id := NextId(s.data);
      match e.request
      case SubscribeRequest(subs) =>
        if TextsFit(Topics(subs)) then map[SubscribeKey(id) := SubscribeMsg(id, subs)] else map[]
      case UnsubscribeRequest(topics) =>
        if TextsFit(topics) then map[UnsubscribeKey(id) := UnsubscribeMsg(id, topics)] else map[]
      case _ => map[]
  }

  /** The request that an event brings the answer to. */
  function AnsweredBy(s: State, e: Event): set<OneTimeKey> {
    if !e.Inbound? || !Active(s.status) then {}
    else match e.packet
      case SubAckMsg(id, _) => {SubscribeKey(id)}
      case UnsubAckMsg(id) => {UnsubscribeKey(id)}
      case _ => {}
  }

  /** The requests of a run that no answer has come to, the last one made under each identifier. */
  function Outstanding(s: State, es: seq<Event>): map<OneTimeKey, Message>
    decreases |es|
  {
    if es == [] then map[]
    else Outstanding(s, Front(es)) + RequestBy(After(s, Front(es)), Last(es)) - AnsweredBy(After(s, Front(es)), Last(es))
  }

  /** The requests on the loop's table. */
  function OnTable(d: Data): map<OneTimeKey, Message> { map key | key in d.oneTime :: d.oneTime[key].0 }

  /** A request goes to the server as it was made, and on the table with its caller. */
  lemma AskedIsSent(s: State, e: Event, key: OneTimeKey)
    requires key in RequestBy(s, e)
    ensures var (s', o) := Handle(s, e);
      && key in s'.data.oneTime && s'.data.oneTime[key] == (RequestBy(s, e)[key], s.data.callers)
      && o == if e.sendOk then Outcome(Some(RequestBy(s, e)[key]), Future(s.data.callers)) else Outcome(None, Fail(LoopError))
  {
    if e.request.SubscribeRequest? { TopicsFit(e.request.subs); }
  }

  lemma TopicsFit(subs: seq<(string, QualityOfService)>)
    ensures TextsFit(Topics(subs)) <==> !exists i | 0 <= i < |subs| :: !FitsMqttString(subs[i].0)
  {
    if TextsFit(Topics(subs)) {
      forall i | 0 <= i < |subs| ensures FitsMqttString(subs[i].0) { assert FitsMqttString(Topics(subs)[i]); }
    }
  }

  lemma RequestTables(d: Data, r: Request, c: Caller)
    ensures OnTable(RequestStep(d, r, c).0) == OnTable(d) + RequestBy(State(Some(Connected), d), ClientEvent(r, true))
  {
    match r
    case SubscribeRequest(subs) => SubscribeTables(d, subs, c);
    case UnsubscribeRequest(topics) => UnsubscribeTables(d, topics, c);
    case PublishRequest(_, _, _, _, _) => ClientPublishFrame(d, r, c);
    case PingRequest =>
  }

  lemma SubscribeTables(d: Data, subs: seq<(string, QualityOfService)>, c: Caller)
    ensures OnTable(SubscribeStep(d, subs, c).0) == OnTable(d) +
      if TextsFit(Topics(subs)) then map[SubscribeKey(NextId(d)) := SubscribeMsg(NextId(d), subs)] else map[]
  {
    TopicsFit(subs);
  }

  lemma UnsubscribeTables(d: Data, topics: seq<string>, c: Caller)
    ensures OnTable(UnsubscribeStep(d, topics, c).0) == OnTable(d) +
      if TextsFit(topics) then map[UnsubscribeKey(NextId(d)) := UnsubscribeMsg(NextId(d), topics)] else map[]
  {
  }

  lemma FlowTables(s: State, e: Event)
    requires e.Inbound? && Active(s.status) && IsFlow(e.packet)
    ensures OnTable(FlowStep(s.data, e.packet, e.remove, e.append).0) == OnTable(s.data) - AnsweredBy(s, e)
  {
    if e.packet.SubAckMsg? {
      SubAckFrame(s.data, e.packet.id, e.packet.codes);
    } else if e.packet.UnsubAckMsg? {
      assert UnsubAckStep(s.data, e.packet.id).0.oneTime == s.data.oneTime - {UnsubscribeKey(e.packet.id)};
    } else {
      FlowFrame(s.data, e.packet, e.remove, e.append);
    }
  }

  lemma OtherTables(s: State, e: Event)
    requires !e.ClientEvent? && !(e.Inbound? && Active(s.status) && IsFlow(e.packet))
    ensures Handle(s, e).0.data.oneTime == s.data.oneTime
  {
    if e.Inbound? && e.packet.PublishMsg? { PublishFrame(s.data, e.packet); }
  }

  lemma OutstandingStep(s: State, e: Event)
    ensures OnTable(Handle(s, e).0.data) == OnTable(s.data) + RequestBy(s, e) - AnsweredBy(s, e)
  {
    if e.Inbound? && Active(s.status) && IsFlow(e.packet) {
      FlowEvent(s, e);
      FlowTables(s, e);
    } else if e.ClientEvent? {
      if s.status == Some(Connected) { RequestTables(NewCaller(s.data).0, e.request, s.data.callers); }
    } else {
      OtherTables(s, e);
    }
  }

  /** The table holds the requests that were made and not answered, and nothing else. */
  lemma {:induction false} OutstandingHolds(status: Option<LoopStatus>, es: seq<Event>)
    ensures OnTable(After(State(status, NEW_DATA), es).data) == Outstanding(State(status, NEW_DATA), es)
    decreases |es|
  {
    if es != [] {
      OutstandingHolds(status, Front(es));
      OutstandingStep(After(State(status, NEW_DATA), Front(es)), Last(es));
    }
  }

  /** The operations that an event acknowledges, of the requests that wait for an answer. */
  function OpsBy(waiting: map<OneTimeKey, Message>, s: State, e: Event): seq<Op> {
    if !e.Inbound? || !Active(s.status) then []
    else match e.packet
      case SubAckMsg(id, codes) => SubAckOps(waiting, id, codes)
      case UnsubAckMsg(id) => UnsubAckOps(waiting, id)
      case _ => []
  }

  function SubAckOps(waiting: map<OneTimeKey, Message>, id: u16, codes: seq<SubAckReturnCode>): seq<Op> {
    if SubscribeKey(id) in waiting && waiting[SubscribeKey(id)].SubscribeMsg?
    then AckedOps(waiting[SubscribeKey(id)].subs, codes) else []
  }

  function UnsubAckOps(waiting: map<OneTimeKey, Message>, id: u16): seq<Op> {
    if UnsubscribeKey(id) in waiting && waiting[UnsubscribeKey(id)].UnsubscribeMsg?
    then DroppedOps(waiting[UnsubscribeKey(id)].topics) else []
  }

  /** The acknowledged operations of a run, from the requests that were made in it. */
  function History(s: State, es: seq<Event>): seq<Op>
    decreases |es|
  {
    if es == [] then []
    else History(s, Front(es)) + OpsBy(Outstanding(s, Front(es)), After(s, Front(es)), Last(es))
  }

  /** The last operation on a topic was to add it. */
  predicate LastAdds(ops: seq<Op>, topic: string)
    decreases |ops|
  {
    if ops == [] then false
    else if Last(ops).topic == topic then Last(ops).Added?
    else LastAdds(Front(ops), topic)
  }

  /** Operations after a history decide about their own topics only. */
  lemma {:induction false} LastAddsAppend(ops: seq<Op>, more: seq<Op>, topic: string)
    ensures LastAdds(ops + more, topic) <==>
      if exists i :: 0 <= i < |more| && more[i].topic == topic then LastAdds(more, topic) else LastAdds(ops, topic)
    decreases |more|
  {
    if more == [] {
      assert ops + more == ops;
    } else {
      assert Front(ops + more) == ops + Front(more) && Last(ops + more) == Last(more);
      LastAddsAppend(ops, Front(more), topic);
      if Last(more).topic == topic {
        assert more[|more| - 1].topic == topic;
      } else if i :| 0 <= i < |more| && more[i].topic == topic {
        assert Front(more)[i].topic == topic;
      } else {
        forall i | 0 <= i < |Front(more)| ensures Front(more)[i].topic != topic { assert more[i].topic != topic; }
      }
    }
  }

  // ------------------------------------------------------------ the table

  /** The keys of the table are the topics added last, each with its own filter and channel. */
  ghost predicate TableIs(d: Data, ops: seq<Op>) {
    && (forall k :: k in d.subscriptions <==> LastAdds(ops, k))
    && (forall k | k in d.subscriptions :: Compile(k) == Some(d.subscriptions[k].0))
    && OwnStreams(d)
  }

  lemma TableAdd(d: Data, ops: seq<Op>, topic: string, d': Data)
    requires TableIs(d, ops) && Compile(topic).Some?
    requires d'.streams == d.streams + [[]]
    requires d'.subscriptions == d.subscriptions[topic := (Compile(topic).value, |d.streams|)]
    ensures TableIs(d', ops + [Added(topic)])
  {
    forall k ensures k in d'.subscriptions <==> LastAdds(ops + [Added(topic)], k) {
      LastAddsOne(ops, Added(topic), k);
    }
    OwnStreamsAdd(d, d', topic);
  }

  lemma LastAddsOne(ops: seq<Op>, op: Op, k: string)
    ensures LastAdds(ops + [op], k) <==> if op.topic == k then op.Added? else LastAdds(ops, k)
  {
    assert Front(ops + [op]) == ops && Last(ops + [op]) == op;
  }

  lemma OwnStreamsAdd(d: Data, d': Data, topic: string)
    requires OwnStreams(d) && d'.streams == d.streams + [[]]
    requires topic in d'.subscriptions && d'.subscriptions[topic].1 == |d.streams|
    requires forall k | k in d'.subscriptions && k != topic ::
      k in d.subscriptions && d'.subscriptions[k] == d.subscriptions[k]
    ensures OwnStreams(d')
  {
  }

  lemma {:induction false} SubAckLoopTable(d: Data, ops: seq<Op>, subs: seq<(string, QualityOfService)>,
                                          codes: seq<SubAckReturnCode>, done: seq<SubResult>)
    requires TableIs(d, ops)
    ensures TableIs(SubAckLoop(d, subs, codes, done).0, ops + AckedOps(subs, codes))
    decreases |subs|
  {
    if subs == [] || codes == [] {
      assert ops + [] == ops;
    } else {
      var (topic, qos) := subs[0];
      if !codes[0].IsOk() {
        SubAckLoopTable(d, ops, subs[1..], codes[1..], done + [Rejected(topic, qos)]);
      } else {
        var rx := |d.streams|;
        var f := Compile(topic);
        if f.None? {
          assert ops + [] == ops;
        } else {
          var d1 := d.(streams := d.streams + [[]], subscriptions := d.subscriptions[topic := (f.value, rx)]);
          TableAdd(d, ops, topic, d1);
          SubAckLoopTable(d1, ops + [Added(topic)], subs[1..], codes[1..], done + [Stream(rx, qos)]);
          ConcatAssoc(ops, [Added(topic)], AckedOps(subs[1..], codes[1..]));
        }
      }
    }
  }

  lemma {:induction false} DropsAdd(topics: seq<string>, topic: string)
    ensures !LastAdds(DroppedOps(topics), topic)
    decreases |topics|
  {
    if topics != [] {
      assert Front(DroppedOps(topics)) == DroppedOps(Front(topics));
      DropsAdd(Front(topics), topic);
    }
  }

  lemma TableDrop(d: Data, ops: seq<Op>, topics: seq<string>)
    requires TableIs(d, ops)
    ensures TableIs(d.(subscriptions := d.subscriptions - (set t | t in topics)), ops + DroppedOps(topics))
  {
    var gone := set t | t in topics;
    DroppedKeys(d.subscriptions, ops, topics, gone);
    FewerOwn(d, gone);
  }

  lemma DroppedKeys<V>(table: map<string, V>, ops: seq<Op>, topics: seq<string>, gone: set<string>)
    requires (forall k :: k in table <==> LastAdds(ops, k)) && gone == set t | t in topics
    ensures forall k :: k in table - gone <==> LastAdds(ops + DroppedOps(topics), k)
  {
    forall k ensures k in table - gone <==> LastAdds(ops + DroppedOps(topics), k) { DroppedKey(ops, topics, k); }
  }

  lemma DroppedKey(ops: seq<Op>, topics: seq<string>, k: string)
    ensures LastAdds(ops + DroppedOps(topics), k) <==> k !in topics && LastAdds(ops, k)
  {
    var more := DroppedOps(topics);
    LastAddsAppend(ops, more, k);
    DropsAdd(topics, k);
    if k in topics {
      var i :| 0 <= i < |topics| && topics[i] == k;
      assert more[i].topic == k;
    }
  }

  lemma FewerOwn(d: Data, gone: set<string>)
    requires OwnStreams(d)
    ensures OwnStreams(d.(subscriptions := d.subscriptions - gone))
  {
  }

  /** The table and its channels did not change, though more channels may be there. */
  lemma SameTable(d: Data, d': Data, ops: seq<Op>)
    requires TableIs(d, ops) && d'.subscriptions == d.subscriptions && |d.streams| <= |d'.streams|
    ensures TableIs(d', ops)
  {
  }

  lemma SubAckTable(d: Data, ops: seq<Op>, id: u16, codes: seq<SubAckReturnCode>)
    requires TableIs(d, ops)
    ensures TableIs(SubAckStep(d, id, codes).0, ops + SubAckOps(OnTable(d), id, codes))
  {
    var key, d' := SubscribeKey(id), SubAckStep(d, id, codes).0;
    if key in d.oneTime && d.oneTime[key].0.SubscribeMsg? {
      var d1, subs := d.(oneTime := d.oneTime - {key}), d.oneTime[key].0.subs;
      SubAckLoopTable(d1, ops, subs, codes, []);
      SameTable(SubAckLoop(d1, subs, codes, []).0, d', ops + AckedOps(subs, codes));
    } else {
      assert ops + [] == ops;
      SameTable(d, d', ops);
    }
  }

  lemma UnsubAckTable(d: Data, ops: seq<Op>, id: u16)
    requires TableIs(d, ops)
    ensures TableIs(UnsubAckStep(d, id).0, ops + UnsubAckOps(OnTable(d), id))
  {
    var key, d' := UnsubscribeKey(id), UnsubAckStep(d, id).0;
    if key in d.oneTime && d.oneTime[key].0.UnsubscribeMsg? {
      TableDrop(d, ops, d.oneTime[key].0.topics);
      SameTable(d.(subscriptions := d'.subscriptions), d', ops + UnsubAckOps(OnTable(d), id));
    } else {
      assert ops + [] == ops;
      SameTable(d, d', ops);
    }
  }

  lemma FlowTable(s: State, e: Event, ops: seq<Op>)
    requires TableIs(s.data, ops) && e.Inbound? && Active(s.status) && IsFlow(e.packet)
    ensures TableIs(FlowStep(s.data, e.packet, e.remove, e.append).0, ops + OpsBy(OnTable(s.data), s, e))
  {
    var d', more := FlowStep(s.data, e.packet, e.remove, e.append).0, OpsBy(OnTable(s.data), s, e);
    if e.packet.SubAckMsg? {
      assert d' == SubAckStep(s.data, e.packet.id, e.packet.codes).0;
      SubAckTable(s.data, ops, e.packet.id, e.packet.codes);
    } else if e.packet.UnsubAckMsg? {
      assert d' == UnsubAckStep(s.data, e.packet.id).0;
      UnsubAckTable(s.data, ops, e.packet.id);
    } else {
      assert more == [] && ops + more == ops;
      FlowFrame(s.data, e.packet, e.remove, e.append);
      SameTable(s.data, d', ops);
    }
  }

  lemma QuietInbound(s: State, p: Message, remove: RemoveResult, append: AppendResult, ok: bool)
    requires !(Active(s.status) && IsFlow(p))
    ensures var d' := HandleInbound(s, p, remove, append, ok).0.data;
      d'.subscriptions == s.data.subscriptions && |s.data.streams| <= |d'.streams|
  {
    if p.PublishMsg? { PublishFrame(s.data, p); }
  }

  lemma OtherTable(s: State, e: Event)
    requires !(e.Inbound? && Active(s.status) && IsFlow(e.packet))
    ensures Handle(s, e).0.data.subscriptions == s.data.subscriptions
    ensures |s.data.streams| <= |Handle(s, e).0.data.streams|
  {
    if e.Inbound? {
      QuietInbound(s, e.packet, e.remove, e.append, e.sendOk);
    } else if e.ClientEvent? {
      RequestFrame(NewCaller(s.data).0, e.request, s.data.callers);
    }
  }

  // ------------------------------------------------------------ what a subscriber is told

  function Shorter(a: nat, b: nat): nat { if a < b then a else b }

  /** The topic is accepted at `i` and not again later. */
  predicate LastAccepted(subs: seq<(string, QualityOfService)>, codes: seq<SubAckReturnCode>, i: nat)
    requires i < |subs| && i < |codes|
  {
    && codes[i].IsOk()
    && forall j | i < j < |subs| && j < |codes| :: subs[j].0 == subs[i].0 ==> !codes[j].IsOk()
  }

  /** The result for the filter at `i`: a rejection, or the channel of its own that is then in the table. */
  predicate TellsRight(d: Data, d': Data, subs: seq<(string, QualityOfService)>, codes: seq<SubAckReturnCode>, i: nat, r: SubResult)
    requires i < |subs| && i < |codes|
  {
    if !codes[i].IsOk() then r == Rejected(subs[i].0, subs[i].1)
    else
      && r.Stream? && r.qos == subs[i].1
      && |d.streams| <= r.id < |d'.streams|
      && (LastAccepted(subs, codes, i) ==> subs[i].0 in d'.subscriptions && d'.subscriptions[subs[i].0].1 == r.id)
  }

  /** Topics that are not accepted keep their entries. */
  lemma {:induction false} SubAckLoopKeeps(d: Data, subs: seq<(string, QualityOfService)>, codes: seq<SubAckReturnCode>,
                                          done: seq<SubResult>, topic: string)
    requires topic in d.subscriptions
    requires forall j | 0 <= j < |subs| && j < |codes| :: subs[j].0 == topic ==> !codes[j].IsOk()
    ensures var d' := SubAckLoop(d, subs, codes, done).0;
      topic in d'.subscriptions && d'.subscriptions[topic] == d.subscriptions[topic]
    decreases |subs|
  {
    if subs != [] && codes != [] {
      var (t, qos) := subs[0];
      var rx, f := |d.streams|, Compile(t);
      forall j | 0 <= j < |subs[1..]| && j < |codes[1..]| && subs[1..][j].0 == topic ensures !codes[1..][j].IsOk() {
        assert subs[j + 1].0 == topic;
      }
      if !codes[0].IsOk() {
        SubAckLoopKeeps(d, subs[1..], codes[1..], done + [Rejected(t, qos)], topic);
      } else if f.Some? {
        var d1 := d.(streams := d.streams + [[]]);
        SubAckLoopKeeps(d1.(subscriptions := d1.subscriptions[t := (f.value, rx)]), subs[1..], codes[1..],
          done + [Stream(rx, qos)], topic);
      }
    }
  }

  predicate AllTold(d: Data, d': Data, subs: seq<(string, QualityOfService)>, codes: seq<SubAckReturnCode>, results: seq<SubResult>) {
    && |results| == Shorter(|subs|, |codes|)
    && forall i: nat | i < |results| :: TellsRight(d, d', subs, codes, i, results[i])
  }

  lemma {:induction false} SubAckLoopTells(d: Data, subs: seq<(string, QualityOfService)>, codes: seq<SubAckReturnCode>,
                                          done: seq<SubResult>)
    requires SubAckLoop(d, subs, codes, done).1.Some?
    ensures var (d', r) := SubAckLoop(d, subs, codes, done);
      done <= r.value && AllTold(d, d', subs, codes, r.value[|done|..])
    decreases |subs|
  {
    if subs != [] && codes != [] {
      var (topic, qos) := subs[0];
      var (d', r) := SubAckLoop(d, subs, codes, done);
      var rx := |d.streams|;
      var first := if codes[0].IsOk() then Stream(rx, qos) else Rejected(topic, qos);
      var d1 := if codes[0].IsOk()
        then d.(streams := d.streams + [[]], subscriptions := d.subscriptions[topic := (Compile(topic).value, rx)]) else d;
      assert (d', r) == SubAckLoop(d1, subs[1..], codes[1..], done + [first]);
      SubAckLoopTells(d1, subs[1..], codes[1..], done + [first]);
      SubAckLoopFrame(d1, subs[1..], codes[1..], done + [first]);
      var rest := r.value[|done| + 1..];
      assert r.value[|done|..] == [first] + rest;
      FirstTold(d, d1, d', subs, codes, done + [first], first);
      LaterTold(d, d1, d', subs, codes, first, rest);
    }
  }

  lemma FirstTold(d: Data, d1: Data, d': Data, subs: seq<(string, QualityOfService)>, codes: seq<SubAckReturnCode>,
                  done: seq<SubResult>, first: SubResult)
    requires subs != [] && codes != [] && d' == SubAckLoop(d1, subs[1..], codes[1..], done).0
    requires if codes[0].IsOk() then first == Stream(|d.streams|, subs[0].1) else first == Rejected(subs[0].0, subs[0].1)
    requires |d1.streams| <= |d'.streams|
    requires codes[0].IsOk() ==>
      |d1.streams| > |d.streams| && subs[0].0 in d1.subscriptions && d1.subscriptions[subs[0].0].1 == |d.streams|
    ensures TellsRight(d, d', subs, codes, 0, first)
  {
    if LastAccepted(subs, codes, 0) {
      forall j | 0 <= j < |subs[1..]| && j < |codes[1..]| && subs[1..][j].0 == subs[0].0 ensures !codes[1..][j].IsOk() {
        assert subs[j + 1].0 == subs[0].0;
      }
      SubAckLoopKeeps(d1, subs[1..], codes[1..], done, subs[0].0);
    }
  }

  lemma LaterTold(d: Data, d1: Data, d': Data, subs: seq<(string, QualityOfService)>, codes: seq<SubAckReturnCode>,
                  first: SubResult, rest: seq<SubResult>)
    requires subs != [] && codes != [] && |d.streams| <= |d1.streams|
    requires TellsRight(d, d', subs, codes, 0, first) && AllTold(d1, d', subs[1..], codes[1..], rest)
    ensures AllTold(d, d', subs, codes, [first] + rest)
  {
    forall i: nat | i < |[first] + rest| ensures TellsRight(d, d', subs, codes, i, ([first] + rest)[i]) {
      if i > 0 { TellsLater(d, d1, d', subs, codes, i, rest[i - 1]); }
    }
  }

  lemma TellsLater(d: Data, d1: Data, d': Data, subs: seq<(string, QualityOfService)>, codes: seq<SubAckReturnCode>, i: nat, r: SubResult)
    requires 0 < i < |subs| && i < |codes| && |d.streams| <= |d1.streams|
    requires TellsRight(d1, d', subs[1..], codes[1..], i - 1, r)
    ensures TellsRight(d, d', subs, codes, i, r)
  {
    if LastAccepted(subs, codes, i) {
      forall j | i - 1 < j < |subs[1..]| && j < |codes[1..]| && subs[1..][j].0 == subs[1..][i - 1].0 ensures !codes[1..][j].IsOk() {
        assert subs[j + 1].0 == subs[i].0;
      }
    }
  }

  /** A subscriber is told, filter by filter, of a rejection or of the channel that the table has for it. */
  lemma SubAckTells(d: Data, id: u16, codes: seq<SubAckReturnCode>)
    requires SubscribeKey(id) in d.oneTime && d.oneTime[SubscribeKey(id)].0.SubscribeMsg? && SubAckStep(d, id, codes).1.Send?
    ensures var d', (orig, c) := SubAckStep(d, id, codes).0, d.oneTime[SubscribeKey(id)];
      exists results :: d'.replies == d.replies + [(c, Ongoing(results))] && AllTold(d, d', orig.subs, codes, results)
  {
    var d1, subs := d.(oneTime := d.oneTime - {SubscribeKey(id)}), d.oneTime[SubscribeKey(id)].0.subs;
    SubAckLoopFrame(d1, subs, codes, []);
    SubAckLoopTells(d1, subs, codes, []);
  }

  // ------------------------------------------------------------ filters that do not compile

  /** A filter with a good code does not compile. */
  predicate SomeBad(subs: seq<(string, QualityOfService)>, codes: seq<SubAckReturnCode>) {
    exists i | 0 <= i < |subs| && i < |codes| :: codes[i].IsOk() && Compile(subs[i].0).None?
  }

  lemma SomeBadStep(subs: seq<(string, QualityOfService)>, codes: seq<SubAckReturnCode>)
    requires subs != [] && codes != []
    ensures SomeBad(subs, codes) <==> (codes[0].IsOk() && Compile(subs[0].0).None?) || SomeBad(subs[1..], codes[1..])
  {
    if i :| 0 <= i < |subs| && i < |codes| && codes[i].IsOk() && Compile(subs[i].0).None? {
      if i > 0 { assert codes[1..][i - 1].IsOk() && Compile(subs[1..][i - 1].0).None?; }
    }
    if i :| 0 <= i < |subs[1..]| && i < |codes[1..]| && codes[1..][i].IsOk() && Compile(subs[1..][i].0).None? {
      assert codes[i + 1].IsOk() && Compile(subs[i + 1].0).None?;
    }
  }

  lemma {:induction false} SubAckLoopFailsIff(d: Data, subs: seq<(string, QualityOfService)>,
                                             codes: seq<SubAckReturnCode>, done: seq<SubResult>)
    ensures SubAckLoop(d, subs, codes, done).1.None? <==> SomeBad(subs, codes)
    decreases |subs|
  {
    if subs != [] && codes != [] {
      SomeBadStep(subs, codes);
      var (topic, qos) := subs[0];
      var rx, f := |d.streams|, Compile(topic);
      if !codes[0].IsOk() {
        SubAckLoopFailsIff(d, subs[1..], codes[1..], done + [Rejected(topic, qos)]);
      } else if f.Some? {
        var d1 := d.(streams := d.streams + [[]]);
        SubAckLoopFailsIff(d1.(subscriptions := d1.subscriptions[topic := (f.value, rx)]), subs[1..], codes[1..],
          done + [Stream(rx, qos)]);
      }
    }
  }

  /**
   A SUBACK fails exactly if a filter that it accepts does not compile. Then its caller is dropped,
   while the filters before that one are in the table.
   */
  lemma SubAckFailsIff(s: State, ops: seq<Op>, id: u16, codes: seq<SubAckReturnCode>, s': State, c: Caller)
    requires OnePlace(s) && TableIs(s.data, ops) && At(s, InOneTime(SubscribeKey(id)), c)
    requires s.data.oneTime[SubscribeKey(id)].0.SubscribeMsg? && s' == s.(data := SubAckStep(s.data, id, codes).0)
    ensures var r := SubAckStep(s.data, id, codes).1; var bad := SomeBad(s.data.oneTime[SubscribeKey(id)].0.subs, codes);
      && r == (if bad then Err(InvalidTopicFilter) else Send(None))
      && (bad <==> forall p: Place :: !At(s', p, c))
    ensures TableIs(s'.data, ops + AckedOps(s.data.oneTime[SubscribeKey(id)].0.subs, codes))
  {
    var d, key := s.data, SubscribeKey(id);
    var subs := d.oneTime[key].0.subs;
    SubAckLoopFailsIff(d.(oneTime := d.oneTime - {key}), subs, codes, []);
    SubAckTable(d, ops, id, codes);
    SubAckFrame(d, id, codes);
    if SomeBad(subs, codes) {
      SubAckDrops(s, id, codes, c);
    } else {
      SubAckAnswers(s, id, codes, c);
    }
  }

  lemma SubAckReplies(d: Data, id: u16, codes: seq<SubAckReturnCode>)
    requires SubscribeKey(id) in d.oneTime && d.oneTime[SubscribeKey(id)].0.SubscribeMsg?
    ensures var (d', r) := SubAckStep(d, id, codes);
      if r.Err? then d'.replies == d.replies
      else r == Send(None) && exists a :: d'.replies == d.replies + [(d.oneTime[SubscribeKey(id)].1, a)]
  {
    SubAckLoopFrame(d.(oneTime := d.oneTime - {SubscribeKey(id)}), d.oneTime[SubscribeKey(id)].0.subs, codes, []);
  }

  lemma SubAckDrops(s: State, id: u16, codes: seq<SubAckReturnCode>, c: Caller)
    requires OnePlace(s) && At(s, InOneTime(SubscribeKey(id)), c)
    requires s.data.oneTime[SubscribeKey(id)].0.SubscribeMsg? && SubAckStep(s.data, id, codes).1.Err?
    ensures forall p: Place :: !At(s.(data := SubAckStep(s.data, id, codes).0), p, c)
  {
    var d' := SubAckStep(s.data, id, codes).0;
    SubAckFrame(s.data, id, codes);
    SubAckReplies(s.data, id, codes);
    forall p: Place ensures !At(s.(data := d'), p, c) {
      if p != InOneTime(SubscribeKey(id)) && At(s.(data := d'), p, c) { assert At(s, p, c); }
    }
  }

  lemma SubAckAnswers(s: State, id: u16, codes: seq<SubAckReturnCode>, c: Caller)
    requires At(s, InOneTime(SubscribeKey(id)), c)
    requires s.data.oneTime[SubscribeKey(id)].0.SubscribeMsg? && SubAckStep(s.data, id, codes).1.Send?
    ensures exists p: Place :: At(s.(data := SubAckStep(s.data, id, codes).0), p, c)
  {
    SubAckReplies(s.data, id, codes);
    assert At(s.(data := SubAckStep(s.data, id, codes).0), Answered(|s.data.replies|), c);
  }

  // ------------------------------------------------------------ main results

  /**
   In every reachable state a topic is in the table if and only if the last acknowledged
   operation on it was a subscribe that was not rejected, its filter is its own compilation,
   and no two subscriptions share a channel.
   */
  lemma {:induction false} TableHolds(status: Option<LoopStatus>, es: seq<Event>)
    ensures TableIs(After(State(status, NEW_DATA), es).data, History(State(status, NEW_DATA), es))
    decreases |es|
  {
    var s := State(status, NEW_DATA);
    if es != [] {
      TableHolds(status, Front(es));
      OutstandingHolds(status, Front(es));
      var t, e := After(s, Front(es)), Last(es);
      var ops := History(s, Front(es));
      if e.Inbound? && Active(t.status) && IsFlow(e.packet) {
        FlowEvent(t, e);
        FlowTable(t, e, ops);
      } else {
        OtherTable(t, e);
        assert ops + [] == ops;
        SameTable(t.data, Handle(t, e).0.data, ops);
      }
    }
  }

  /**
   How a filter text reads: level by level, the level before a final `#` by its beginning, and what
   is behind that on one line.
   */
  predicate TextMatches(filter: string, topic: string) {
    if '#' !in filter then LevelWalk(Split(filter), Split(topic))
    else if filter == "#" then true
    else |Split(filter)| >= 2 && HashWalk(Split(filter), topic)
  }

  lemma CompiledTextMatches(filter: string, f: TopicFilter, topic: string)
    requires Compile(filter) == Some(f)
    requires !BreakAfterHash(filter)
    ensures f.MatchTopic(topic) <==> TextMatches(filter, topic)
  {
    if '#' !in filter {
      MatchIsLevelWalk(filter, f, topic);
    } else if filter == "#" {
      HashMatchesAll(topic);
    } else {
      MatchIsMultiLevelWalk(filter, f, topic);
    }
  }

  /** A dispatched message reaches a subscription exactly if the text of its filter matches. */
  lemma DispatchReaches(status: Option<LoopStatus>, es: seq<Event>, filter: string, topic: string)
    requires filter in After(State(status, NEW_DATA), es).data.subscriptions
    requires !BreakAfterHash(filter)
    ensures var d := After(State(status, NEW_DATA), es).data;
      Listens(d, d.subscriptions[filter].1, topic) <==> TextMatches(filter, topic)
  {
    TableHolds(status, es);
    var d := After(State(status, NEW_DATA), es).data;
    var (f, s) := d.subscriptions[filter];
    CompiledTextMatches(filter, f, topic);
    if k :| k in d.subscriptions && d.subscriptions[k].1 == s && d.subscriptions[k].0.MatchTopic(topic) {
      assert k == filter;
    }
  }
}
