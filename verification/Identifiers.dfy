/** Packet identifiers: how long they stay distinct, and what a collision costs. */
module Identifiers {
  import opened Prelude
  import opened Packets
  import opened LoopModel
  import opened Replies
  import opened Fate
  import opened System
  import opened SessionRuns
  import Wire

  /** Every identifier in use was handed out before. */
  predicate InUseBelow(d: Data) {
    && (forall id | id in d.clientPublishState :: id < d.nextPacketId)
    && (forall key | key in d.oneTime :: key.id < d.nextPacketId)
  }

  lemma FlowIds(d: Data, p: Message, remove: RemoveResult, append: AppendResult)
    ensures var d' := FlowStep(d, p, remove, append).0;
      && d'.nextPacketId == d.nextPacketId
      && d'.clientPublishState.Keys <= d.clientPublishState.Keys && d'.oneTime.Keys <= d.oneTime.Keys
  {
    match p
    case PubAckMsg(id) => AckFrame(d, id, remove);
    case PubRecMsg(id) => RecFrame(d, id, remove, append);
    case PubCompMsg(id) => CompFrame(d, id, remove);
    case PubRelMsg(id) => PubRelFrame(d, id);
    case SubAckMsg(id, codes) => SubAckFrame(d, id, codes);
    case _ =>
  }

  /** At most the next identifier is new, and then it is used up. */
  predicate TakesNext(d: Data, d': Data) {
    || (d'.nextPacketId == d.nextPacketId && d'.clientPublishState == d.clientPublishState && d'.oneTime == d.oneTime)
    || (d'.nextPacketId == d.nextPacketId + 1
        && (forall id | id in d'.clientPublishState :: id in d.clientPublishState || id == NextId(d))
        && (forall key | key in d'.oneTime :: key in d.oneTime || key.id == NextId(d)))
  }

  lemma RequestIds(d: Data, r: Request, c: Caller)
    ensures TakesNext(d, RequestStep(d, r, c).0)
  {
  }

  lemma TakingKeeps(d: Data, d': Data)
    requires TakesNext(d, d')
    ensures d.nextPacketId <= d'.nextPacketId
    ensures InUseBelow(d) && d'.nextPacketId <= 0x1_0000 ==> InUseBelow(d')
  {
  }

  lemma InUseStep(s: State, e: Event)
    ensures var d' := Handle(s, e).0.data;
      && s.data.nextPacketId <= d'.nextPacketId
      && (InUseBelow(s.data) && d'.nextPacketId <= 0x1_0000 ==> InUseBelow(d'))
  {
    if e.Inbound? {
      if Active(s.status) && IsFlow(e.packet) {
        FlowEvent(s, e);
        FlowIds(s.data, e.packet, e.remove, e.append);
      } else if e.packet.PublishMsg? {
        PublishFrame(s.data, e.packet);
      }
    } else if e.ClientEvent? {
      var d := NewCaller(s.data).0;
      RequestIds(d, e.request, s.data.callers);
      TakingKeeps(d, RequestStep(d, e.request, s.data.callers).0);
    }
  }

  lemma {:induction false} InUseHolds(status: Option<LoopStatus>, es: seq<Event>)
    requires After(State(status, NEW_DATA), es).data.nextPacketId <= 0x1_0000
    ensures InUseBelow(After(State(status, NEW_DATA), es).data)
    decreases |es|
  {
    if es != [] {
      InUseStep(After(State(status, NEW_DATA), Front(es)), Last(es));
      InUseHolds(status, Front(es));
    }
  }

  lemma FreeWhenFew(d: Data)
    requires InUseBelow(d) && d.nextPacketId < 0x1_0000
    ensures FreeId(d)
  {
  }

  /** As long as fewer than 65536 identifiers were handed out, they never collide. */
  lemma {:induction false} FewIdsAreDistinct(status: Option<LoopStatus>, es: seq<Event>)
    requires After(State(status, NEW_DATA), es).data.nextPacketId < 0x1_0000
    ensures FreeId(After(State(status, NEW_DATA), es).data)
    ensures DistinctRun(State(status, NEW_DATA), es)
    decreases |es|
  {
    InUseHolds(status, es);
    FreeWhenFew(After(State(status, NEW_DATA), es).data);
    if es != [] {
      assert After(State(status, NEW_DATA), Front(es)).data.nextPacketId < 0x1_0000 by {
        InUseStep(After(State(status, NEW_DATA), Front(es)), Last(es));
      }
      FewIdsAreDistinct(status, Front(es));
    }
  }

  /** In session, too, the next identifier is then free. */
  lemma FewIdsInSession(clean: bool, es: seq<SysEvent>, s: Sys)
    requires RunTo(clean, es) == Some(s) && s.client.data.nextPacketId < 0x1_0000
    ensures FreeId(s.client.data)
  {
    ClientRuns(clean, es);
    FewIdsAreDistinct(None, ClientRun(clean, es));
  }

  /** The place that a request gives its caller under a new identifier. */
  function PlaceFor(s: State, e: Event): Option<Place> {
    if !e.ClientEvent? || s.status != Some(Connected) then None
    else match e.request
      case SubscribeRequest(subs) =>
        if exists i | 0 <= i < |subs| :: !FitsMqttString(subs[i].0) then None
        else Some(InOneTime(SubscribeKey(NextId(s.data))))
      case UnsubscribeRequest(topics) =>
        if exists i | 0 <= i < |topics| :: !FitsMqttString(topics[i]) then None
        else Some(InOneTime(UnsubscribeKey(NextId(s.data))))
      case PublishRequest(qos, _, _, _, append) =>
        if qos == QoS0 || append.AppendFailed? then None else Some(InPublish(NextId(s.data)))
      case PingRequest => None
  }

  /** The identifier is that of a publish in flight, or of an unanswered request of the same kind. */
  predicate Occupied(d: Data, p: Place) {
    (p.InPublish? && p.id in d.clientPublishState) || (p.InOneTime? && p.key in d.oneTime)
  }

  lemma PlacesAfter(s: State, e: Event, p: Place, c: Caller)
    requires PlaceFor(s, e).Some?
    ensures At(Handle(s, e).0, p, c) <==> if PlaceFor(s, e) == Some(p) then c == s.data.callers else At(s, p, c)
  {
    if AcceptedBy(s, e) != {} { AcceptedPlaces(s, e, p, c); } else { TablePlaces(s, e, p, c); }
  }

  lemma TablePlaces(s: State, e: Event, p: Place, c: Caller)
    requires PlaceFor(s, e).Some? && !e.request.PublishRequest?
    ensures At(Handle(s, e).0, p, c) <==> if PlaceFor(s, e) == Some(p) then c == s.data.callers else At(s, p, c)
  {
    var d' := Handle(s, e).0.data;
    TablePut(NewCaller(s.data).0, e.request, s.data.callers, d');
    PlacesPut(s, Handle(s, e).0, PlaceFor(s, e).value.key, p, c);
  }

  /** The request goes on the table under its identifier. */
  predicate Puts(d: Data, d': Data, key: OneTimeKey, c: Caller) {
    && key in d'.oneTime && d'.oneTime[key].1 == c && d'.oneTime - {key} == d.oneTime - {key}
    && d' == d.(nextPacketId := d'.nextPacketId, oneTime := d'.oneTime)
  }

  lemma TablePut(d: Data, r: Request, c: Caller, d': Data)
    requires r.SubscribeRequest? || r.UnsubscribeRequest?
    requires d' == RequestStep(d, r, c).0 && RequestStep(d, r, c).1.Send?
    ensures Puts(d, d', if r.SubscribeRequest? then SubscribeKey(NextId(d)) else UnsubscribeKey(NextId(d)), c)
  {
  }

  lemma PlacesPut(s: State, s': State, key: OneTimeKey, p: Place, c: Caller)
    requires s'.status == s.status && Puts(NewCaller(s.data).0, s'.data, key, s.data.callers)
    ensures At(s', p, c) <==> if p == InOneTime(key) then c == s.data.callers else At(s, p, c)
  {
    if p.InOneTime? && p.key != key {
      assert p.key in s'.data.oneTime <==> p.key in s'.data.oneTime - {key};
      assert p.key in s.data.oneTime <==> p.key in s.data.oneTime - {key};
    }
  }

  lemma OccupantOf(s: State, p: Place) returns (c: Caller)
    requires Awaited(s.data) && Occupied(s.data, p)
    ensures At(s, p, c)
  {
    c := if p.InPublish? then s.data.clientPublishState[p.id].sender.value else s.data.oneTime[p.key].1;
  }

  /**
   A request that takes an identifier loses a caller for good, neither answered nor waiting, if
   and only if the identifier is in use for a request of its kind.
   */
  lemma CollisionLosesCaller(s: State, e: Event)
    requires OnePlace(s) && Awaited(s.data) && PlaceFor(s, e).Some?
    ensures (exists c :: Somewhere(s, c) && !Somewhere(Handle(s, e).0, c)) <==> Occupied(s.data, PlaceFor(s, e).value)
  {
    var p, s' := PlaceFor(s, e).value, Handle(s, e).0;
    if Occupied(s.data, p) {
      var c := OccupantOf(s, p);
      forall q: Place ensures !At(s', q, c) { PlacesAfter(s, e, q, c); }
      assert Somewhere(s, c) && !Somewhere(s', c);
    } else {
      forall c | Somewhere(s, c) ensures Somewhere(s', c) {
        var q :| At(s, q, c);
        PlacesAfter(s, e, q, c);
      }
    }
  }

  /** So it is in every run: every caller has one place, and every flight a caller. */
  lemma CollisionInRuns(es: seq<Event>, s: State, e: Event)
    requires s == After(UNCONNECTED, es) && PlaceFor(s, e).Some?
    ensures (exists c :: Somewhere(s, c) && !Somewhere(Handle(s, e).0, c)) <==> Occupied(s.data, PlaceFor(s, e).value)
  {
    AccountsHold(es);
    CollisionLosesCaller(s, e);
  }

  /** The first identifier that a client hands out in a session is 0. */
  lemma FirstIsZero(clean: bool, subs: seq<(string, QualityOfService)>)
    requires forall i | 0 <= i < |subs| :: FitsMqttString(subs[i].0)
    ensures Handle(Start(clean).client, ClientEvent(SubscribeRequest(subs), true)).1.sent == Some(SubscribeMsg(0, subs))
  {
    OpeningConnects(clean);
  }

  /** So its first SUBSCRIBE, whatever it asks for, is one that section 3.8 of MQTT 3.1.1 refuses. */
  lemma FirstSubscribeRefused(clean: bool, subs: seq<(string, QualityOfService)>, encoded: seq<(MqttString, QualityOfService)>)
    requires forall i | 0 <= i < |subs| :: FitsMqttString(subs[i].0)
    ensures var sent := Handle(Start(clean).client, ClientEvent(SubscribeRequest(subs), true)).1.sent;
      && sent.Some? && sent.value.SubscribeMsg?
      && var bytes := Encoded(SubscribePacket(sent.value.id, encoded));
         bytes.Some? ==> Wire.ReadSubscribe(bytes.value) == None
  {
    FirstIsZero(clean, subs);
    if Encoded(SubscribePacket(0, encoded)).Some? { Wire.SubscribeRoundTrip(0, encoded); }
  }
}
