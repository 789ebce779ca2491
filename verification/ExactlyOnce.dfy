/** Messages from the server: QoS 2 publishes are dispatched exactly once. */
module ExactlyOnce {
  import opened Prelude
  import opened Packets
  import opened TopicFilters
  import opened LoopModel
  import opened Subscriptions

  /** A QoS 2 publish with identifier `id` that the loop takes in. */
  predicate TakesPublish(s: State, e: Event, id: u16) {
    && s.status == Some(Connected) && e.Inbound? && e.packet.PublishMsg?
    && e.packet.qos == QoS2 && e.packet.id == id && id !in s.data.serverPublishState
  }

  /** A PUBREL for `id` that the loop acts on. */
  predicate TakesRelease(s: State, e: Event, id: u16) {
    && Active(s.status) && e.Inbound? && e.packet == PubRelMsg(id) && id in s.data.serverPublishState
  }

  function Taken(s: State, es: seq<Event>, id: u16): nat
    decreases |es|
  {
    if es == [] then 0
    else Taken(s, Front(es), id) + (if TakesPublish(After(s, Front(es)), Last(es), id) then 1 else 0)
  }

  function Released(s: State, es: seq<Event>, id: u16): nat
    decreases |es|
  {
    if es == [] then 0
    else Released(s, Front(es), id) + (if TakesRelease(After(s, Front(es)), Last(es), id) then 1 else 0)
  }

  /** The latest publish taken in with this identifier. */
  function Latest(s: State, es: seq<Event>, id: u16): Option<Message>
    decreases |es|
  {
    if es == [] then None
    else if TakesPublish(After(s, Front(es)), Last(es), id) then Some(Last(es).packet)
    else Latest(s, Front(es), id)
  }

  /** What is held under an identifier is a received publish. */
  predicate Holds(d: Data, id: u16, m: Message) {
    id in d.serverPublishState && d.serverPublishState[id] == Received(m)
  }

  /** No other packet of a flow changes what is held or puts anything on a channel. */
  lemma FlowHolds(d: Data, p: Message, remove: RemoveResult, append: AppendResult)
    requires p.PubRelMsg? ==> p.id !in d.serverPublishState
    ensures var d' := FlowStep(d, p, remove, append).0;
      && d'.serverPublishState == d.serverPublishState && d.streams <= d'.streams
      && forall i | |d.streams| <= i < |d'.streams| :: d'.streams[i] == []
  {
    match p
    case PubAckMsg(id) => AckFrame(d, id, remove);
    case PubRecMsg(id) => RecFrame(d, id, remove, append);
    case PubCompMsg(id) => CompFrame(d, id, remove);
    case SubAckMsg(id, codes) => SubAckFrame(d, id, codes);
    case _ =>
  }

  /** Only taking in a publish and releasing it touch what is held. */
  lemma HeldStep(s: State, e: Event, id: u16)
    ensures TakesPublish(s, e, id) ==> Holds(Handle(s, e).0.data, id, e.packet)
    ensures TakesRelease(s, e, id) ==> id !in Handle(s, e).0.data.serverPublishState
    ensures !TakesPublish(s, e, id) && !TakesRelease(s, e, id) ==> SameHeld(s.data, Handle(s, e).0.data, id)
  {
    if e.Inbound? {
      if Active(s.status) && IsFlow(e.packet) {
        FlowEvent(s, e);
        if e.packet != PubRelMsg(id) { FlowHeld(s.data, e.packet, e.remove, e.append, id); }
      } else if e.packet.PublishMsg? && s.status == Some(Connected) {
        PublishHeld(s.data, e.packet, id);
      }
    } else if e.ClientEvent? {
      RequestFrame(NewCaller(s.data).0, e.request, s.data.callers);
    }
  }

  predicate SameHeld(d: Data, d': Data, id: u16) {
    && (id in d'.serverPublishState <==> id in d.serverPublishState)
    && (id in d.serverPublishState ==> d'.serverPublishState[id] == d.serverPublishState[id])
  }

  lemma FlowHeld(d: Data, p: Message, remove: RemoveResult, append: AppendResult, id: u16)
    requires p != PubRelMsg(id)
    ensures SameHeld(d, FlowStep(d, p, remove, append).0, id)
  {
    if !p.PubRelMsg? { FlowHolds(d, p, remove, append); }
  }

  lemma PublishHeld(d: Data, p: Message, id: u16)
    requires p.PublishMsg?
    ensures var d' := PublishStep(d, p).0;
      if p.qos == QoS2 && p.id == id && id !in d.serverPublishState then Holds(d', id, p) else SameHeld(d, d', id)
  {
  }

  /** Held is exactly what was taken in and not yet released, and it is the latest. */
  lemma {:induction false} TakenAndReleased(status: Option<LoopStatus>, es: seq<Event>, id: u16)
    ensures var s := State(status, NEW_DATA); var d := After(s, es).data;
      && Taken(s, es, id) == Released(s, es, id) + (if id in d.serverPublishState then 1 else 0)
      && (id in d.serverPublishState ==>
        Latest(s, es, id).Some? && Holds(d, id, Latest(s, es, id).value) && Latest(s, es, id).value.PublishMsg?)
    decreases |es|
  {
    if es != [] {
      TakenAndReleased(status, Front(es), id);
      HeldStep(After(State(status, NEW_DATA), Front(es)), Last(es), id);
    }
  }

  /** One copy of the item went to every channel that listens, and nothing to any other. */
  ghost predicate DeliveredOnce(d: Data, d': Data, topic: string, payload: Bytes) {
    && |d'.streams| == |d.streams|
    && forall s: StreamId | s < |d.streams| ::
      d'.streams[s] == if Listens(d, s, topic) then d.streams[s] + [SubItem(topic, payload)] else d.streams[s]
  }

  /**
   Every PUBREL that the loop acts on dispatches the latest publish taken in under its
   identifier, once to each subscription that matches then and to no other, and is answered
   by a PUBCOMP.
   */
  lemma ReleaseDelivers(status: Option<LoopStatus>, es: seq<Event>, e: Event, id: u16)
    requires TakesRelease(After(State(status, NEW_DATA), es), e, id)
    ensures var s := State(status, NEW_DATA); var t := After(s, es); var m := Latest(s, es, id);
      && m.Some? && m.value.PublishMsg?
      && DeliveredOnce(t.data, Handle(t, e).0.data, m.value.topic, m.value.payload)
      && Handle(t, e).1 == Conclude(Send(Some(PubCompMsg(id))), Empty, e.sendOk)
  {
    TakenAndReleased(status, es, id);
    FlowEvent(After(State(status, NEW_DATA), es), e);
  }

  /** The events that dispatch: a QoS 0 or 1 publish, and a PUBREL the loop acts on. */
  predicate Dispatches(s: State, e: Event) {
    && e.Inbound?
    && ((s.status == Some(Connected) && e.packet.PublishMsg? && e.packet.qos != QoS2)
        || (e.packet.PubRelMsg? && TakesRelease(s, e, e.packet.id)))
  }

  lemma QuietStreams(s: State, p: Message, remove: RemoveResult, append: AppendResult, ok: bool)
    requires !(Active(s.status) && IsFlow(p)) && !(s.status == Some(Connected) && p.PublishMsg? && p.qos != QoS2)
    ensures var d' := HandleInbound(s, p, remove, append, ok).0.data;
      d'.streams == s.data.streams || d'.streams == s.data.streams + [[]]
  {
  }

  /** Nothing else puts anything on a channel. */
  lemma OnlyDispatchDelivers(s: State, e: Event)
    requires !Dispatches(s, e)
    ensures s.data.streams <= Handle(s, e).0.data.streams
    ensures forall i | |s.data.streams| <= i < |Handle(s, e).0.data.streams| :: Handle(s, e).0.data.streams[i] == []
  {
    if e.Inbound? {
      if Active(s.status) && IsFlow(e.packet) {
        FlowEvent(s, e);
        FlowHolds(s.data, e.packet, e.remove, e.append);
      } else {
        QuietStreams(s, e.packet, e.remove, e.append, e.sendOk);
      }
    } else if e.ClientEvent? {
      RequestFrame(NewCaller(s.data).0, e.request, s.data.callers);
    }
  }

  /** What the event dispatches: its own publish, or the latest taken in under its identifier. */
  function ItemOf(s: State, es: seq<Event>, e: Event): SubItem
    requires Dispatches(After(s, es), e)
  {
    if e.packet.PublishMsg? then SubItem(e.packet.topic, e.packet.payload)
    else match Latest(s, es, e.packet.id)
      case Some(PublishMsg(_, _, _, topic, payload)) => SubItem(topic, payload)
      case _ => SubItem("", [])
  }

  lemma PublishDelivers(s: State, e: Event)
    requires Dispatches(s, e) && e.packet.PublishMsg?
    ensures DeliveredOnce(s.data, Handle(s, e).0.data, e.packet.topic, e.packet.payload)
  {
  }

  /**
   In every reachable state a dispatch puts its item once on the channel of each subscription
   whose filter text matches, and leaves the channels of the others as they were.
   */
  lemma DispatchByText(status: Option<LoopStatus>, es: seq<Event>, t: State, e: Event, filter: string)
    requires t == After(State(status, NEW_DATA), es) && Dispatches(t, e) && filter in t.data.subscriptions
    requires !BreakAfterHash(filter)
    ensures var item := ItemOf(State(status, NEW_DATA), es, e);
      var tx, d' := t.data.subscriptions[filter].1, Handle(t, e).0.data;
      && tx < |t.data.streams| && |d'.streams| == |t.data.streams|
      && d'.streams[tx] == t.data.streams[tx] + (if TextMatches(filter, item.topic) then [item] else [])
  {
    var item := ItemOf(State(status, NEW_DATA), es, e);
    if e.packet.PublishMsg? { PublishDelivers(t, e); } else { ReleaseDelivers(status, es, e, e.packet.id); }
    TableHolds(status, es);
    DispatchReaches(status, es, filter, item.topic);
  }
}
