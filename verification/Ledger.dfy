/** The persistence store as a ledger of the publishes in flight. */
module Ledger {
  import opened Prelude
  import opened Packets
  import opened LoopModel

  /** What the store holds for a publish in flight. */
  predicate Booked(d: Data, id: u16)
    requires id in d.clientPublishState
  {
    var st := d.clientPublishState[id];
    && !st.Received?
    && st.key in d.persistence
    && var m := d.persistence[st.key];
       if st.Sent? then m.PublishMsg? && m.id == id && m.qos != QoS0 else m == PubRelMsg(id)
  }

  /** The key of an entry in flight. */
  predicate HasKey(d: Data, id: u16, k: Key) {
    id in d.clientPublishState && !d.clientPublishState[id].Received? && d.clientPublishState[id].key == k
  }

  /** Every publish in flight is booked under a key of its own. */
  ghost predicate Balanced(d: Data) {
    && (forall id | id in d.clientPublishState :: Booked(d, id))
    && (forall i, j, k :: HasKey(d, i, k) && HasKey(d, j, k) ==> i == j)
  }

  /** The store holds nothing else. */
  ghost predicate Exact(d: Data) {
    forall k | k in d.persistence :: exists id :: HasKey(d, id, k)
  }

  predicate StoreSucceeds(e: Event) {
    match e
    case ClientEvent(PublishRequest(_, _, _, _, append), _) => append.Appended?
    case Inbound(_, remove, append, _) => remove.Removed? && append.Appended?
    case _ => true
  }

  /** The flights and the store did not change. */
  predicate SameBooks(d: Data, d': Data) {
    d'.clientPublishState == d.clientPublishState && d'.persistence == d.persistence
  }

  lemma SameBooksKeep(d: Data, d': Data)
    requires SameBooks(d, d') && Balanced(d)
    ensures Balanced(d') && (Exact(d) ==> Exact(d'))
  {
    forall id | id in d'.clientPublishState ensures Booked(d', id) { assert Booked(d, id); }
    forall i, j, k | HasKey(d', i, k) && HasKey(d', j, k) ensures i == j {
      assert HasKey(d, i, k) && HasKey(d, j, k);
    }
    if Exact(d) {
      forall k | k in d'.persistence ensures exists id :: HasKey(d', id, k) {
        var id :| HasKey(d, id, k);
        assert HasKey(d', id, k);
      }
    }
  }

  /** A flight ends; its key is in the store no more, or the removal failed. */
  lemma EndFlight(d: Data, d': Data, id: u16, remove: RemoveResult)
    requires Balanced(d) && id in d.clientPublishState
    requires d'.clientPublishState == d.clientPublishState - {id}
    requires d'.persistence == StoreRemove(d, d.clientPublishState[id].key, remove).persistence
    ensures Balanced(d') && (Exact(d) && remove.Removed? ==> Exact(d'))
  {
    var key := d.clientPublishState[id].key;
    assert Booked(d, id) && HasKey(d, id, key);
    forall i | i in d'.clientPublishState ensures Booked(d', i) {
      assert Booked(d, i) && HasKey(d, i, d.clientPublishState[i].key);
    }
    forall i, j, k | HasKey(d', i, k) && HasKey(d', j, k) ensures i == j {
      assert HasKey(d, i, k) && HasKey(d, j, k);
    }
    if Exact(d) && remove.Removed? {
      forall k | k in d'.persistence ensures exists i :: HasKey(d', i, k) {
        var i :| HasKey(d, i, k);
        assert HasKey(d', i, k);
      }
    }
  }

  /** A flight begins or goes on under a fresh key. */
  lemma BookFlight(d: Data, d': Data, id: u16, m: Message, append: AppendResult, st: PublishState)
    requires Balanced(d) && id !in d.clientPublishState && FreshKey(d, append) && append.Appended?
    requires !st.Received? && st.key == append.key
    requires if st.Sent? then m.PublishMsg? && m.id == id && m.qos != QoS0 else m == PubRelMsg(id)
    requires d'.clientPublishState == d.clientPublishState[id := st]
    requires d'.persistence == StoreAppend(d, m, append).persistence
    ensures Balanced(d') && (Exact(d) ==> Exact(d'))
  {
    forall i | i in d'.clientPublishState ensures Booked(d', i) {
      if i != id { assert Booked(d, i); }
    }
    forall i, j, k | HasKey(d', i, k) && HasKey(d', j, k) ensures i == j {
      if i != id { assert HasKey(d, i, k) && Booked(d, i); }
      if j != id { assert HasKey(d, j, k) && Booked(d, j); }
    }
    if Exact(d) {
      forall k | k in d'.persistence ensures exists i :: HasKey(d', i, k) {
        if k == append.key {
          assert HasKey(d', id, k);
        } else {
          var i :| HasKey(d, i, k);
          assert HasKey(d', i, k);
        }
      }
    }
  }

  /** A failed append may leave a stray packet under a fresh key. */
  lemma StrayPacket(d: Data, d': Data, m: Message, append: AppendResult)
    requires Balanced(d) && FreshKey(d, append) && append.AppendFailed?
    requires d'.clientPublishState == d.clientPublishState
    requires d'.persistence == StoreAppend(d, m, append).persistence
    ensures Balanced(d')
  {
    forall i | i in d'.clientPublishState ensures Booked(d', i) { assert Booked(d, i); }
    forall i, j, k | HasKey(d', i, k) && HasKey(d', j, k) ensures i == j {
      assert HasKey(d, i, k) && HasKey(d, j, k);
    }
  }

  lemma AckStep(d: Data, id: u16, remove: RemoveResult)
    requires Balanced(d)
    ensures var (d', r) := PubAckStep(d, id, remove);
      Balanced(d') && (Exact(d) && remove.Removed? && r != Panicked ==> Exact(d'))
  {
    if id in d.clientPublishState {
      assert Booked(d, id);
      var result := if d.clientPublishState[id].Sent? then remove else RemoveFailed(false);
      EndFlight(d, PubAckStep(d, id, remove).0, id, result);
    }
  }

  lemma CompStep(d: Data, id: u16, remove: RemoveResult)
    requires Balanced(d)
    ensures var (d', r) := PubCompStep(d, id, remove);
      Balanced(d') && (Exact(d) && remove.Removed? && r != Panicked ==> Exact(d'))
  {
    if id in d.clientPublishState {
      assert Booked(d, id);
      var result := if d.clientPublishState[id].Released? then remove else RemoveFailed(false);
      EndFlight(d, PubCompStep(d, id, remove).0, id, result);
    }
  }

  /** The PUBREL, if it is stored, gets a key of its own. */
  predicate FreshRelease(d: Data, id: u16, remove: RemoveResult, append: AppendResult) {
    id in d.clientPublishState && d.clientPublishState[id].Sent? ==>
      FreshKey(StoreRemove(d, d.clientPublishState[id].key, remove), append)
  }

  lemma RecStep(d: Data, id: u16, remove: RemoveResult, append: AppendResult)
    requires Balanced(d) && FreshRelease(d, id, remove, append)
    ensures var (d', r) := PubRecStep(d, id, remove, append);
      Balanced(d') && (Exact(d) && remove.Removed? && append.Appended? && r != Panicked ==> Exact(d'))
  {
    if id in d.clientPublishState {
      assert Booked(d, id);
      var st := d.clientPublishState[id];
      var d' := PubRecStep(d, id, remove, append).0;
      var d1 := d.(clientPublishState := d.clientPublishState - {id});
      if !st.Sent? {
        EndFlight(d, d1, id, RemoveFailed(false));
      } else {
        var d2 := StoreRemove(d1, st.key, remove);
        EndFlight(d, d2, id, remove);
        if remove.Removed? {
          if append.Appended? {
            BookFlight(d2, d', id, PubRelMsg(id), append, Released(append.key, st.sender));
          } else {
            StrayPacket(d2, d', PubRelMsg(id), append);
          }
        }
      }
    }
  }

  /** A new publish gets a key and an identifier of its own. */
  predicate FreshPublish(d: Data, r: Request)
    requires r.PublishRequest?
  {
    FreshKey(d, r.append) && (r.qos != QoS0 ==> NextId(d) !in d.clientPublishState)
  }

  /** A new publish is booked. */
  lemma PublishBooked(d: Data, r: Request, c: Caller)
    requires r.PublishRequest? && Balanced(d) && FreshPublish(d, r)
    ensures var d' := ClientPublishStep(d, r, c).0;
      Balanced(d') && (Exact(d) && r.append.Appended? ==> Exact(d'))
  {
    var d' := ClientPublishStep(d, r, c).0;
    if r.qos != QoS0 {
      var id := NextId(d);
      var m := PublishMsg(r.qos, r.retain, id, r.topic, r.payload);
      if r.append.Appended? {
        BookFlight(d, d', id, m, r.append, Sent(r.append.key, Some(c)));
      } else {
        StrayPacket(d, d', m, r.append);
      }
    }
  }

  lemma FlowBooks(d: Data, p: Message, remove: RemoveResult, append: AppendResult)
    requires Balanced(d)
    requires p.PubRecMsg? ==> FreshRelease(d, p.id, remove, append)
    ensures var (d', r) := FlowStep(d, p, remove, append);
      Balanced(d') && (Exact(d) && remove.Removed? && append.Appended? && r != Panicked ==> Exact(d'))
  {
    var d' := FlowStep(d, p, remove, append).0;
    match p
    case PubAckMsg(id) => AckStep(d, id, remove);
    case PubCompMsg(id) => CompStep(d, id, remove);
    case PubRecMsg(id) => RecStep(d, id, remove, append);
    case SubAckMsg(id, codes) =>
      SubAckFrame(d, id, codes);
      SameBooksKeep(d, d');
    case _ => SameBooksKeep(d, d');
  }

  lemma RequestBooks(d: Data, r: Request, c: Caller)
    requires Balanced(d)
    requires r.PublishRequest? ==> FreshPublish(d, r)
    ensures var d' := RequestStep(d, r, c).0;
      Balanced(d') && (Exact(d) && (r.PublishRequest? ==> r.append.Appended?) ==> Exact(d'))
  {
    if r.PublishRequest? { PublishBooked(d, r, c); } else { SameBooksKeep(d, RequestStep(d, r, c).0); }
  }

  lemma InboundBooks(s: State, p: Message, remove: RemoveResult, append: AppendResult, ok: bool)
    requires Balanced(s.data) && FreshAppend(s, Inbound(p, remove, append, ok))
    ensures var (s', o) := HandleInbound(s, p, remove, append, ok);
      && Balanced(s'.data)
      && (Exact(s.data) && remove.Removed? && append.Appended? && o.response != Panic ==> Exact(s'.data))
  {
    if Active(s.status) && (s.status != Some(Connected) || IsFlow(p)) {
      FlowBooks(s.data, p, remove, append);
    } else {
      SameBooksKeep(s.data, HandleInbound(s, p, remove, append, ok).0.data);
    }
  }

  /** One event keeps the ledger, failures and panics included. */
  lemma LedgerStep(s: State, e: Event)
    requires Balanced(s.data) && GoodEvent(s, e)
    ensures Balanced(Handle(s, e).0.data)
    ensures Exact(s.data) && StoreSucceeds(e) && !PacketPanics(s, e) ==> Exact(Handle(s, e).0.data)
  {
    match e
    case ClientEvent(r, ok) =>
      if s.status == Some(Connected) {
        var d0 := NewCaller(s.data).0;
        SameBooksKeep(s.data, d0);
        RequestBooks(d0, r, s.data.callers);
      }
    case Inbound(p, remove, append, ok) => InboundBooks(s, p, remove, append, ok);
    case _ => SameBooksKeep(s.data, Handle(s, e).0.data);
  }

  predicate AllStoreSucceeds(es: seq<Event>) {
    forall i | 0 <= i < |es| :: StoreSucceeds(es[i])
  }

  /**
   In every reachable state each publish in flight is stored under its own key, as a PUBLISH
   until it is received and as a PUBREL then; if no persistence call failed, the store holds
   nothing else.
   */
  lemma {:induction false} LedgerHolds(status: Option<LoopStatus>, es: seq<Event>)
    requires GoodRun(State(status, NEW_DATA), es)
    ensures Balanced(After(State(status, NEW_DATA), es).data)
    ensures AllStoreSucceeds(es) && NoPacketPanics(State(status, NEW_DATA), es) ==> Exact(After(State(status, NEW_DATA), es).data)
    decreases |es|
  {
    var s := State(status, NEW_DATA);
    if es != [] {
      LedgerHolds(status, Front(es));
      LedgerStep(After(s, Front(es)), Last(es));
      if AllStoreSucceeds(es) {
        assert StoreSucceeds(es[|es| - 1]);
        forall i | 0 <= i < |Front(es)| ensures StoreSucceeds(Front(es)[i]) { assert StoreSucceeds(es[i]); }
      }
    }
  }

  // ------------------------------------------------------------ what is stored is what was asked

  /** The QoS 1 or 2 publish that an event makes the client accept, as it was asked. */
  function AcceptedPublish(s: State, e: Event): Option<Message> {
    if e.ClientEvent? && e.request.PublishRequest? && s.status == Some(Connected)
       && e.request.qos != QoS0 && e.request.append.Appended?
    then Some(PublishMsg(e.request.qos, e.request.retain, NextId(s.data), e.request.topic, e.request.payload))
    else None
  }

  /** The last publish accepted under the identifier. */
  function LastPublish(s: State, es: seq<Event>, id: u16): Option<Message>
    decreases |es|
  {
    if es == [] then None
    else
      var m := AcceptedPublish(After(s, Front(es)), Last(es));
      if m.Some? && m.value.PublishMsg? && m.value.id == id then m else LastPublish(s, Front(es), id)
  }

  /** The publish is waiting for its acknowledgement, and `m` is stored for it. */
  predicate StoredFor(d: Data, id: u16, m: Option<Message>) {
    id in d.clientPublishState && d.clientPublishState[id].Sent? ==>
      && d.clientPublishState[id].key in d.persistence && m == Some(d.persistence[d.clientPublishState[id].key])
  }

  /** The entry of a publish in flight and what is stored for it did not change. */
  predicate KeepsFlight(d: Data, d': Data, id: u16) {
    id in d'.clientPublishState && d'.clientPublishState[id].Sent? ==>
      && id in d.clientPublishState && d'.clientPublishState[id] == d.clientPublishState[id]
      && KeepsKey(d, d', d.clientPublishState[id].key)
  }

  predicate KeepsKey(d: Data, d': Data, key: Key) {
    key in d.persistence ==> key in d'.persistence && d'.persistence[key] == d.persistence[key]
  }

  lemma OtherKey(d: Data, id: u16, other: u16)
    requires Balanced(d) && id in d.clientPublishState && other in d.clientPublishState && id != other
    ensures d.clientPublishState[id].key != d.clientPublishState[other].key
  {
    assert Booked(d, id) && Booked(d, other);
    assert HasKey(d, id, d.clientPublishState[id].key) && HasKey(d, other, d.clientPublishState[other].key);
  }

  lemma AckKeepsFlight(d: Data, id: u16, remove: RemoveResult, other: u16)
    requires Balanced(d)
    ensures KeepsFlight(d, PubAckStep(d, id, remove).0, other)
  {
    if id in d.clientPublishState && other in d.clientPublishState && id != other { OtherKey(d, id, other); }
  }

  lemma CompKeepsFlight(d: Data, id: u16, remove: RemoveResult, other: u16)
    requires Balanced(d)
    ensures KeepsFlight(d, PubCompStep(d, id, remove).0, other)
  {
    if id in d.clientPublishState && other in d.clientPublishState && id != other { OtherKey(d, id, other); }
  }

  lemma RecKeepsFlight(d: Data, id: u16, remove: RemoveResult, append: AppendResult, other: u16)
    requires Balanced(d) && FreshRelease(d, id, remove, append)
    ensures KeepsFlight(d, PubRecStep(d, id, remove, append).0, other)
  {
    if id in d.clientPublishState && other in d.clientPublishState && id != other {
      OtherKey(d, id, other);
      assert Booked(d, other);
    }
  }

  lemma FlowKeepsFlight(d: Data, p: Message, remove: RemoveResult, append: AppendResult, other: u16)
    requires Balanced(d) && (p.PubRecMsg? ==> FreshRelease(d, p.id, remove, append))
    ensures KeepsFlight(d, FlowStep(d, p, remove, append).0, other)
  {
    match p
    case PubAckMsg(id) => AckKeepsFlight(d, id, remove, other);
    case PubCompMsg(id) => CompKeepsFlight(d, id, remove, other);
    case PubRecMsg(id) => RecKeepsFlight(d, id, remove, append, other);
    case PubRelMsg(id) => PubRelFrame(d, id);
    case SubAckMsg(id, codes) => SubAckFrame(d, id, codes);
    case _ =>
  }

  lemma PublishKeepsFlight(d: Data, r: Request, c: Caller, other: u16)
    requires r.PublishRequest? && Balanced(d) && FreshPublish(d, r)
    requires r.qos != QoS0 && r.append.Appended? ==> NextId(d) != other
    ensures KeepsFlight(d, ClientPublishStep(d, r, c).0, other)
  {
    if other in d.clientPublishState { assert Booked(d, other); }
  }

  lemma InboundKeepsFlight(s: State, e: Event, other: u16)
    requires Balanced(s.data) && FreshAppend(s, e) && e.Inbound?
    ensures KeepsFlight(s.data, Handle(s, e).0.data, other)
  {
    if Active(s.status) && IsFlow(e.packet) {
      FlowEvent(s, e);
      FlowKeepsFlight(s.data, e.packet, e.remove, e.append, other);
    } else if e.packet.PublishMsg? {
      PublishFrame(s.data, e.packet);
    }
  }

  lemma RequestKeepsFlight(s: State, e: Event, other: u16)
    requires Balanced(s.data) && GoodEvent(s, e) && e.ClientEvent? && s.status == Some(Connected)
    requires AcceptedPublish(s, e).Some? ==> NextId(s.data) != other
    ensures KeepsFlight(s.data, Handle(s, e).0.data, other)
  {
    var d := NewCaller(s.data).0;
    if e.request.PublishRequest? {
      SameBooksKeep(s.data, d);
      PublishKeepsFlight(d, e.request, s.data.callers, other);
    }
  }

  /** Accepting the publish stores it as it was asked. */
  lemma AcceptStores(s: State, e: Event)
    requires AcceptedPublish(s, e).Some?
    ensures StoredFor(Handle(s, e).0.data, NextId(s.data), AcceptedPublish(s, e))
  {
  }

  /** In every reachable state the store holds, for each publish not yet received, the very publish that was asked. */
  lemma {:induction false} StoredAsAsked(status: Option<LoopStatus>, es: seq<Event>, id: u16)
    requires GoodRun(State(status, NEW_DATA), es)
    ensures StoredFor(After(State(status, NEW_DATA), es).data, id, LastPublish(State(status, NEW_DATA), es, id))
    decreases |es|
  {
    var s := State(status, NEW_DATA);
    if es != [] {
      var t, e := After(s, Front(es)), Last(es);
      StoredAsAsked(status, Front(es), id);
      LedgerHolds(status, Front(es));
      if AcceptedPublish(t, e).Some? && NextId(t.data) == id {
        AcceptStores(t, e);
      } else {
        EventKeepsFlight(t, e, id);
      }
    }
  }

  lemma EventKeepsFlight(s: State, e: Event, id: u16)
    requires Balanced(s.data) && GoodEvent(s, e) && (AcceptedPublish(s, e).Some? ==> NextId(s.data) != id)
    ensures KeepsFlight(s.data, Handle(s, e).0.data, id)
  {
    if e.Inbound? {
      InboundKeepsFlight(s, e, id);
    } else if e.ClientEvent? && s.status == Some(Connected) {
      RequestKeepsFlight(s, e, id);
    }
  }
}
