/** Who is owed an answer: every reply channel is in one place, and is answered at most once. */
module Replies {
  import opened Prelude
  import opened Packets
  import opened LoopModel

  /** The places that hold a reply channel; `Answered(n)` is the n-th answer given. */
  datatype Place =
    | InPublish(id: u16)
    | InOneTime(key: OneTimeKey)
    | InPing(index: nat)
    | InStatus
    | Answered(index: nat)

  predicate At(s: State, p: Place, c: Caller) {
    match p
    case InPublish(id) =>
      && id in s.data.clientPublishState
      && !s.data.clientPublishState[id].Received?
      && s.data.clientPublishState[id].sender == Some(c)
    case InOneTime(key) => key in s.data.oneTime && s.data.oneTime[key].1 == c
    case InPing(i) => i < |s.data.pingSubs| && s.data.pingSubs[i] == c
    case InStatus =>
      && s.status.Some?
      && (s.status == Some(Connecting(c)) || (s.status.value.Disconnecting? && s.status.value.ret == c))
    case Answered(n) => n < |s.data.replies| && s.data.replies[n].0 == c
  }

  /** No reply channel is in two places, and all have been made. */
  ghost predicate OnePlace(s: State) {
    && (forall p, q, c: Caller :: At(s, p, c) && At(s, q, c) ==> p == q)
    && (forall p, c: Caller :: At(s, p, c) ==> c < s.data.callers)
  }

  /**
   Every channel of `s'` was in `s` at the place it came from, or is new and at `made`; no two
   places have the same origin.
   */
  ghost predicate Moved(s: State, s': State, from: Place -> Place, made: Option<Place>) {
    && s.data.callers + (if made.Some? then 1 else 0) <= s'.data.callers
    && (forall p, c: Caller :: At(s', p, c) ==> (made == Some(p) && c == s.data.callers) || (made != Some(p) && At(s, from(p), c)))
    && (forall p, q, c: Caller, b: Caller :: At(s', p, c) && At(s', q, b) && made != Some(p) && made != Some(q) && from(p) == from(q) ==> p == q)
  }

  lemma MovedKeeps(s: State, s': State, from: Place -> Place, made: Option<Place>)
    requires OnePlace(s) && Moved(s, s', from, made)
    ensures OnePlace(s')
  {
    forall p, q, c: Caller | At(s', p, c) && At(s', q, c) ensures p == q {
      if made != Some(p) { assert At(s, from(p), c); }
      if made != Some(q) { assert At(s, from(q), c); }
    }
    forall p, c: Caller | At(s', p, c) ensures c < s'.data.callers {
      if made != Some(p) { assert At(s, from(p), c); }
    }
  }

  /** The holders did not change. */
  predicate SameHolders(s: State, s': State) {
    && s'.status == s.status
    && s'.data.clientPublishState == s.data.clientPublishState
    && s'.data.oneTime == s.data.oneTime
    && s'.data.pingSubs == s.data.pingSubs
    && s'.data.replies == s.data.replies
    && s'.data.callers == s.data.callers
  }

  lemma SameHoldersKeep(s: State, s': State)
    requires OnePlace(s) && SameHolders(s, s')
    ensures OnePlace(s')
  {
    assert forall p, c: Caller :: At(s', p, c) <==> At(s, p, c);
  }

  // ------------------------------------------------------------ inbound handlers

  /** A flight ends, with or without an answer to its caller. */
  lemma EndKeeps(s: State, id: u16, d': Data)
    requires OnePlace(s) && id in s.data.clientPublishState
    requires d'.clientPublishState == s.data.clientPublishState - {id}
    requires d'.oneTime == s.data.oneTime && d'.pingSubs == s.data.pingSubs && d'.callers == s.data.callers
    requires var st := s.data.clientPublishState[id];
      d'.replies == s.data.replies
      || (!st.Received? && st.sender.Some?
          && exists r :: d'.replies == s.data.replies + [(st.sender.value, r)])
    ensures OnePlace(s.(data := d'))
  {
    var n := |s.data.replies|;
    MovedKeeps(s, s.(data := d'), p => if p == Answered(n) then InPublish(id) else p, None);
  }

  lemma AckKeeps(s: State, id: u16, remove: RemoveResult)
    requires OnePlace(s)
    ensures OnePlace(s.(data := PubAckStep(s.data, id, remove).0))
  {
    if id in s.data.clientPublishState { EndKeeps(s, id, PubAckStep(s.data, id, remove).0); }
  }

  lemma CompKeeps(s: State, id: u16, remove: RemoveResult)
    requires OnePlace(s)
    ensures OnePlace(s.(data := PubCompStep(s.data, id, remove).0))
  {
    if id in s.data.clientPublishState { EndKeeps(s, id, PubCompStep(s.data, id, remove).0); }
  }

  lemma RecKeeps(s: State, id: u16, remove: RemoveResult, append: AppendResult)
    requires OnePlace(s)
    ensures OnePlace(s.(data := PubRecStep(s.data, id, remove, append).0))
  {
    var d' := PubRecStep(s.data, id, remove, append).0;
    if id in s.data.clientPublishState {
      RecFrame(s.data, id, remove, append);
      RecShape(s.data, id, remove, append);
      if id in d'.clientPublishState { GoesOnKeeps(s, id, d', append.key); } else { EndKeeps(s, id, d'); }
    }
  }

  lemma RecShape(d: Data, id: u16, remove: RemoveResult, append: AppendResult)
    requires id in d.clientPublishState
    ensures var d', st := PubRecStep(d, id, remove, append).0, d.clientPublishState[id];
      id in d'.clientPublishState ==>
        && st.Sent? && append.Appended? && d'.replies == d.replies
        && d'.clientPublishState == d.clientPublishState[id := Released(append.key, st.sender)]
    ensures var d', st := PubRecStep(d, id, remove, append).0, d.clientPublishState[id];
      id !in d'.clientPublishState ==>
        && d'.clientPublishState == d.clientPublishState - {id}
        && (d'.replies == d.replies
            || (!st.Received? && st.sender.Some? && exists r :: d'.replies == d.replies + [(st.sender.value, r)]))
  {
  }

  /** The flight goes on under another key, for the same caller. */
  lemma GoesOnKeeps(s: State, id: u16, d': Data, key: Key)
    requires OnePlace(s) && id in s.data.clientPublishState && !s.data.clientPublishState[id].Received?
    requires d'.clientPublishState == s.data.clientPublishState[id := Released(key, s.data.clientPublishState[id].sender)]
    requires d' == s.data.(clientPublishState := d'.clientPublishState, persistence := d'.persistence)
    ensures OnePlace(s.(data := d'))
  {
    assert forall p, c: Caller :: At(s.(data := d'), p, c) <==> At(s, p, c);
  }

  lemma PingRespKeeps(s: State)
    requires OnePlace(s)
    ensures OnePlace(s.(data := PingRespStep(s.data).0))
  {
    var n := |s.data.replies|;
    MovedKeeps(s, s.(data := PingRespStep(s.data).0),
      (p: Place) => if p.Answered? && p.index >= n then InPing(p.index - n) else p, None);
  }

  /** A request is taken off the table, with or without an answer. */
  lemma OneTimeKeeps(s: State, key: OneTimeKey, d': Data)
    requires OnePlace(s) && key in s.data.oneTime
    requires d'.oneTime == s.data.oneTime - {key}
    requires d'.clientPublishState == s.data.clientPublishState && d'.pingSubs == s.data.pingSubs
    requires d'.callers == s.data.callers
    requires d'.replies == s.data.replies
      || exists r :: d'.replies == s.data.replies + [(s.data.oneTime[key].1, r)]
    ensures OnePlace(s.(data := d'))
  {
    var n := |s.data.replies|;
    MovedKeeps(s, s.(data := d'), p => if p == Answered(n) then InOneTime(key) else p, None);
  }

  lemma SubAckKeeps(s: State, id: u16, codes: seq<SubAckReturnCode>)
    requires OnePlace(s)
    ensures OnePlace(s.(data := SubAckStep(s.data, id, codes).0))
  {
    SubAckFrame(s.data, id, codes);
    var d' := SubAckStep(s.data, id, codes).0;
    if SubscribeKey(id) in s.data.oneTime {
      OneTimeKeeps(s, SubscribeKey(id), d');
    } else {
      assert s.data.oneTime - {SubscribeKey(id)} == s.data.oneTime;
      SameHoldersKeep(s, s.(data := d'));
    }
  }

  lemma UnsubAckKeeps(s: State, id: u16)
    requires OnePlace(s)
    ensures OnePlace(s.(data := UnsubAckStep(s.data, id).0))
  {
    if UnsubscribeKey(id) in s.data.oneTime { OneTimeKeeps(s, UnsubscribeKey(id), UnsubAckStep(s.data, id).0); }
  }

  lemma FlowKeeps(s: State, p: Message, remove: RemoveResult, append: AppendResult)
    requires OnePlace(s)
    ensures OnePlace(s.(data := FlowStep(s.data, p, remove, append).0))
  {
    match p
    case PingRespMsg => PingRespKeeps(s);
    case PubAckMsg(id) => AckKeeps(s, id, remove);
    case PubCompMsg(id) => CompKeeps(s, id, remove);
    case PubRecMsg(id) => RecKeeps(s, id, remove, append);
    case SubAckMsg(id, codes) => SubAckKeeps(s, id, codes);
    case UnsubAckMsg(id) => UnsubAckKeeps(s, id);
    case _ => SameHoldersKeep(s, s.(data := FlowStep(s.data, p, remove, append).0));
  }

  // ------------------------------------------------------------ the other handlers

  /** A new channel is made and kept nowhere, or in one new place. */
  lemma MadeKeeps(s: State, s': State, place: Option<Place>)
    requires OnePlace(s) && s'.data.callers == s.data.callers + 1
    requires forall p, c: Caller | At(s', p, c) :: if place == Some(p) then c == s.data.callers else At(s, p, c)
    ensures OnePlace(s')
  {
  }

  /** The channel in the status goes, with or without an answer. */
  lemma StatusKeeps(s: State, s': State)
    requires OnePlace(s)
    requires forall c: Caller :: !At(s', InStatus, c)
    requires s'.data.callers == s.data.callers && s'.data.clientPublishState == s.data.clientPublishState
    requires s'.data.oneTime == s.data.oneTime && s'.data.pingSubs == s.data.pingSubs
    requires s'.data.replies == s.data.replies
      || exists c: Caller, r :: At(s, InStatus, c) && s'.data.replies == s.data.replies + [(c, r)]
    ensures OnePlace(s')
  {
    var n := |s.data.replies|;
    MovedKeeps(s, s', p => if p == Answered(n) then InStatus else p, None);
  }

  lemma RequestKeeps(s: State, r: Request, ok: bool)
    requires OnePlace(s)
    ensures OnePlace(HandleRequest(s, r, ok).0)
  {
    var s' := HandleRequest(s, r, ok).0;
    if s.status == Some(Connected) {
      var d0 := NewCaller(s.data).0;
      var kept := s'.data != GenPacketId(d0);
      match r
      case SubscribeRequest(_) =>
        MadeKeeps(s, s', if kept then Some(InOneTime(SubscribeKey(NextId(s.data)))) else None);
      case UnsubscribeRequest(_) =>
        MadeKeeps(s, s', if kept then Some(InOneTime(UnsubscribeKey(NextId(s.data)))) else None);
      case PingRequest => MadeKeeps(s, s', Some(InPing(|s.data.pingSubs|)));
      case PublishRequest(qos, _, _, _, append) =>
        MadeKeeps(s, s', if qos == QoS0 || append.AppendFailed? then None else Some(InPublish(NextId(s.data))));
    } else if s.status.Some? && s.status.value.PendingError? {
      StatusKeeps(s, s');
    }
  }

  lemma ConnectionKeeps(s: State, e: Event)
    requires OnePlace(s) && !e.ClientEvent? && !e.Inbound?
    ensures OnePlace(Handle(s, e).0)
  {
    match e
    case ConnectEvent(ok) => ConnectKeeps(s, ok);
    case DisconnectEvent(wait, ok) => DisconnectKeeps(s, wait, ok);
    case KeepAlive(ok) => if Active(s.status) { MadeKeeps(s, Handle(s, e).0, Some(InPing(|s.data.pingSubs|))); }
    case _ => TimersKeep(s, e);
  }

  lemma ConnectKeeps(s: State, ok: bool)
    requires OnePlace(s)
    ensures OnePlace(HandleConnect(s, ok).0)
  {
    var s' := HandleConnect(s, ok).0;
    if s.status == None {
      MadeKeeps(s, s', if ok then Some(InStatus) else None);
    } else if s' != s {
      StatusKeeps(s, s');
    }
  }

  lemma DisconnectKeeps(s: State, wait: bool, ok: bool)
    requires OnePlace(s)
    ensures OnePlace(HandleDisconnect(s, wait, ok).0)
  {
    var s' := HandleDisconnect(s, wait, ok).0;
    if s.status == Some(Connected) {
      MadeKeeps(s, s', Some(InStatus));
    } else if s' != s {
      StatusKeeps(s, s');
    }
  }

  lemma TimersKeep(s: State, e: Event)
    requires OnePlace(s) && (e.ConnectTimeout? || e.PingTimeout? || e.DisconnectTimeout?)
    ensures OnePlace(Handle(s, e).0)
  {
    if Handle(s, e).0 != s { StatusKeeps(s, Handle(s, e).0); }
  }

  lemma InboundKeeps(s: State, p: Message, remove: RemoveResult, append: AppendResult, ok: bool)
    requires OnePlace(s)
    ensures OnePlace(HandleInbound(s, p, remove, append, ok).0)
  {
    var s' := HandleInbound(s, p, remove, append, ok).0;
    if Active(s.status) && (s.status != Some(Connected) || IsFlow(p)) {
      FlowKeeps(s, p, remove, append);
    } else if s.status == Some(Connected) {
      SameHoldersKeep(s, s');
    } else if s' != s {
      assert At(s, InStatus, s.status.value.ret);
      StatusKeeps(s, s');
    }
  }

  /** One event keeps every reply channel in one place. */
  lemma OnePlaceStep(s: State, e: Event)
    requires OnePlace(s)
    ensures OnePlace(Handle(s, e).0)
  {
    match e
    case ClientEvent(r, ok) => RequestKeeps(s, r, ok);
    case Inbound(p, remove, append, ok) => InboundKeeps(s, p, remove, append, ok);
    case _ => ConnectionKeeps(s, e);
  }

  /** In every run, whatever fails, no caller is answered twice or answered and still waiting. */
  lemma {:induction false} AnsweredOnce(status: Option<LoopStatus>, es: seq<Event>)
    requires status == None || status == Some(Disconnected)
    ensures OnePlace(After(State(status, NEW_DATA), es))
    ensures var replies := After(State(status, NEW_DATA), es).data.replies;
      forall i, j | 0 <= i < |replies| && 0 <= j < |replies| :: replies[i].0 == replies[j].0 ==> i == j
    decreases |es|
  {
    var s := After(State(status, NEW_DATA), es);
    if es != [] {
      AnsweredOnce(status, Front(es));
      OnePlaceStep(After(State(status, NEW_DATA), Front(es)), Last(es));
    }
    forall i, j | 0 <= i < |s.data.replies| && 0 <= j < |s.data.replies| && s.data.replies[i].0 == s.data.replies[j].0
      ensures i == j
    {
      assert At(s, Answered(i), s.data.replies[i].0) && At(s, Answered(j), s.data.replies[i].0);
    }
  }
}
