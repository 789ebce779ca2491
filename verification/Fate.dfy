/** What becomes of the callers of accepted publishes. */
module Fate {
  import opened Prelude
  import opened Packets
  import opened LoopModel
  import opened Replies

  /** The caller of a QoS 1 or 2 publish that this event accepts. */
  function AcceptedBy(s: State, e: Event): set<Caller> {
    if e.ClientEvent? && e.request.PublishRequest? && s.status == Some(Connected)
       && e.request.qos != QoS0 && e.request.append.Appended?
    then {s.data.callers} else {}
  }

  /** The caller who waits for the publish `id`. */
  function SenderOf(d: Data, id: u16): set<Caller> {
    if id in d.clientPublishState && !d.clientPublishState[id].Received? && d.clientPublishState[id].sender.Some?
    then {d.clientPublishState[id].sender.value} else {}
  }

  /** A new publish takes the identifier, and with it the place, of one in flight. */
  function OverwrittenBy(s: State, e: Event): set<Caller> {
    if AcceptedBy(s, e) != {} then SenderOf(s.data, NextId(s.data)) else {}
  }

  /** A PUBACK, PUBREC or PUBCOMP that the loop handles. */
  predicate AcksPublish(s: State, e: Event) {
    e.Inbound? && Active(s.status) && (e.packet.PubAckMsg? || e.packet.PubRecMsg? || e.packet.PubCompMsg?)
  }

  /** It comes in the wrong state of its flow. */
  predicate WrongState(d: Data, m: Message)
    requires m.PubAckMsg? || m.PubRecMsg? || m.PubCompMsg?
  {
    m.id in d.clientPublishState
    && if m.PubCompMsg? then !d.clientPublishState[m.id].Released? else !d.clientPublishState[m.id].Sent?
  }

  /** Then the handler panics, when the flight is gone already. */
  function PanickedBy(s: State, e: Event): set<Caller> {
    if AcksPublish(s, e) && WrongState(s.data, e.packet) then SenderOf(s.data, e.packet.id) else {}
  }

  /** A PUBREC finds that the old key cannot be removed. */
  function UnremovedBy(s: State, e: Event): set<Caller> {
    if AcksPublish(s, e) && e.packet.PubRecMsg? && !WrongState(s.data, e.packet) && !e.remove.Removed?
    then SenderOf(s.data, e.packet.id) else {}
  }

  /** The callers that an event lets go of without an answer. */
  function LetGoBy(s: State, e: Event): set<Caller> { OverwrittenBy(s, e) + PanickedBy(s, e) + UnremovedBy(s, e) }

  function Accepted(s: State, es: seq<Event>): set<Caller>
    decreases |es|
  {
    if es == [] then {} else Accepted(s, Front(es)) + AcceptedBy(After(s, Front(es)), Last(es))
  }

  function LetGo(s: State, es: seq<Event>): set<Caller>
    decreases |es|
  {
    if es == [] then {} else LetGo(s, Front(es)) + LetGoBy(After(s, Front(es)), Last(es))
  }

  /** The caller has a publish in flight. */
  ghost predicate Flying(s: State, c: Caller) { exists id :: At(s, InPublish(id), c) }

  ghost predicate Replied(s: State, c: Caller) { exists n :: At(s, Answered(n), c) }

  ghost predicate Somewhere(s: State, c: Caller) { exists p :: At(s, p, c) }

  /** Every publish in flight has a caller waiting for it. */
  predicate Awaited(d: Data) {
    forall id | id in d.clientPublishState :: !d.clientPublishState[id].Received? && d.clientPublishState[id].sender.Some?
  }

  /** Where callers are after a step, in terms of where they were. */
  ghost predicate Follows(s: State, e: Event, s': State) {
    && Awaited(s'.data)
    && (forall id, c: Caller :: At(s, InPublish(id), c) ==>
      Flying(s', c) || Replied(s', c) || c in LetGoBy(s, e))
    && (forall n, c: Caller :: At(s, Answered(n), c) ==> At(s', Answered(n), c))
    && (forall id, c: Caller :: At(s', InPublish(id), c) ==> At(s, InPublish(id), c) || c in AcceptedBy(s, e))
    && (forall p: Place, c: Caller :: At(s', p, c) ==> Somewhere(s, c) || c >= s.data.callers)
    && (forall c: Caller :: c in LetGoBy(s, e) ==> !Somewhere(s', c))
    && (forall c: Caller :: c in AcceptedBy(s, e) ==> Flying(s', c))
  }

  lemma EndFollows(s: State, e: Event, s': State, id: u16)
    requires OnePlace(s) && Awaited(s.data) && AcceptedBy(s, e) == {} && id in s.data.clientPublishState
    requires SameHolders(s, s'.(data := s'.data.(clientPublishState := s.data.clientPublishState, replies := s.data.replies)))
    requires s'.data.clientPublishState == s.data.clientPublishState - {id}
    requires var c := s.data.clientPublishState[id].sender.value;
      if c in LetGoBy(s, e) then LetGoBy(s, e) == {c} && s'.data.replies == s.data.replies
      else LetGoBy(s, e) == {} && exists r :: s'.data.replies == s.data.replies + [(c, r)]
    ensures Follows(s, e, s')
  {
    var c := s.data.clientPublishState[id].sender.value;
    var n := |s.data.replies|;
    assert At(s, InPublish(id), c);
    forall i, b: Caller | At(s, InPublish(i), b) ensures Flying(s', b) || Replied(s', b) || b in LetGoBy(s, e) {
      if i != id {
        assert At(s', InPublish(i), b);
      } else if c !in LetGoBy(s, e) {
        assert At(s', Answered(n), b);
      }
    }
    forall p, b: Caller | At(s', p, b) ensures Somewhere(s, b) {
      assert At(s, p, b) || (p == Answered(n) && b == c);
    }
    if c in LetGoBy(s, e) {
      forall p ensures !At(s', p, c) {
        if At(s', p, c) { assert At(s, p, c); }
      }
    }
  }

  /** Only the flights changed, and the same callers wait for the same ids. */
  lemma SameFollows(s: State, e: Event, s': State)
    requires Awaited(s.data) && AcceptedBy(s, e) == {} && LetGoBy(s, e) == {}
    requires Awaited(s'.data)
    requires forall p: Place, c: Caller :: At(s', p, c) ==> At(s, p, c)
    requires forall p: Place, c: Caller :: (p.InPublish? || p.Answered?) && At(s, p, c) ==> At(s', p, c)
    ensures Follows(s, e, s')
  {
    forall id, c: Caller | At(s, InPublish(id), c) ensures Flying(s', c) { assert At(s', InPublish(id), c); }
  }

  /** The caller is held somewhere. */
  ghost predicate FromPlace(s: State, c: Caller) { exists p: Place :: !p.Answered? && At(s, p, c) }

  /** Answers to callers outside the flights. */
  lemma AnswerFollows(s: State, e: Event, s': State)
    requires Awaited(s.data) && AcceptedBy(s, e) == {} && LetGoBy(s, e) == {}
    requires s'.data.clientPublishState == s.data.clientPublishState
    requires s.data.replies <= s'.data.replies
    requires forall n | |s.data.replies| <= n < |s'.data.replies| ::
      FromPlace(s, s'.data.replies[n].0)
    requires forall p: Place, c: Caller :: !p.Answered? && At(s', p, c) ==> At(s, p, c) || c >= s.data.callers
    ensures Follows(s, e, s')
  {
    forall id, c: Caller | At(s, InPublish(id), c) ensures Flying(s', c) { assert At(s', InPublish(id), c); }
    forall p: Place, c: Caller | At(s', p, c) ensures Somewhere(s, c) || c >= s.data.callers {
      if p.Answered? && p.index < |s.data.replies| { assert At(s, p, c); }
    }
  }

  /** What the handler of a PUBACK, PUBREC or PUBCOMP does. */
  function AckStep(d: Data, e: Event): (Data, Result)
    requires e.Inbound? && (e.packet.PubAckMsg? || e.packet.PubRecMsg? || e.packet.PubCompMsg?)
  {
    if e.packet.PubAckMsg? then PubAckStep(d, e.packet.id, e.remove)
    else if e.packet.PubCompMsg? then PubCompStep(d, e.packet.id, e.remove)
    else PubRecStep(d, e.packet.id, e.remove, e.append)
  }

  /** How the caller of a flight that is over was answered. */
  function Verdict(remove: RemoveResult): Reply { if remove.Removed? then Onetime else Failed(PersistenceError) }

  /** The flight is over, and its caller heard `told`, or nothing. */
  predicate Ends(d: Data, id: u16, d': Data, told: Option<Reply>)
    requires id in d.clientPublishState && !d.clientPublishState[id].Received? && d.clientPublishState[id].sender.Some?
  {
    && d'.clientPublishState == d.clientPublishState - {id}
    && d'.replies == d.replies + (if told.Some? then [(d.clientPublishState[id].sender.value, told.value)] else [])
  }

  lemma AckEnds(d: Data, id: u16, remove: RemoveResult)
    requires Awaited(d) && id in d.clientPublishState
    ensures Ends(d, id, PubAckStep(d, id, remove).0, if d.clientPublishState[id].Sent? then Some(Verdict(remove)) else None)
  {
  }

  lemma CompEnds(d: Data, id: u16, remove: RemoveResult)
    requires Awaited(d) && id in d.clientPublishState
    ensures Ends(d, id, PubCompStep(d, id, remove).0, if d.clientPublishState[id].Released? then Some(Verdict(remove)) else None)
  {
  }

  lemma RecEnds(d: Data, id: u16, remove: RemoveResult, append: AppendResult)
    requires Awaited(d) && id in d.clientPublishState
    ensures var d', sent := PubRecStep(d, id, remove, append).0, d.clientPublishState[id].Sent?;
      if sent && remove.Removed? && append.Appended?
      then d'.replies == d.replies
        && d'.clientPublishState == d.clientPublishState[id := Released(append.key, d.clientPublishState[id].sender)]
      else Ends(d, id, d', if sent && remove.Removed? then Some(Failed(PersistenceError)) else None)
  {
  }

  /** What becomes of the caller of a publish when a packet of its flow is handled. */
  datatype Settlement = Waits | Hears(reply: Reply) | Dropped

  /**
   A packet in the wrong state and a PUBREC whose key cannot be removed drop the caller; a
   PUBREC takes the flight on unless the PUBREL cannot be stored; all else settles it.
   */
  function SettlementOf(d: Data, e: Event): Settlement
    requires e.Inbound? && (e.packet.PubAckMsg? || e.packet.PubRecMsg? || e.packet.PubCompMsg?)
  {
    if WrongState(d, e.packet) then Dropped
    else if !e.packet.PubRecMsg? then Hears(Verdict(e.remove))
    else if e.remove.RemoveFailed? then Dropped
    else if e.append.AppendFailed? then Hears(Failed(PersistenceError))
    else Waits
  }

  /** The handlers settle flights so. */
  lemma SettlesAs(d: Data, e: Event)
    requires e.Inbound? && (e.packet.PubAckMsg? || e.packet.PubRecMsg? || e.packet.PubCompMsg?)
    requires Awaited(d) && e.packet.id in d.clientPublishState
    ensures var d', id, o := AckStep(d, e).0, e.packet.id, SettlementOf(d, e);
      && d' == d.(clientPublishState := d'.clientPublishState, persistence := d'.persistence, replies := d'.replies)
      && (if o.Waits?
          then d'.replies == d.replies
            && d'.clientPublishState == d.clientPublishState[id := Released(e.append.key, d.clientPublishState[id].sender)]
          else Ends(d, id, d', if o.Hears? then Some(o.reply) else None))
  {
    var id := e.packet.id;
    if e.packet.PubAckMsg? {
      AckFrame(d, id, e.remove);
      AckEnds(d, id, e.remove);
    } else if e.packet.PubCompMsg? {
      CompFrame(d, id, e.remove);
      CompEnds(d, id, e.remove);
    } else {
      RecFrame(d, id, e.remove, e.append);
      RecEnds(d, id, e.remove, e.append);
    }
  }

  lemma LetGoIsDropped(s: State, e: Event)
    requires AcksPublish(s, e)
    ensures LetGoBy(s, e) == if SettlementOf(s.data, e).Dropped? then SenderOf(s.data, e.packet.id) else {}
  {
  }

  /** The flight goes on under another key, for the same caller. */
  lemma GoesOn(s: State, id: u16, d': Data, key: Key)
    requires Awaited(s.data) && id in s.data.clientPublishState
    requires d'.clientPublishState == s.data.clientPublishState[id := Released(key, s.data.clientPublishState[id].sender)]
    requires d' == s.data.(clientPublishState := d'.clientPublishState, persistence := d'.persistence)
    ensures Awaited(d')
    ensures forall p: Place, c: Caller :: At(s.(data := d'), p, c) <==> At(s, p, c)
  {
  }

  /** It ends a flight or takes it on. */
  lemma FlightFollows(s: State, e: Event, d': Data)
    requires OnePlace(s) && Awaited(s.data) && AcksPublish(s, e) && d' == AckStep(s.data, e).0
    ensures Follows(s, e, s.(data := d'))
  {
    var id := e.packet.id;
    LetGoIsDropped(s, e);
    if id !in s.data.clientPublishState {
      SameFollows(s, e, s);
    } else {
      SettlesAs(s.data, e);
      if SettlementOf(s.data, e).Waits? {
        GoesOn(s, id, d', e.append.key);
        SameFollows(s, e, s.(data := d'));
      } else {
        EndFollows(s, e, s.(data := d'), id);
      }
    }
  }

  /** The caller waits on, or has one answer more, or is nowhere; nobody else is affected. */
  ghost predicate Settled(s: State, s': State, id: u16, c: Caller, o: Settlement) {
    && s'.data.replies == s.data.replies + (if o.Hears? then [(c, o.reply)] else [])
    && (At(s', InPublish(id), c) <==> o.Waits?)
    && (Somewhere(s', c) <==> !o.Dropped?)
    && forall p: Place, b: Caller | b != c :: At(s', p, b) <==> At(s, p, b)
  }

  lemma EndSettled(s: State, s': State, id: u16, c: Caller, o: Settlement)
    requires OnePlace(s) && At(s, InPublish(id), c) && !o.Waits?
    requires Ends(s.data, id, s'.data, if o.Hears? then Some(o.reply) else None)
    requires SameHolders(s, s'.(data := s'.data.(clientPublishState := s.data.clientPublishState, replies := s.data.replies)))
    ensures Settled(s, s', id, c, o)
  {
    var n := |s.data.replies|;
    forall p: Place, b: Caller ensures
      At(s', p, b) <==> if p == InPublish(id) then false else if p == Answered(n) then o.Hears? && b == c else At(s, p, b)
    {
    }
    if o.Hears? { assert At(s', Answered(n), c); }
  }

  /** Handling a PUBACK, PUBREC or PUBCOMP settles, takes on or drops the one caller of its publish. */
  lemma FlightSettled(s: State, e: Event, c: Caller)
    requires OnePlace(s) && Awaited(s.data) && AcksPublish(s, e) && At(s, InPublish(e.packet.id), c)
    ensures Settled(s, Handle(s, e).0, e.packet.id, c, SettlementOf(s.data, e))
  {
    FlowEvent(s, e);
    SettlesAs(s.data, e);
    var id, s', o := e.packet.id, Handle(s, e).0, SettlementOf(s.data, e);
    assert s'.data == AckStep(s.data, e).0;
    if o.Waits? {
      GoesOn(s, id, s'.data, e.append.key);
      assert At(s', InPublish(id), c);
    } else {
      EndSettled(s, s', id, c, o);
    }
  }

  lemma OneTimeFollows(s: State, e: Event, key: OneTimeKey, d': Data)
    requires OnePlace(s) && Awaited(s.data) && AcceptedBy(s, e) == {} && LetGoBy(s, e) == {}
    requires key in s.data.oneTime && d'.oneTime == s.data.oneTime - {key}
    requires d'.clientPublishState == s.data.clientPublishState && d'.pingSubs == s.data.pingSubs
    requires d'.replies == s.data.replies || exists r :: d'.replies == s.data.replies + [(s.data.oneTime[key].1, r)]
    ensures Follows(s, e, s.(data := d'))
  {
    var c := s.data.oneTime[key].1;
    assert At(s, InOneTime(key), c);
    forall n | |s.data.replies| <= n < |d'.replies| ensures FromPlace(s, d'.replies[n].0) {
      assert d'.replies[n].0 == c;
    }
    AnswerFollows(s, e, s.(data := d'));
  }

  lemma PingFollows(s: State, e: Event)
    requires OnePlace(s) && Awaited(s.data) && AcceptedBy(s, e) == {} && LetGoBy(s, e) == {}
    ensures Follows(s, e, s.(data := PingRespStep(s.data).0))
  {
    var d' := PingRespStep(s.data).0;
    forall n | |s.data.replies| <= n < |d'.replies| ensures FromPlace(s, d'.replies[n].0) {
      assert At(s, InPing(n - |s.data.replies|), d'.replies[n].0);
    }
    AnswerFollows(s, e, s.(data := d'));
  }

  /** What accepting a publish does to the places of callers. */
  lemma AcceptedPlaces(s: State, e: Event, p: Place, c: Caller)
    requires AcceptedBy(s, e) != {}
    ensures At(Handle(s, e).0, p, c) <==> if p == InPublish(NextId(s.data)) then c == s.data.callers else At(s, p, c)
  {
  }

  lemma AcceptedAwaits(s: State, e: Event)
    requires Awaited(s.data) && AcceptedBy(s, e) != {}
    ensures Awaited(Handle(s, e).0.data)
  {
  }

  lemma PublishFollows(s: State, e: Event)
    requires OnePlace(s) && Awaited(s.data) && AcceptedBy(s, e) != {}
    ensures Follows(s, e, Handle(s, e).0)
  {
    var id, s' := NextId(s.data), Handle(s, e).0;
    AcceptedAwaits(s, e);
    forall p: Place, c: Caller ensures
      At(s', p, c) <==> if p == InPublish(id) then c == s.data.callers else At(s, p, c)
    {
      AcceptedPlaces(s, e, p, c);
    }
    assert At(s', InPublish(id), s.data.callers);
    forall i, c: Caller | At(s, InPublish(i), c) ensures Flying(s', c) || c in LetGoBy(s, e) {
      if i != id { assert At(s', InPublish(i), c); }
    }
    forall c: Caller | c in LetGoBy(s, e) ensures !Somewhere(s', c) {
      assert At(s, InPublish(id), c);
    }
    forall p: Place, c: Caller | At(s', p, c) ensures Somewhere(s, c) || c >= s.data.callers {}
  }

  lemma SubAckFollows(s: State, e: Event, id: u16, codes: seq<SubAckReturnCode>)
    requires OnePlace(s) && Awaited(s.data) && AcceptedBy(s, e) == {} && LetGoBy(s, e) == {}
    ensures Follows(s, e, s.(data := SubAckStep(s.data, id, codes).0))
  {
    var d' := SubAckStep(s.data, id, codes).0;
    SubAckFrame(s.data, id, codes);
    if SubscribeKey(id) in s.data.oneTime {
      OneTimeFollows(s, e, SubscribeKey(id), d');
    } else {
      AnswerFollows(s, e, s.(data := d'));
    }
  }

  lemma UnsubAckFollows(s: State, e: Event, id: u16)
    requires OnePlace(s) && Awaited(s.data) && AcceptedBy(s, e) == {} && LetGoBy(s, e) == {}
    ensures Follows(s, e, s.(data := UnsubAckStep(s.data, id).0))
  {
    var d' := UnsubAckStep(s.data, id).0;
    if UnsubscribeKey(id) in s.data.oneTime {
      OneTimeFollows(s, e, UnsubscribeKey(id), d');
    } else {
      AnswerFollows(s, e, s.(data := d'));
    }
  }

  lemma PubRelFollows(s: State, e: Event, id: u16)
    requires Awaited(s.data) && AcceptedBy(s, e) == {} && LetGoBy(s, e) == {}
    ensures Follows(s, e, s.(data := PubRelStep(s.data, id).0))
  {
    PubRelFrame(s.data, id);
    SameHoldersFollow(s, e, s.(data := PubRelStep(s.data, id).0));
  }

  lemma FlowFollows(s: State, e: Event)
    requires OnePlace(s) && Awaited(s.data) && e.Inbound? && Active(s.status) && IsFlow(e.packet)
    ensures Follows(s, e, s.(data := FlowStep(s.data, e.packet, e.remove, e.append).0))
  {
    if AcksPublish(s, e) { FlightFollows(s, e, AckStep(s.data, e).0); }
    else if e.packet.PingRespMsg? { PingFollows(s, e); }
    else if e.packet.PubRelMsg? { PubRelFollows(s, e, e.packet.id); }
    else if e.packet.SubAckMsg? { SubAckFollows(s, e, e.packet.id, e.packet.codes); }
    else { UnsubAckFollows(s, e, e.packet.id); }
  }

  lemma StepFollows(s: State, e: Event)
    requires OnePlace(s) && Awaited(s.data)
    ensures Follows(s, e, Handle(s, e).0)
  {
    if AcceptedBy(s, e) != {} {
      PublishFollows(s, e);
    } else if e.Inbound? && Active(s.status) && IsFlow(e.packet) {
      FlowEvent(s, e);
      FlowFollows(s, e);
    } else if e.Inbound? {
      QuietInbound(s, e);
    } else if e.ClientEvent? {
      RequestFollows(s, e);
    } else {
      QuietFollows(s, e);
    }
  }

  lemma SameHoldersFollow(s: State, e: Event, s': State)
    requires Awaited(s.data) && AcceptedBy(s, e) == {} && LetGoBy(s, e) == {} && SameHolders(s, s')
    ensures Follows(s, e, s')
  {
    assert forall p: Place, c: Caller :: At(s', p, c) <==> At(s, p, c);
    SameFollows(s, e, s');
  }

  lemma RequestFollows(s: State, e: Event)
    requires Awaited(s.data) && e.ClientEvent? && AcceptedBy(s, e) == {}
    ensures Follows(s, e, HandleRequest(s, e.request, e.sendOk).0)
  {
    var s' := HandleRequest(s, e.request, e.sendOk).0;
    RequestMakes(s, e.request, e.sendOk);
    if e.request.PublishRequest? && s.status == Some(Connected) {
      assert s'.data.clientPublishState == s.data.clientPublishState;
    }
    AnswerFollows(s, e, s');
  }

  /** What a request changes of the holders: one new entry for its own channel at most. */
  predicate AddsOnly(d: Data, d': Data, c: Caller) {
    && d'.replies == d.replies
    && (forall id | id in d'.clientPublishState ::
      || (id in d.clientPublishState && d'.clientPublishState[id] == d.clientPublishState[id])
      || (d'.clientPublishState[id].Sent? && d'.clientPublishState[id].sender == Some(c)))
    && (forall k | k in d'.oneTime :: (k in d.oneTime && d'.oneTime[k] == d.oneTime[k]) || d'.oneTime[k].1 == c)
    && (d'.pingSubs == d.pingSubs || d'.pingSubs == d.pingSubs + [c])
  }

  lemma PublishAdds(d: Data, r: Request, c: Caller)
    requires r.PublishRequest?
    ensures AddsOnly(d, ClientPublishStep(d, r, c).0, c)
  {
    ClientPublishFrame(d, r, c);
  }

  lemma RequestAdds(d: Data, r: Request, c: Caller)
    ensures AddsOnly(d, RequestStep(d, r, c).0, c)
  {
    if r.PublishRequest? { PublishAdds(d, r, c); }
  }

  lemma AddsPlaces(s: State, s': State)
    requires AddsOnly(s.data, s'.data, s.data.callers) && s'.status == s.status
    ensures forall p: Place, c: Caller :: !p.Answered? && At(s', p, c) ==> At(s, p, c) || c >= s.data.callers
  {
  }

  lemma RequestMakes(s: State, r: Request, ok: bool)
    ensures var s' := HandleRequest(s, r, ok).0;
      && s'.data.replies == s.data.replies
      && (!r.PublishRequest? ==> s'.data.clientPublishState == s.data.clientPublishState)
      && forall p: Place, c: Caller :: !p.Answered? && At(s', p, c) ==> At(s, p, c) || c >= s.data.callers
  {
    var s' := HandleRequest(s, r, ok).0;
    if s.status == Some(Connected) {
      var d0 := NewCaller(s.data).0;
      RequestAdds(d0, r, s.data.callers);
      AddsPlaces(s.(data := d0.(callers := s.data.callers)), s');
    }
  }

  lemma QuietInbound(s: State, e: Event)
    requires Awaited(s.data) && e.Inbound? && !(Active(s.status) && IsFlow(e.packet))
    ensures Follows(s, e, HandleInbound(s, e.packet, e.remove, e.append, e.sendOk).0)
  {
    var s' := HandleInbound(s, e.packet, e.remove, e.append, e.sendOk).0;
    if s.status.Some? && s.status.value.Connecting? && e.packet.ConnAckMsg? {
      assert s' == ConnAckStep(s, e.packet);
      StatusFollows(s, e, s', s.status.value.ret);
    } else {
      if e.packet.PublishMsg? { PublishFrame(s.data, e.packet); }
      SameHoldersFollow(s, e, s');
    }
  }

  /** The channel in the status is answered. */
  lemma StatusFollows(s: State, e: Event, s': State, c: Caller)
    requires Awaited(s.data) && AcceptedBy(s, e) == {} && LetGoBy(s, e) == {} && At(s, InStatus, c)
    requires !s'.status.Some? || (!s'.status.value.Connecting? && !s'.status.value.Disconnecting?)
    requires s'.data.clientPublishState == s.data.clientPublishState
    requires s'.data.oneTime == s.data.oneTime && s'.data.pingSubs == s.data.pingSubs
    requires exists r :: s'.data.replies == s.data.replies + [(c, r)]
    ensures Follows(s, e, s')
  {
    forall n | |s.data.replies| <= n < |s'.data.replies| ensures FromPlace(s, s'.data.replies[n].0) {
      assert s'.data.replies[n].0 == c;
    }
    AnswerFollows(s, e, s');
  }

  lemma QuietFollows(s: State, e: Event)
    requires Awaited(s.data) && !e.Inbound? && !e.ClientEvent?
    ensures Follows(s, e, Handle(s, e).0)
  {
    var s' := Handle(s, e).0;
    if e.ConnectTimeout? && s.status.Some? && s.status.value.Connecting? {
      StatusFollows(s, e, s', s.status.value.ret);
    } else {
      AnswerFollows(s, e, s');
    }
  }

  /** The accounts balance: accepted callers wait, have an answer, or were let go. */
  ghost predicate Accounted(s: State, accepted: set<Caller>, letGo: set<Caller>) {
    && Awaited(s.data)
    && letGo <= accepted
    && (forall id, c: Caller :: At(s, InPublish(id), c) ==> c in accepted)
    && (forall c: Caller :: c in letGo ==> !Somewhere(s, c))
    && (forall c: Caller :: c in accepted && c !in letGo ==> Flying(s, c) || Replied(s, c))
    && (forall c: Caller :: c in accepted ==> c < s.data.callers)
  }

  lemma AccountStep(s: State, e: Event, accepted: set<Caller>, letGo: set<Caller>)
    requires OnePlace(s) && Accounted(s, accepted, letGo)
    ensures Accounted(Handle(s, e).0, accepted + AcceptedBy(s, e), letGo + LetGoBy(s, e))
  {
    var s' := Handle(s, e).0;
    StepFollows(s, e);
    OnePlaceStep(s, e);
    CallersGrow(s, e);
    AcceptedIsNew(s, e);
    forall c: Caller | c in letGo ensures !Somewhere(s', c) {}
    forall c: Caller | c in LetGoBy(s, e) ensures c in accepted {
      assert At(s, InPublish(if AcceptedBy(s, e) != {} then NextId(s.data) else e.packet.id), c);
    }
  }

  lemma FlowCallers(d: Data, p: Message, remove: RemoveResult, append: AppendResult)
    ensures FlowStep(d, p, remove, append).0.callers == d.callers
  {
    if p.SubAckMsg? { SubAckFrame(d, p.id, p.codes); }
  }

  lemma CallersGrow(s: State, e: Event)
    ensures Handle(s, e).0.data.callers >= s.data.callers
  {
    if e.Inbound? {
      if Active(s.status) && IsFlow(e.packet) {
        FlowEvent(s, e);
        FlowCallers(s.data, e.packet, e.remove, e.append);
      }
    } else if e.ClientEvent? {
      RequestFrame(NewCaller(s.data).0, e.request, s.data.callers);
    }
  }

  lemma AcceptedIsNew(s: State, e: Event)
    ensures AcceptedBy(s, e) != {} ==> Handle(s, e).0.data.callers == s.data.callers + 1
  {
  }

  lemma {:induction false} AccountsHold(es: seq<Event>)
    ensures OnePlace(After(UNCONNECTED, es))
    ensures Accounted(After(UNCONNECTED, es), Accepted(UNCONNECTED, es), LetGo(UNCONNECTED, es))
    decreases |es|
  {
    AnsweredOnce(None, es);
    if es != [] {
      AccountsHold(Front(es));
      AccountStep(After(UNCONNECTED, Front(es)), Last(es), Accepted(UNCONNECTED, Front(es)), LetGo(UNCONNECTED, Front(es)));
    }
  }

  // ------------------------------------------------------------ main result

  function FlyingSet(d: Data): set<Caller> {
    set id | id in d.clientPublishState && !d.clientPublishState[id].Received? && d.clientPublishState[id].sender.Some?
      :: d.clientPublishState[id].sender.value
  }

  function AnsweredSet(d: Data): set<Caller> { set i | 0 <= i < |d.replies| :: d.replies[i].0 }

  /**
   In every run, whatever fails or panics, the callers of accepted publishes are those in
   flight, those answered, and those let go of, and no caller is two of these.
   */
  lemma RepliesConserved(es: seq<Event>, d: Data, accepted: set<Caller>, gone: set<Caller>)
    requires After(UNCONNECTED, es).data == d
    requires accepted == Accepted(UNCONNECTED, es) && gone == LetGo(UNCONNECTED, es)
    ensures var flying, answered := FlyingSet(d), AnsweredSet(d) * accepted;
      && accepted == flying + answered + gone
      && flying * answered == {} && (flying + answered) * gone == {}
      && |accepted| == |flying| + |answered| + |gone|
  {
    AccountsHold(es);
    forall c: Caller ensures
        && (c in accepted <==> c in FlyingSet(d) || (c in AnsweredSet(d) && c in accepted) || c in gone)
        && !(c in FlyingSet(d) && c in AnsweredSet(d))
        && (c in gone ==> c !in FlyingSet(d) && c !in AnsweredSet(d))
    {
      OneFate(After(UNCONNECTED, es), accepted, gone, c);
    }
    Partition(accepted, FlyingSet(d), AnsweredSet(d) * accepted, gone);
  }

  function Unremoved(s: State, es: seq<Event>): set<Caller>
    decreases |es|
  {
    if es == [] then {} else Unremoved(s, Front(es)) + UnremovedBy(After(s, Front(es)), Last(es))
  }

  lemma WrongStatePanics(s: State, e: Event)
    requires AcksPublish(s, e) && WrongState(s.data, e.packet)
    ensures PacketPanics(s, e)
  {
    FlowEvent(s, e);
  }

  /** With distinct identifiers and no panic, a key that cannot be removed is the only reason to let go. */
  lemma {:induction false} OnlyRemovalsLetGo(s: State, es: seq<Event>)
    requires DistinctRun(s, es) && NoPacketPanics(s, es)
    ensures LetGo(s, es) == Unremoved(s, es)
    decreases |es|
  {
    if es != [] {
      OnlyRemovalsLetGo(s, Front(es));
      var t, e := After(s, Front(es)), Last(es);
      if AcksPublish(t, e) && WrongState(t.data, e.packet) { WrongStatePanics(t, e); }
      assert OverwrittenBy(t, e) == {} && PanickedBy(t, e) == {};
    }
  }

  lemma Partition(all: set<Caller>, a: set<Caller>, b: set<Caller>, c: set<Caller>)
    requires forall x :: x in all <==> x in a || x in b || x in c
    requires forall x :: !(x in a && x in b) && !((x in a || x in b) && x in c)
    ensures all == a + b + c && a * b == {} && (a + b) * c == {}
    ensures |all| == |a| + |b| + |c|
  {
    assert all == a + b + c;
    assert |a + b + c| == |a + b| + |c|;
  }

  lemma OneFate(s: State, accepted: set<Caller>, gone: set<Caller>, c: Caller)
    requires OnePlace(s) && Accounted(s, accepted, gone)
    ensures c in accepted <==> c in FlyingSet(s.data) || (c in AnsweredSet(s.data) && c in accepted) || c in gone
    ensures !(c in FlyingSet(s.data) && c in AnsweredSet(s.data))
    ensures c in gone ==> c !in FlyingSet(s.data) && c !in AnsweredSet(s.data)
  {
    SetsAgree(s, c);
    if Flying(s, c) {
      var id :| At(s, InPublish(id), c);
      assert Somewhere(s, c);
      if Replied(s, c) { var n :| At(s, Answered(n), c); }
    }
    if Replied(s, c) {
      var n :| At(s, Answered(n), c);
      assert Somewhere(s, c);
    }
  }

  lemma SetsAgree(s: State, c: Caller)
    ensures c in FlyingSet(s.data) <==> Flying(s, c)
    ensures c in AnsweredSet(s.data) <==> Replied(s, c)
  {
    if c in FlyingSet(s.data) {
      var id :| id in s.data.clientPublishState && !s.data.clientPublishState[id].Received?
        && s.data.clientPublishState[id].sender == Some(c);
      assert At(s, InPublish(id), c);
    }
    if c in AnsweredSet(s.data) {
      var i :| 0 <= i < |s.data.replies| && s.data.replies[i].0 == c;
      assert At(s, Answered(i), c);
    }
  }
}
