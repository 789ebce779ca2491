/** What comes out of each event: the packet sent, the answer, and the next status. */
module Outcomes {
  import opened Prelude
  import opened Packets
  import opened LoopModel
  import opened Replies
  import opened Fate
  import opened StatusRuns
  import opened Subscriptions

  // ------------------------------------------------------------ packets from the server

  /** The client's part in section 4.3 of MQTT 3.1.1: what it sends on receiving a packet. */
  function Acknowledgement(s: State, e: Event): Option<Message>
    requires e.Inbound?
  {
    if !Active(s.status) then None
    else match e.packet
      case PublishMsg(qos, _, id, _, _) =>
        if s.status != Some(Connected) || qos == QoS0 then None
        else if qos == QoS1 then Some(PubAckMsg(id))
        else if id in s.data.serverPublishState then None
        else Some(PubRecMsg(id))
      case PubRecMsg(id) =>
        if id in s.data.clientPublishState && s.data.clientPublishState[id].Sent? && e.remove.Removed? && e.append.Appended?
        then Some(PubRelMsg(id)) else None
      case PubRelMsg(id) => if id in s.data.serverPublishState then Some(PubCompMsg(id)) else None
      case _ => None
  }

  /** What is wrong with a packet: an identifier in use or unknown, a filter, or the store. */
  function Complaint(s: State, e: Event): Option<ErrorKind>
    requires e.Inbound?
  {
    if !Active(s.status) then None
    else
      var d := s.data;
      match e.packet
      case PublishMsg(qos, _, id, _, _) =>
        if s.status == Some(Connected) && qos == QoS2 && id in d.serverPublishState then Some(QualityOfServiceError) else None
      case PubAckMsg(id) =>
        if id !in d.clientPublishState then Some(UnexpectedResponse(PubAck)) else StoreComplaint(e.remove.Removed?)
      case PubCompMsg(id) =>
        if id !in d.clientPublishState then Some(UnexpectedResponse(PubComp)) else StoreComplaint(e.remove.Removed?)
      case PubRecMsg(id) =>
        if id !in d.clientPublishState then Some(UnexpectedResponse(PubRec))
        else StoreComplaint(e.remove.Removed? && e.append.Appended?)
      case PubRelMsg(id) => if id !in d.serverPublishState then Some(UnexpectedResponse(PubRel)) else None
      case SubAckMsg(id, codes) =>
        if SubscribeKey(id) !in d.oneTime then Some(UnexpectedResponse(SubAck))
        else if d.oneTime[SubscribeKey(id)].0.SubscribeMsg? && SomeBad(d.oneTime[SubscribeKey(id)].0.subs, codes)
        then Some(InvalidTopicFilter) else None
      case UnsubAckMsg(id) => if UnsubscribeKey(id) !in d.oneTime then Some(UnexpectedResponse(UnsubAck)) else None
      case _ => None
  }

  function StoreComplaint(ok: bool): Option<ErrorKind> { if ok then None else Some(PersistenceError) }

  /** What a handler hands back, for what it finds wrong and what it is to send. */
  function HandsBack(complaint: Option<ErrorKind>, packet: Option<Message>): Result {
    if complaint.Some? then Err(complaint.value) else Send(packet)
  }

  lemma PublishVerdict(s: State, e: Event)
    requires e.Inbound? && e.packet.PublishMsg? && s.status == Some(Connected)
    ensures PublishStep(s.data, e.packet).1 == HandsBack(Complaint(s, e), Acknowledgement(s, e))
  {
  }

  lemma AckVerdict(s: State, e: Event)
    requires AcksPublish(s, e) && !WrongState(s.data, e.packet)
    ensures FlowStep(s.data, e.packet, e.remove, e.append).1 == HandsBack(Complaint(s, e), Acknowledgement(s, e))
  {
  }

  lemma FlowVerdict(s: State, e: Event)
    requires e.Inbound? && Active(s.status) && IsFlow(e.packet) && Kinds(s.data)
    requires FlowStep(s.data, e.packet, e.remove, e.append).1 != Panicked
    ensures FlowStep(s.data, e.packet, e.remove, e.append).1 == HandsBack(Complaint(s, e), Acknowledgement(s, e))
  {
    FlowPanicsIff(s.data, e.packet, e.remove, e.append);
    if AcksPublish(s, e) {
      AckVerdict(s, e);
    } else if e.packet.SubAckMsg? {
      SubAckVerdict(s.data, e.packet.id, e.packet.codes);
    }
  }

  lemma SubAckVerdict(d: Data, id: u16, codes: seq<SubAckReturnCode>)
    requires SubscribeKey(id) in d.oneTime ==> d.oneTime[SubscribeKey(id)].0.SubscribeMsg?
    ensures SubAckStep(d, id, codes).1 ==
      if SubscribeKey(id) !in d.oneTime then Err(UnexpectedResponse(SubAck))
      else if SomeBad(d.oneTime[SubscribeKey(id)].0.subs, codes) then Err(InvalidTopicFilter)
      else Send(None)
  {
    if SubscribeKey(id) in d.oneTime {
      SubAckLoopFailsIff(d.(oneTime := d.oneTime - {SubscribeKey(id)}), d.oneTime[SubscribeKey(id)].0.subs, codes, []);
    }
  }

  /**
   In every reachable state a packet that does not panic is complained about or acknowledged, as
   the protocol and the store decide, and nothing else is sent.
   */
  lemma InboundOutcome(status: Option<LoopStatus>, es: seq<Event>, s: State, e: Event)
    requires s == After(State(status, NEW_DATA), es) && e.Inbound? && !PacketPanics(s, e)
    ensures Handle(s, e).1 == Conclude(HandsBack(Complaint(s, e), Acknowledgement(s, e)), Empty, e.sendOk)
  {
    KindsHold(status, es);
    if Active(s.status) && IsFlow(e.packet) {
      FlowEvent(s, e);
      FlowVerdict(s, e);
    } else if s.status == Some(Connected) && e.packet.PublishMsg? {
      PublishVerdict(s, e);
    } else {
      QuietOutcome(s, e);
    }
  }

  lemma QuietOutcome(s: State, e: Event)
    requires e.Inbound? && !(Active(s.status) && IsFlow(e.packet)) && !(s.status == Some(Connected) && e.packet.PublishMsg?)
    requires !PacketPanics(s, e)
    ensures Handle(s, e).1 == Outcome(None, Empty) && Complaint(s, e) == None && Acknowledgement(s, e) == None
  {
  }

  /** While connected, a QoS 1 publish is acknowledged and a new QoS 2 publish received. */
  lemma PublishAcknowledged(s: State, m: Message, remove: RemoveResult, append: AppendResult)
    requires s.status == Some(Connected) && m.PublishMsg? && (m.qos == QoS2 ==> m.id !in s.data.serverPublishState)
    ensures Handle(s, Inbound(m, remove, append, true)).1 == Outcome(
      if m.qos == QoS0 then None else if m.qos == QoS1 then Some(PubAckMsg(m.id)) else Some(PubRecMsg(m.id)), Empty)
  {
    PublishVerdict(s, Inbound(m, remove, append, true));
  }

  // ------------------------------------------------------------ requests

  /** A publish goes out as it was asked, at QoS 1 and 2 under the next identifier and stored as it goes out. */
  lemma PublishOutcome(s: State, r: Request, ok: bool)
    requires s.status == Some(Connected) && r.PublishRequest?
    ensures var (s', o) := Handle(s, ClientEvent(r, ok)); var n := NextId(s.data);
      var m := PublishMsg(r.qos, r.retain, if r.qos == QoS0 then 0 else n, r.topic, r.payload);
      && s'.status == s.status
      && o == (if r.qos != QoS0 && r.append.AppendFailed? then Outcome(None, Fail(PersistenceError))
               else if ok then Outcome(Some(m), Future(s.data.callers)) else Outcome(None, Fail(LoopError)))
      && s'.data.clientPublishState == (if r.qos == QoS0 || r.append.AppendFailed? then s.data.clientPublishState
               else s.data.clientPublishState[n := Sent(r.append.key, Some(s.data.callers))])
      && (r.qos != QoS0 && r.append.Appended? ==> s'.data.persistence == s.data.persistence[r.append.key := m])
      && (r.qos == QoS0 ==> s'.data.persistence == s.data.persistence)
      && s'.data.nextPacketId == s.data.nextPacketId + (if r.qos == QoS0 then 0 else 1)
  {
  }

  /** A caller of a ping waits, and a PINGREQ goes out for the first only. */
  lemma PingOutcome(s: State, ok: bool)
    requires s.status == Some(Connected)
    ensures var (s', o) := Handle(s, ClientEvent(PingRequest, ok));
      && s'.data.pingSubs == s.data.pingSubs + [s.data.callers] && s'.status == s.status
      && o == if s.data.pingSubs != [] then Outcome(None, Future(s.data.callers))
              else if ok then Outcome(Some(PingReqMsg), Future(s.data.callers)) else Outcome(None, Fail(LoopError))
  {
  }

  /** So it is with a keep-alive while the loop is in use; otherwise nothing happens. */
  lemma KeepAliveOutcome(s: State, ok: bool)
    ensures Active(s.status) ==> var (s', o) := Handle(s, KeepAlive(ok));
      && s'.data.pingSubs == s.data.pingSubs + [s.data.callers] && s'.status == s.status
      && o == if s.data.pingSubs != [] then Outcome(None, Empty)
              else if ok then Outcome(Some(PingReqMsg), Empty) else Outcome(None, Fail(LoopError))
    ensures !Active(s.status) ==> Handle(s, KeepAlive(ok)) == (s, Outcome(None, Empty))
  {
  }

  /** An UNSUBACK is told to the caller of the request, whose topics leave the table. */
  lemma UnsubAckOutcome(s: State, id: u16, remove: RemoveResult, append: AppendResult, ok: bool)
    requires Active(s.status) && UnsubscribeKey(id) in s.data.oneTime && s.data.oneTime[UnsubscribeKey(id)].0.UnsubscribeMsg?
    ensures var (s', o) := Handle(s, Inbound(UnsubAckMsg(id), remove, append, ok)); var (m, c) := s.data.oneTime[UnsubscribeKey(id)];
      && o == Outcome(None, Empty) && GivesAnswer(s, s', c, Onetime)
      && forall t :: t in s'.data.subscriptions <==> t in s.data.subscriptions && t !in m.topics
  {
    FlowEvent(s, Inbound(UnsubAckMsg(id), remove, append, ok));
  }

  /** A text of ASCII characters fits if it has at most 65535 of them. */
  lemma {:induction false} AsciiLength(s: string)
    requires forall i | 0 <= i < |s| :: s[i] as int < 0x80
    ensures Utf8Length(s) == |s|
    ensures FitsMqttString(s) <==> |s| <= 65535
  {
    if s != [] {
      forall i | 0 <= i < |s[1..]| ensures s[1..][i] as int < 0x80 { assert s[1..][i] == s[i + 1]; }
      AsciiLength(s[1..]);
    }
  }

  /** Other characters take two to four bytes. */
  lemma CharLengths(c: char)
    ensures Utf8Length([c]) == if c as int < 128 then 1 else if c as int < 2048 then 2 else if c as int < 65536 then 3 else 4
  {
    assert [c][1..] == [];
  }

  /** A filter too long fails the request, which leaves nothing on the table but has used up an identifier. */
  lemma TooLongOutcome(s: State, r: Request, ok: bool)
    requires s.status == Some(Connected) && (r.SubscribeRequest? || r.UnsubscribeRequest?)
    requires RequestBy(s, ClientEvent(r, ok)) == map[]
    ensures var (s', o) := Handle(s, ClientEvent(r, ok));
      && o == Outcome(None, Fail(StringConversionError)) && s'.data.oneTime == s.data.oneTime
      && s'.data.nextPacketId == s.data.nextPacketId + 1
  {
    if r.SubscribeRequest? {
      TopicsFit(r.subs);
      assert TextsFit(Topics(r.subs)) ==> SubscribeKey(NextId(s.data)) in RequestBy(s, ClientEvent(r, ok));
    } else {
      assert TextsFit(r.topics) ==> UnsubscribeKey(NextId(s.data)) in RequestBy(s, ClientEvent(r, ok));
    }
  }

  /** Out of Connected nothing is served. */
  lemma UnavailableOutcome(s: State, r: Request, ok: bool)
    requires s.status.Some? && !s.status.value.Connected? && !s.status.value.PendingError?
    ensures Handle(s, ClientEvent(r, ok)) == (s, Outcome(None, Fail(ClientUnavailable)))
  {
  }

  /** The request that is told a pending error leaves a loop that never connects again. */
  lemma PendingRequestIsLast(s: State, r: Request, ok: bool, es: seq<Event>)
    requires IsPending(s)
    ensures var (s', o) := Handle(s, ClientEvent(r, ok));
      o == Outcome(None, Fail(s.status.value.error)) && After(s', es) == s' && s'.status == Some(Disconnected)
  {
    DisconnectedForEver(Handle(s, ClientEvent(r, ok)).0, es);
  }

  // ------------------------------------------------------------ connecting

  /** A Connect is sent if nothing is going on, and its channel waits in the status. */
  lemma ConnectOutcome(s: State, ok: bool)
    ensures s.status == None ==> var (s', o) := Handle(s, ConnectEvent(ok));
      if ok then o == Outcome(Some(ConnectMsg), Future(s.data.callers)) && s'.status == Some(Connecting(s.data.callers))
      else o == Outcome(None, Fail(LoopError)) && s'.status == None
    ensures s.status == Some(Connected) ==> Handle(s, ConnectEvent(ok)) == (s, Outcome(None, Fail(AlreadyConnected)))
    ensures IsPending(s) ==>
      Handle(s, ConnectEvent(ok)) == (s.(status := None), Outcome(None, Fail(s.status.value.error)))
    ensures s.status.Some? && !s.status.value.Connected? && !IsPending(s) ==>
      Handle(s, ConnectEvent(ok)) == (s, Outcome(None, Fail(ClientUnavailable)))
  {
  }

  /** The one answer that a CONNACK gives. */
  predicate GivesAnswer(s: State, s': State, c: Caller, r: Reply) { s'.data.replies == s.data.replies + [(c, r)] }

  /** A CONNACK is answered to the caller of the Connect; a refusal is for good, a kept session gets a channel. */
  lemma ConnAckOutcome(s: State, e: Event)
    requires IsConnecting(s.status) && e.Inbound? && e.packet.ConnAckMsg?
    ensures var s', c := Handle(s, e).0, s.status.value.ret;
      && Handle(s, e).1 == Outcome(None, Empty)
      && (e.packet.code != 0 ==>
        s'.status == Some(Disconnected) && GivesAnswer(s, s', c, Failed(ConnectionRefused(e.packet.code))))
      && (e.packet.code == 0 && e.packet.clean ==>
        s'.status == Some(Connected) && GivesAnswer(s, s', c, Onetime) && s'.data.streams == s.data.streams)
      && (e.packet.code == 0 && !e.packet.clean ==>
        && s'.status == Some(Connected) && GivesAnswer(s, s', c, Ongoing([Stream(|s.data.streams|, QoS0)]))
        && s'.data.streams == s.data.streams + [[]] && s'.data.sessionSubs == Some(|s.data.streams|))
  {
  }

  /** In other states a CONNACK changes nothing; while connected it panics. */
  lemma StrayConnAck(s: State, e: Event)
    requires !IsConnecting(s.status) && e.Inbound? && e.packet.ConnAckMsg?
    ensures Handle(s, e) == (s, Outcome(None, if s.status == Some(Connected) then Panic else Empty))
  {
  }

  /** A connect timeout matters only while connecting, or if an error is pending. */
  lemma StrayConnectTimeout(s: State)
    requires !IsConnecting(s.status) && !IsPending(s)
    ensures Handle(s, ConnectTimeout) == (s, Outcome(None, Empty))
  {
  }

  /** Nothing comes of a disconnect timeout. */
  lemma DisconnectTimeoutOutcome(s: State)
    ensures Handle(s, DisconnectTimeout) == (s, Outcome(None, Empty))
  {
  }

  /** A connect timeout is told to the caller of the Connect. */
  lemma ConnectTimeoutOutcome(s: State)
    requires IsConnecting(s.status)
    ensures var (s', o) := Handle(s, ConnectTimeout);
      && s'.status == None && o == Outcome(None, Empty)
      && GivesAnswer(s, s', s.status.value.ret, Failed(ResponseTimeout(Connect)))
  {
  }

  /** A ping timeout makes its error pending, unless the loop is disconnected or has one already. */
  lemma PingTimeoutOutcome(s: State)
    ensures Handle(s, PingTimeout) == (
      if s.status == Some(Disconnected) || IsPending(s) then s
      else s.(status := Some(PendingError(ResponseTimeout(PingReq)))), Outcome(None, Empty))
  {
  }

  /** It drops the caller of a Connect or Disconnect that waits in the status, and no other. */
  lemma PingTimeoutDrops(s: State, c: Caller)
    requires OnePlace(s)
    ensures var s' := Handle(s, PingTimeout).0;
      (Somewhere(s, c) && !Somewhere(s', c)) <==> At(s, InStatus, c)
  {
    var s' := Handle(s, PingTimeout).0;
    if At(s, InStatus, c) {
      forall p: Place ensures !At(s', p, c) { assert At(s', p, c) ==> At(s, p, c); }
    } else if Somewhere(s, c) {
      var p :| At(s, p, c);
      assert At(s', p, c);
    }
  }

  // ------------------------------------------------------------ disconnecting

  /**
   A disconnect that waits sends nothing and leaves the loop in use; one that does not sends
   DISCONNECT and takes the loop out of use. Its channel is then in the status.
   */
  lemma DisconnectOutcome(s: State, wait: bool, ok: bool)
    requires s.status == Some(Connected)
    ensures var (s', o) := Handle(s, DisconnectEvent(wait, ok));
      && At(s', InStatus, s.data.callers)
      && (Active(s'.status) <==> wait)
      && (wait ==> o == Outcome(None, Future(s.data.callers)))
      && (!wait && ok ==> o == Outcome(Some(DisconnectMsg), Future(s.data.callers)))
      && (!wait && !ok ==> o == Outcome(None, Fail(LoopError)))
  {
  }

  lemma NoDisconnectOutcome(s: State, wait: bool, ok: bool)
    requires s.status.Some? && s.status != Some(Connected)
    ensures Handle(s, DisconnectEvent(wait, ok)) ==
      if IsPending(s) then (s.(status := None), Outcome(None, Fail(s.status.value.error)))
      else (s, Outcome(None, Fail(ClientUnavailable)))
  {
  }
}
