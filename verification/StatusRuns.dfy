/** The status of the loop over whole runs. */
module StatusRuns {
  import opened Prelude
  import opened LoopModel
  import opened Fate

  // ------------------------------------------------------------ where Connected comes from

  /** A Connect that the loop takes on. */
  predicate AcceptsConnect(s: State, e: Event) { e.ConnectEvent? && e.sendOk && s.status == None }

  /** The server's yes to a Connect. */
  predicate AcceptsConnAck(s: State, e: Event) {
    && e.Inbound? && e.packet.ConnAckMsg? && e.packet.code == 0
    && s.status.Some? && s.status.value.Connecting?
  }

  function StatusAt(s: State, es: seq<Event>, i: nat): Option<LoopStatus>
    requires i <= |es|
  {
    After(s, es[..i]).status
  }

  lemma StepAt(s: State, es: seq<Event>, i: nat)
    requires i < |es|
    ensures After(s, es[..i + 1]) == Handle(After(s, es[..i]), es[i]).0
  {
    assert Front(es[..i + 1]) == es[..i] && Last(es[..i + 1]) == es[i];
  }

  predicate IsConnecting(status: Option<LoopStatus>) { status.Some? && status.value.Connecting? }

  /** A Connect at `i` is what the loop has been busy with up to `k`. */
  ghost predicate BusyConnecting(s: State, es: seq<Event>, i: nat, k: nat) {
    && i < k <= |es|
    && AcceptsConnect(After(s, es[..i]), es[i])
    && forall m | i < m <= k :: IsConnecting(StatusAt(s, es, m))
  }

  /** Connecting is entered by an accepted Connect only. */
  lemma {:induction false} ConnectingSince(s: State, es: seq<Event>, k: nat) returns (i: nat)
    requires !IsConnecting(s.status) && k <= |es| && IsConnecting(StatusAt(s, es, k))
    ensures BusyConnecting(s, es, i, k)
  {
    assert es[..0] == [];
    i := 0;
    if k > 0 {
      StepAt(s, es, k - 1);
      if IsConnecting(StatusAt(s, es, k - 1)) {
        i := ConnectingSince(s, es, k - 1);
      } else {
        i := k - 1;
      }
    }
  }

  /** Connected is entered by an accepting CONNACK only. */
  lemma EntersConnected(s: State, e: Event)
    requires s.status != Some(Connected) && Handle(s, e).0.status == Some(Connected)
    ensures AcceptsConnAck(s, e)
  {
  }

  /**
   Each stay in Connected begins with an accepting CONNACK, and between the Connect it
   answers and that CONNACK the loop did nothing but wait for it.
   */
  lemma ConnectedHasItsConnect(s: State, es: seq<Event>, k: nat) returns (i: nat)
    requires s.status == None || s.status == Some(Disconnected)
    requires k < |es| && StatusAt(s, es, k) != Some(Connected) && StatusAt(s, es, k + 1) == Some(Connected)
    ensures AcceptsConnAck(After(s, es[..k]), es[k])
    ensures BusyConnecting(s, es, i, k)
  {
    StepAt(s, es, k);
    EntersConnected(After(s, es[..k]), es[k]);
    i := ConnectingSince(s, es, k);
  }

  // ------------------------------------------------------------ no way out of Disconnected

  /** From Disconnected nothing leads anywhere, so a loop made by `local` never connects. */
  lemma {:induction false} DisconnectedForEver(s: State, es: seq<Event>)
    requires s.status == Some(Disconnected)
    ensures After(s, es) == s
    decreases |es|
  {
    if es != [] { DisconnectedForEver(s, Front(es)); }
  }

  /** A loop can be brought to Connected if and only if it does not sit in Disconnected. */
  lemma ConnectableIff(s: State)
    ensures (exists es :: After(s, es).status == Some(Connected)) <==> s.status != Some(Disconnected)
  {
    if s.status == Some(Disconnected) {
      forall es ensures After(s, es).status != Some(Connected) { DisconnectedForEver(s, es); }
    } else {
      var es := Reconnects(s);
    }
  }

  lemma ThenHandle(s: State, es: seq<Event>, e: Event, t: State)
    requires t == After(s, es)
    ensures After(s, es + [e]) == Handle(t, e).0
  {
    assert Front(es + [e]) == es && Last(es + [e]) == e;
  }

  /** A timeout makes an error pending, a Connect takes it, and two more steps connect. */
  lemma Reconnects(s: State) returns (es: seq<Event>)
    requires s.status != Some(Disconnected)
    ensures After(s, es).status == Some(Connected)
  {
    var connect, yes := ConnectEvent(true), Inbound(ConnAckMsg(0, true), Removed, AppendFailed(None), true);
    var s1 := Handle(s, PingTimeout).0;
    var s2 := Handle(s1, connect).0;
    var s3 := Handle(s2, connect).0;
    ThenHandle(s, [], PingTimeout, s);
    ThenHandle(s, [] + [PingTimeout], connect, s1);
    ThenHandle(s, [] + [PingTimeout] + [connect], connect, s2);
    ThenHandle(s, [] + [PingTimeout] + [connect] + [connect], yes, s3);
    es := [] + [PingTimeout] + [connect] + [connect] + [yes];
  }

  // ------------------------------------------------------------ errors are reported once

  predicate IsPending(s: State) { s.status.Some? && s.status.value.PendingError? }

  /** The event makes an error pending. */
  predicate Raises(s: State, e: Event) { !IsPending(s) && IsPending(Handle(s, e).0) }

  /** The pending error is handed out as the answer to the event. */
  predicate Reports(s: State, e: Event) {
    IsPending(s) && Handle(s, e).1.response == Fail(s.status.value.error)
  }

  /** Someone who asked for something gets it. */
  predicate Tells(s: State, e: Event) { Reports(s, e) && (e.ConnectEvent? || e.ClientEvent? || e.DisconnectEvent?) }

  /** A timer's own notification gets it, and nobody hears of it. */
  predicate Swallows(s: State, e: Event) { IsPending(s) && e.ConnectTimeout? }

  function Raised(s: State, es: seq<Event>): nat
    decreases |es|
  {
    if es == [] then 0
    else Raised(s, Front(es)) + (if Raises(After(s, Front(es)), Last(es)) then 1 else 0)
  }

  function Told(s: State, es: seq<Event>): nat
    decreases |es|
  {
    if es == [] then 0
    else Told(s, Front(es)) + (if Tells(After(s, Front(es)), Last(es)) then 1 else 0)
  }

  function Swallowed(s: State, es: seq<Event>): nat
    decreases |es|
  {
    if es == [] then 0
    else Swallowed(s, Front(es)) + (if Swallows(After(s, Front(es)), Last(es)) then 1 else 0)
  }

  /** A pending error stays as it is until it is told or swallowed, and then it is gone. */
  lemma PendingStep(s: State, e: Event)
    requires IsPending(s)
    ensures Reports(s, e) <==> !IsPending(Handle(s, e).0)
    ensures !Reports(s, e) ==> Handle(s, e).0 == s
    ensures Reports(s, e) <==> Tells(s, e) || Swallows(s, e)
    ensures !(Tells(s, e) && Swallows(s, e))
  {
  }

  /** Every pending error is told once, or swallowed by a connect timeout, or still pending. */
  lemma {:induction false} ErrorsConserved(s: State, es: seq<Event>)
    requires !IsPending(s)
    ensures Raised(s, es) == Told(s, es) + Swallowed(s, es) + (if IsPending(After(s, es)) then 1 else 0)
    decreases |es|
  {
    if es != [] {
      ErrorsConserved(s, Front(es));
      var t := After(s, Front(es));
      if IsPending(t) { PendingStep(t, Last(es)); }
    }
  }

  // ------------------------------------------------------------ panics

  /** Outside the packet handlers, `unreachable!()` is reached exactly by a request without status. */
  lemma RequestPanicsIff(s: State, e: Event)
    requires e.ClientEvent? || e.DisconnectEvent?
    ensures Handle(s, e).1.response == Panic <==> s.status == None
  {
  }

  /** The status can become empty again: a Connect that times out leaves none. */
  lemma TimeoutEmptiesStatus(s: State)
    requires IsConnecting(s.status)
    ensures Handle(s, ConnectTimeout).0.status == None
    ensures Handle(Handle(s, ConnectTimeout).0, DisconnectEvent(true, true)).1.response == Panic
  {
  }

  /** What is kept for an answer is of the kind that its key says, and what is held is a publish. */
  predicate Kinds(d: Data) {
    && (forall key | key in d.oneTime ::
      if key.SubscribeKey? then d.oneTime[key].0.SubscribeMsg? else d.oneTime[key].0.UnsubscribeMsg?)
    && (forall id | id in d.serverPublishState ::
      d.serverPublishState[id].Received? && d.serverPublishState[id].packet.PublishMsg?)
  }

  lemma FlowKinds(d: Data, p: Message, remove: RemoveResult, append: AppendResult)
    requires Kinds(d)
    ensures Kinds(FlowStep(d, p, remove, append).0)
  {
    match p
    case PubAckMsg(id) => AckFrame(d, id, remove);
    case PubRecMsg(id) => RecFrame(d, id, remove, append);
    case PubCompMsg(id) => CompFrame(d, id, remove);
    case PubRelMsg(id) => PubRelFrame(d, id);
    case SubAckMsg(id, codes) => SubAckFrame(d, id, codes);
    case _ =>
  }

  lemma RequestKinds(d: Data, r: Request, c: Caller)
    requires Kinds(d)
    ensures Kinds(RequestStep(d, r, c).0)
  {
    if r.PublishRequest? { ClientPublishFrame(d, r, c); }
  }

  lemma KindsStep(s: State, e: Event)
    requires Kinds(s.data)
    ensures Kinds(Handle(s, e).0.data)
  {
    if e.Inbound? {
      InboundKinds(s, e.packet, e.remove, e.append, e.sendOk);
    } else if e.ClientEvent? {
      RequestKinds(NewCaller(s.data).0, e.request, s.data.callers);
    }
  }

  lemma InboundKinds(s: State, p: Message, remove: RemoveResult, append: AppendResult, ok: bool)
    requires Kinds(s.data)
    ensures Kinds(HandleInbound(s, p, remove, append, ok).0.data)
  {
    FlowKinds(s.data, p, remove, append);
    if p.PublishMsg? { PublishKinds(s.data, p); }
  }

  lemma PublishKinds(d: Data, p: Message)
    requires Kinds(d) && p.PublishMsg?
    ensures Kinds(PublishStep(d, p).0)
  {
  }

  lemma {:induction false} KindsHold(status: Option<LoopStatus>, es: seq<Event>)
    ensures Kinds(After(State(status, NEW_DATA), es).data)
    decreases |es|
  {
    if es != [] {
      KindsHold(status, Front(es));
      KindsStep(After(State(status, NEW_DATA), Front(es)), Last(es));
    }
  }

  /** A packet that has no handler while connected: one that only a client sends, or a CONNACK. */
  predicate Unexpected(p: Message) { !p.PublishMsg? && !IsFlow(p) }

  lemma FlowPanicsIff(d: Data, p: Message, remove: RemoveResult, append: AppendResult)
    requires Kinds(d)
    ensures FlowStep(d, p, remove, append).1 == Panicked <==>
      (p.PubAckMsg? || p.PubRecMsg? || p.PubCompMsg?) && WrongState(d, p)
  {
  }

  /**
   In every reachable state, and whatever the server sends, a packet makes a handler panic exactly
   if it has none while connected, or acknowledges a publish in the wrong state.
   */
  lemma PacketPanicsIff(status: Option<LoopStatus>, es: seq<Event>, s: State, e: Event)
    requires s == After(State(status, NEW_DATA), es) && e.Inbound?
    ensures PacketPanics(s, e) <==>
      || (s.status == Some(Connected) && Unexpected(e.packet))
      || (AcksPublish(s, e) && WrongState(s.data, e.packet))
  {
    KindsHold(status, es);
    if Active(s.status) && IsFlow(e.packet) {
      FlowEvent(s, e);
      FlowPanicsIff(s.data, e.packet, e.remove, e.append);
    } else {
      QuietPanicsIff(s, e);
    }
  }

  lemma QuietPanicsIff(s: State, e: Event)
    requires e.Inbound? && !(Active(s.status) && IsFlow(e.packet))
    ensures PacketPanics(s, e) <==> s.status == Some(Connected) && Unexpected(e.packet)
  {
  }
}
