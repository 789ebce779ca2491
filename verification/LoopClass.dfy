/** The loop itself: its status, and the handlers of the messages it gets. */
module LoopClass {
  import opened Prelude
  import opened Packets
  import opened LoopModel
  import opened Handlers
  import opened Ledger
  import opened Replies
  import Fate
  import ExactlyOnce
  import Subscriptions

  /** What holds of a loop after the run `es`, whatever failed or panicked in it. */
  ghost predicate Sound(start: Option<LoopStatus>, es: seq<Event>, s: State) {
    var first := State(start, NEW_DATA);
    && OnePlace(s)
    && Subscriptions.TableIs(s.data, Subscriptions.History(first, es))
    && (GoodRun(first, es) ==> Balanced(s.data))
    && (GoodRun(first, es) && AllStoreSucceeds(es) && NoPacketPanics(first, es) ==> Exact(s.data))
    && (start == None ==> Fate.Accounted(s, Fate.Accepted(first, es), Fate.LetGo(first, es)))
    && forall id: u16 :: HeldOrReleased(first, es, s, id)
  }

  /** The QoS 2 publishes taken in under `id` were released, the one that is held apart. */
  predicate HeldOrReleased(first: State, es: seq<Event>, s: State, id: u16) {
    ExactlyOnce.Taken(first, es, id)
      == ExactlyOnce.Released(first, es, id) + (if id in s.data.serverPublishState then 1 else 0)
  }

  /** Every run is sound. */
  lemma SoundAlways(start: Option<LoopStatus>, es: seq<Event>, s: State)
    requires (start == None || start == Some(Disconnected)) && s == After(State(start, NEW_DATA), es)
    ensures Sound(start, es, s)
  {
    AnsweredOnce(start, es);
    Subscriptions.TableHolds(start, es);
    if GoodRun(State(start, NEW_DATA), es) { LedgerHolds(start, es); }
    if start == None { Fate.AccountsHold(es); }
    forall id: u16 ensures HeldOrReleased(State(start, NEW_DATA), es, s, id) {
      ExactlyOnce.TakenAndReleased(start, es, id);
    }
  }

  class Loop {
    var status: Option<LoopStatus>
    const data: LoopData
    // the status that the loop was made with, and the messages handled since
    ghost const start: Option<LoopStatus>
    ghost var trace: seq<Event>

    function View(): State
      reads this, data
    {
      State(status, data.View())
    }

    /** The state is what the messages handled so far make of the first one. */
    ghost predicate Valid()
      reads this, data
    {
      && (start == None || start == Some(Disconnected))
      && data.Valid()
      && View() == After(State(start, NEW_DATA), trace)
    }

    /** `Loop::local`. */
    constructor Local()
      ensures Valid() && fresh(data) && start == Some(Disconnected) && trace == []
      ensures View() == State(Some(Disconnected), NEW_DATA)
    {
      status, start, trace := Some(Disconnected), Some(Disconnected), [];
      data := new LoopData();
    }

    /** A loop that has not been asked to connect. */
    constructor Unconnected()
      ensures Valid() && fresh(data) && start == None && trace == [] && View() == UNCONNECTED
    {
      status, start, trace := None, None, [];
      data := new LoopData();
    }

    /** Sends what a handler handed back. */
    method Conclude(r: Result, ok: Response, sendOk: bool) returns (o: Outcome)
      ensures o == LoopModel.Conclude(r, ok, sendOk)
    {
      match r
      case Panicked => o := Outcome(None, Panic);
      case Err(e) => o := Outcome(None, Fail(e));
      case Send(None) => o := Outcome(None, ok);
      case Send(Some(p)) =>
        if !sendOk { return Outcome(None, Fail(LoopError)); }
        o := Outcome(Some(p), ok);
    }

    method HandleConnect(sendOk: bool) returns (o: Outcome)
      modifies this`status, data
      ensures (View(), o) == LoopModel.HandleConnect(old(View()), sendOk)
    {
      match status
      case Some(Connected) => o := Outcome(None, Fail(AlreadyConnected));
      case Some(PendingError(e)) =>
        status := None;
        o := Outcome(None, Fail(e));
      case Some(_) => o := Outcome(None, Fail(ClientUnavailable));
      case None =>
        var tx := data.Channel();
        if !sendOk { return Outcome(None, Fail(LoopError)); }
        status := Some(Connecting(tx));
        o := Outcome(Some(ConnectMsg), Future(tx));
    }

    method HandleConnectTimeout() returns (o: Outcome)
      modifies this`status, data
      ensures (View(), o) == LoopModel.HandleConnectTimeout(old(View()))
    {
      o := Outcome(None, Empty);
      match status
      case Some(Connecting(client)) =>
        status := None;
        data.Reply(client, Failed(ResponseTimeout(Connect)));
      case Some(PendingError(e)) =>
        status := None;
        o := Outcome(None, Fail(e));
      case _ =>
    }

    method HandleRequest(r: Request, sendOk: bool) returns (o: Outcome)
      modifies this`status, data
      ensures (View(), o) == LoopModel.HandleRequest(old(View()), r, sendOk)
    {
      match status
      case Some(Connected) =>
        var tx := data.Channel();
        var res;
        match r {
          case SubscribeRequest(subs) => res := SubscribeHandler(subs, tx, data);
          case UnsubscribeRequest(topics) => res := UnsubscribeHandler(topics, tx, data);
          case PingRequest => res := PingReqHandler(tx, data);
          case PublishRequest(_, _, _, _, _) => res := ClientPublishHandler(r, tx, data);
        }
        o := Conclude(res, Future(tx), sendOk);
      case Some(PendingError(e)) =>
        status := Some(Disconnected);
        o := Outcome(None, Fail(e));
      case Some(_) => o := Outcome(None, Fail(ClientUnavailable));
      case None => o := Outcome(None, Panic);
    }

    method HandleDisconnect(wait: bool, sendOk: bool) returns (o: Outcome)
      modifies this`status, data
      ensures (View(), o) == LoopModel.HandleDisconnect(old(View()), wait, sendOk)
    {
      match status
      case Some(Connected) =>
        var tx := data.Channel();
        if wait {
          status := Some(Disconnecting(tx, Waiting));
          return Outcome(None, Future(tx));
        }
        status := Some(Disconnecting(tx, Closing));
        o := if sendOk then Outcome(Some(DisconnectMsg), Future(tx)) else Outcome(None, Fail(LoopError));
      case Some(PendingError(e)) =>
        status := None;
        o := Outcome(None, Fail(e));
      case Some(_) => o := Outcome(None, Fail(ClientUnavailable));
      case None => o := Outcome(None, Panic);
    }

    method HandleKeepAlive(sendOk: bool) returns (o: Outcome)
      modifies this`status, data
      ensures (View(), o) == LoopModel.HandleKeepAlive(old(View()), sendOk)
    {
      if !Active(status) { return Outcome(None, Empty); }
      var tx := data.Channel();
      var res := PingReqHandler(tx, data);
      o := Conclude(res, Empty, sendOk);
    }

    method HandlePingTimeout() returns (o: Outcome)
      modifies this`status
      ensures (View(), o) == LoopModel.HandlePingTimeout(old(View()))
    {
      o := Outcome(None, Empty);
      match status
      case Some(Disconnected) =>
      case Some(PendingError(_)) =>
      case _ => status := Some(PendingError(ResponseTimeout(PingReq)));
    }

    /** The answer to a Connect. */
    method HandleConnAck(p: Message)
      requires p.ConnAckMsg? && status.Some? && status.value.Connecting?
      modifies this`status, data
      ensures View() == ConnAckStep(old(View()), p)
    {
      var client := status.value.ret;
      if p.code == 0 {
        if p.clean {
          data.Reply(client, Onetime);
        } else {
          var rx := data.Unbounded();
          data.sessionSubs := Some(rx);
          data.Reply(client, Ongoing([Stream(rx, QoS0)]));
        }
        status := Some(Connected);
      } else {
        data.Reply(client, Failed(ConnectionRefused(p.code)));
        status := Some(Disconnected);
      }
    }

    /** The packets served both while connected and while waiting to disconnect. */
    method HandleFlow(p: Message, remove: RemoveResult, append: AppendResult) returns (r: Result)
      requires data.Valid()
      modifies data
      ensures (data.View(), r) == FlowStep(old(data.View()), p, remove, append)
    {
      match p
      case PingRespMsg => r := PingRespHandler(data);
      case PubAckMsg(id) => r := PubAckHandler(id, remove, data);
      case PubCompMsg(id) => r := PubCompHandler(id, remove, data);
      case PubRecMsg(id) => r := PubRecHandler(id, remove, append, data);
      case PubRelMsg(id) => r := PubRelHandler(id, data);
      case SubAckMsg(id, codes) => r := SubAckHandler(id, codes, data);
      case UnsubAckMsg(id) => r := UnsubAckHandler(id, data);
      case _ => r := Send(None);
    }

    method HandleInbound(p: Message, remove: RemoveResult, append: AppendResult, sendOk: bool) returns (o: Outcome)
      requires data.Valid()
      modifies this`status, data
      ensures (View(), o) == LoopModel.HandleInbound(old(View()), p, remove, append, sendOk)
    {
      if status == Some(Connected) {
        var res;
        if p.PublishMsg? { res := PublishHandler(p, data); }
        else if IsFlow(p) { res := HandleFlow(p, remove, append); }
        else { res := Panicked; }
        o := Conclude(res, Empty, sendOk);
      } else if status.Some? && status.value.Connecting? {
        if p.ConnAckMsg? { HandleConnAck(p); }
        o := Outcome(None, Empty);
      } else if Active(status) {
        var res := HandleFlow(p, remove, append);
        o := Conclude(res, Empty, sendOk);
      } else {
        o := Outcome(None, Empty);
      }
    }

    /** Every message that reaches the loop does what the state machine says. */
    method Take(e: Event) returns (o: Outcome)
      requires Valid()
      modifies this`status, this`trace, data
      ensures (View(), o) == LoopModel.Handle(old(View()), e)
      ensures Valid() && trace == old(trace) + [e]
    {
      HandleOwn(View(), e);
      ghost var s := View();
      match e {
        case ConnectEvent(ok) => o := HandleConnect(ok);
        case ConnectTimeout => o := HandleConnectTimeout();
        case ClientEvent(r, ok) => o := HandleRequest(r, ok);
        case DisconnectEvent(wait, ok) => o := HandleDisconnect(wait, ok);
        case DisconnectTimeout => o := Outcome(None, Empty);
        case KeepAlive(ok) => o := HandleKeepAlive(ok);
        case PingTimeout => o := HandlePingTimeout();
        case Inbound(p, remove, append, ok) => o := HandleInbound(p, remove, append, ok);
      }
      OneMore(State(start, NEW_DATA), trace, s, e);
      trace := trace + [e];
    }

    /** And it leaves the loop sound. */
    method Handle(e: Event) returns (o: Outcome)
      requires Valid()
      modifies this`status, this`trace, data
      ensures (View(), o) == LoopModel.Handle(old(View()), e)
      ensures Valid() && trace == old(trace) + [e] && Sound(start, trace, View())
    {
      o := Take(e);
      SoundAlways(start, trace, View());
    }

    /** So does a run of messages. */
    method Run(es: seq<Event>)
      requires Valid()
      modifies this`status, this`trace, data
      ensures View() == After(old(View()), es)
      ensures Valid() && trace == old(trace) + es && Sound(start, trace, View())
    {
      ghost var first := View();
      for i := 0 to |es|
        invariant Valid() && trace == old(trace) + es[..i] && View() == After(first, es[..i])
      {
        assert es[..i + 1] == es[..i] + [es[i]];
        OneMore(first, es[..i], View(), es[i]);
        var o := Take(es[i]);
      }
      assert es[..|es|] == es;
      SoundAlways(start, trace, View());
    }
  }

  lemma OneMore(first: State, es: seq<Event>, s: State, e: Event)
    requires s == After(first, es)
    ensures After(first, es + [e]) == LoopModel.Handle(s, e).0
  {
    assert Front(es + [e]) == es && Last(es + [e]) == e;
  }

  lemma MoreChannels(d: Data, d': Data)
    requires OwnStreams(d) && d'.subscriptions == d.subscriptions && |d.streams| <= |d'.streams|
    ensures OwnStreams(d')
  {
  }

  /** No message makes two subscriptions share a channel. */
  lemma HandleOwn(s: State, e: Event)
    requires OwnStreams(s.data)
    ensures OwnStreams(Handle(s, e).0.data)
  {
    if e.Inbound? && Active(s.status) && IsFlow(e.packet) {
      FlowEvent(s, e);
      FlowOwn(s.data, e.packet, e.remove, e.append);
    } else {
      Subscriptions.OtherTable(s, e);
      MoreChannels(s.data, Handle(s, e).0.data);
    }
  }
}
