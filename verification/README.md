# tokio-mqtt: a verified model

tokio-mqtt is an MQTT 3.1.1 client built around a message loop. The loop takes requests from
the application, packets from the server and timer events, and keeps a state per packet
identifier for the QoS 1 and 2 flows, a table of subscriptions, a queue of ping callers and a
store of unacknowledged packets. This project models that loop and the code around it, and
proves what it keeps.

`dafny verify dfyconfig.toml` checks everything.

## The files

| file | models |
|---|---|
| `TopicFilters.dfy`, `Regexes.dfy`, `FilterMeaning.dfy` | topic filters: the regular expressions used, validation, compilation, matching, and what they mean level by level |
| `Vle.dfy`, `Packets.dfy`, `Parsers.dfy`, `Codec.dfy`, `Wire.dfy`, `InboundFrames.dfy` | the wire: variable-length integers, packets, the parser, incremental decoding, reference decoders written from MQTT 3.1.1, and what is read of each packet of a server |
| `LoopModel.dfy` | the loop as a state machine on values: status, data, events, handlers |
| `Handlers.dfy`, `LoopClass.dfy` | the same loop as objects whose methods update their fields; each method is proved to do what the state machine says, and the object carries what holds over all runs |
| `Ledger.dfy`, `Replies.dfy`, `Fate.dfy`, `Identifiers.dfy` | over all runs of the client: the store, the reply channels, the callers of publishes, the packet identifiers |
| `ExactlyOnce.dfy`, `Subscriptions.dfy`, `StatusRuns.dfy` | over all runs of the client: inbound QoS 2, the subscription table, the status |
| `Outcomes.dfy` | what comes out of each event: the packet sent, the answer, the next status |
| `System.dfy`, `Session.dfy`, `SessionRuns.dfy`, `Drain.dfy`, `Quiescence.dfy`, `Delivery.dfy` | the client with a server that follows section 4.3 of MQTT 3.1.1, over two lossless first-in-first-out channels |
| `FileStore.dfy` | the file store: a cache over one directory per store |

## How the code is read

- The client does not compile as it stands. Where a part is missing it is supplied as follows.
  `Headers::set` and `Headers::get` are `unimplemented!`; they are taken to use each header's
  `fmt_header` and `parse_header`. The handlers' `persistence.put` and `append`, which return a
  key, are an append that hands out a key or fails. `one_time` maps a kind and an identifier to
  the request packet and the caller. A publish gets its identifier from `gen_packet_id` (the
  hard-coded 4 in `src/backend/outbound_handlers.rs` is not kept), narrowed to sixteen bits, and
  the store gets the packet that is sent.
- `ClientPublish` goes through the same status checks as every other client request. A QoS 0
  publish gives its caller no answer.
- The outcome of each persistence call and of each send comes with the event that causes it, so
  that every pattern of failures is a run. A failed removal may or may not have removed, a failed
  append may or may not have left a packet.
- Reply and subscription channels are numbers, and what was sent on them is recorded. A timer is
  an event that may come at any time, in a session as well. The clean-session branch of a CONNACK is
  a flag of the event, because `ConnAckFlags::is_clean` reads the bit the other way round from
  section 3.2.2.2.
- The first byte of a packet is a type nibble and a flags nibble, as `encode` writes them.
- `fl.contains(QOS1 & QOS2)` asks for no flag and always holds. The parser takes the rule as a
  parameter: as written, or QoS 1 and 2 only.
- A subtraction below zero in the length computation of `packet` is a panic of its own; for the
  buffered decoder it ends the stream like an error.
- The one-level filter `#` becomes `^?.*$`. A quantified start assertion asserts nothing, so it
  matches every topic.
- Every store of the file persistence has a directory of its own, as `keys` and `clear` assume;
  `with_file_name` in `put`, `get`, `contains` and `remove` would put files beside it. With no
  store open, the empty path stands for a directory like any other.
- The runs of `System.dfy` begin when client and server are in session. The client may then be asked
  to connect and disconnect, and its timers may fire, in any order; what it serves in session is
  asked with valid filters and identifiers that are not in use, and its sends and persistence calls
  succeed. Packets that reach the client out of session are dropped, and the model remembers them.
- The server answers every packet once, when it likes and in any order, may start publishes of its
  own with identifiers that are not in use, and answers a SUBSCRIBE with as many codes as it has
  filters. It does not answer a second CONNECT, which section 3.1 makes a protocol violation.

## What came out

- A conformant server cannot make a handler panic or fail, whatever timers have fired and however
  the client left the session, as long as its sends and persistence calls in session succeed, its
  identifiers are fresh and the filters it asks for are valid.
- Every publish in flight has exactly one packet: in transit as long as the session lasts, and in
  transit or lost when it has ended, which a ping timeout is enough for. The loop gives a lost one no
  second chance.
- A session can be drained at any time until nothing is in flight, every caller of a publish has
  exactly one good answer and the server was handed each accepted publish once and unchanged. Out of
  session that is so only if the client is at rest already.
- Identifiers are fresh as long as fewer than 65536 were handed out. After that, a publish, a
  subscribe or an unsubscribe that takes the identifier of an unanswered one of its kind loses that
  one's caller.
- The first identifier is 0, which section 2.3.1 forbids, so that the first SUBSCRIBE of a client is
  refused: a SUBSCRIBE or UNSUBSCRIBE is legal exactly if its identifier is not 0 and its list is not
  empty.
- Over every run, the callers of accepted publishes are in flight, answered, or dropped without an
  answer for one of three reasons: their identifier was taken, a packet came in the wrong state and
  the handler panicked, or a PUBREC found that the old key could not be removed. With distinct
  identifiers and no panic only the last remains.
- A loop made by `Loop::local` starts `Disconnected`, and no event leads out of that status. Runs
  therefore start from a loop without a status, the only one that takes a Connect on; the results on
  the store, the reply channels, the subscriptions and inbound QoS 2 hold from either start.
- A filter `a/#` matches `ab`: of the level before the `#` only the beginning has to match. And it
  misses topics with a line break behind that level, such as `a/` and a line break, as every filter
  ending in `/#` does. Over all topics, code and section 4.7.1.2 disagree exactly on these two kinds.
  Line breaks behind that level apart, a filter reads as the section says exactly if the level is `+`.
- Validation accepts everything that section 4.7.1 allows, within the regex crate's size limit. What
  it accepts is allowed exactly if no `#` has a line break right behind it.
- With the identifier rule as written, QoS 0 publishes are misread; the rules agree exactly at
  QoS 1 and 2.
- A CONNECT is read back by section 3.1 exactly if it has no will.
- The trait's documentation asks for a put that is all or nothing. A put that fails leaves its packet
  in the cache, and what it wrote of the file on disk, where a later session reads it. A put is safe
  against every failure exactly if its key is in the cache, where it is refused. A packet that is on
  disk but not in the cache can be overwritten and cannot be removed.
- A SUBACK that accepts a filter that does not compile drops its caller, and the filters before that
  one stay in the table.
- A connect timeout that meets a pending error swallows it; all other pending errors are told once.
  The request that is told one leaves a loop that never connects again; a Connect or a disconnect that
  is told one does not.
- A ping timeout drops the caller of a Connect or a disconnect that waits in the status, and no other.
- A QoS 1 publish of the server is acknowledged exactly if it arrives while the client is connected; one
  that arrives while the client waits to disconnect is dropped, and the server waits for its PUBACK.
- A listing of the store that fails at a file it cannot read leaves a cache that the next listing gives
  out for all there is.
- A server that keeps to no rules can make a handler panic only while connected, with a packet that
  has no handler, or with a PUBACK, PUBREC or PUBCOMP in the wrong state of its flow.

## Model

| member | source | states |
|---|---|---|
| SessionRuns.OnePacket | src/backend/inbound_handlers.rs:141-253 | in every reachable state, timers and disconnects included, each client publish in flight has exactly one packet, matching its state, in transit or lost to an ended session; an identifier not in flight has none; in session nothing is lost |
| SessionRuns.OneInTransit | src/backend/inbound_handlers.rs:141-253 | in session that packet is in transit |
| SessionRuns.OutForGood | src/backend/ping.rs:38-51 | a session that has ended does not start again on its channels |
| SessionRuns.TimeoutLosesPacket | src/backend/ping.rs:38-51 | a ping timeout before a packet of a publish arrives leaves the publish in flight with nothing in transit |
| SessionRuns.NoHandlerFails | src/backend/inbound_handlers.rs:141-253 | in every reachable state, whatever timers have fired, the next packet from the server is taken without `unreachable!()` and without error |
| SessionRuns.Safe | src/backend/mod.rs:147-170 | the invariant of the composed system holds in every reachable state |
| SessionRuns.OneRequestInTransit | src/backend/inbound_handlers.rs:17-78 | in every reachable state a subscribe or unsubscribe request on the table has exactly one packet, in transit or lost to an ended session, and no other identifier has any |
| SessionRuns.OnePing | src/backend/outbound_handlers.rs:53-63 | at most one ping is unanswered, and in session one is exactly if callers wait for it |
| SessionRuns.AnsweredByNextPong | src/backend/inbound_handlers.rs:80-88 | over every run, a caller that waits for a ping is answered by the next PINGRESP handled, in its turn, and none is left waiting |
| SessionRuns.PingCallersWait | src/backend/ping.rs:66-91 | until a PINGRESP is handled ping callers keep their places, whatever else happens |
| SessionRuns.ClientRuns | src/backend/response.rs:27-111 | what a session is to the client is a run with distinct identifiers and fresh keys in which no packet panics and no store call fails, so that all results about runs apply |
| Session.InvStep | src/backend/inbound_handlers.rs:17-253 | each step of client, server, timer or channel keeps the invariant |
| Drain.HopStep | src/backend/inbound_handlers.rs:141-253 | each step takes off the remaining hops (2 per QoS 1 publish, 4 per QoS 2 publish) exactly the client-publish packets it processes, new publishes aside |
| Drain.WaitingUntilTimeout | src/backend/ping.rs:38-51 | a client that waits to disconnect goes on waiting exactly until a ping times out |
| Drain.LeftForGood | src/backend/mqtt_loop.rs:133-139 | once it has left Connected the client is not connected again and accepts no publish |
| Drain.DrainBound | src/backend/response.rs:81-93 | once the client has left Connected, over any run, timers included, the packets processed and the hops left add up to the hops there were |
| Drain.DisconnectDrains | src/backend/disconnect.rs:33-39 | a disconnect with a timeout sends nothing, waits with its own channel, and any run from there takes off the hops there were |
| Drain.DisconnectEnds | src/backend/disconnect.rs:40-49 | a disconnect without one sends DISCONNECT last and ends the session for good |
| Drain.DrainedCompletely | src/backend/inbound_handlers.rs:141-253 | with no hops left, nothing is in flight, the store is empty and every caller of an accepted publish has exactly one answer, Ok |
| Quiescence.MovesEnd | src/backend/response.rs:81-93 | packets alone cannot move for ever: a run without new requests is no longer than a rank computed from the queues |
| Quiescence.StuckIsAtRest | src/backend/response.rs:81-93 | where no packet can move and none is lost, nothing is in flight either way and no request or ping waits |
| Quiescence.RestsIff | src/backend/response.rs:81-95 | moves can bring the client to rest if and only if it is in session or at rest already |
| Quiescence.DrainFinishes | src/backend/response.rs:81-93 | from every reachable state in session moves lead to one with nothing in flight, an empty store and one good answer per accepted publish |
| Delivery.HandedOver | src/backend/outbound_handlers.rs:20-100 | over every run the publishes, subscribes and unsubscribes that the server has processed and those on their way to it are those that the client was asked for, in order and word for word |
| Delivery.AllHandedOver | src/backend/outbound_handlers.rs:79-100 | with nothing in flight the server has processed exactly the accepted QoS 1 and 2 publishes |
| Delivery.EverythingHandedOver | src/backend/outbound_handlers.rs:20-100 | with the channel empty the server has processed everything that was asked |
| Delivery.AllDispatched | src/backend/inbound_handlers.rs:200-225 | at rest every QoS 2 publish taken in was dispatched |
| Delivery.OriginatedConserved | src/backend/response.rs:81-91 | over every run and for each QoS and identifier, publishes of the server are those that arrived while connected, those dropped later and those on their way |
| Delivery.ArrivedIsTaken | src/backend/inbound_handlers.rs:123-136 | QoS 2 publishes that arrive while connected are those taken in |
| Delivery.AllAccountedFor | src/backend/inbound_handlers.rs:200-225 | at rest every QoS 2 publish of the server was dispatched or dropped, or is on its way |
| Delivery.AckPerArrival | src/backend/inbound_handlers.rs:106-122 | over every run, each QoS 1 publish that arrived while connected has one PUBACK, processed by the server or on its way |
| Delivery.AwaitedAcks | src/backend/inbound_handlers.rs:106-122 | the server waits for a PUBACK exactly as long as it has not processed the one for its publish |
| Delivery.UnacknowledgedIs | src/backend/inbound_handlers.rs:106-122 | a QoS 1 publish that the server waits for was dropped, or it or its PUBACK is on its way |
| Ledger.LedgerHolds | src/backend/outbound_handlers.rs:84-93 | in every reachable state, failures and panics included, publishes in flight are stored under pairwise distinct keys, as PUBLISH while sent and PUBREL while released; if nothing failed the store holds nothing else |
| Ledger.LedgerStep | src/backend/inbound_handlers.rs:145-192 | every event keeps the ledger |
| Ledger.StoredAsAsked | src/backend/outbound_handlers.rs:84-93 | in every reachable state of a good run the store holds, for each publish not yet received, the very publish that was asked last under its identifier |
| Replies.AnsweredOnce | src/backend/inbound_handlers.rs:146-166 | in every run, whatever fails, every reply channel is in one place and no caller is answered twice |
| Fate.RepliesConserved | src/backend/inbound_handlers.rs:146-192 | over every run, callers of accepted publishes are, disjointly, those in flight, those answered and those let go of by a taken identifier, a packet in the wrong state or a key that cannot be removed |
| Fate.OnlyRemovalsLetGo | src/backend/inbound_handlers.rs:178-180 | with distinct identifiers and no panic, a PUBREC whose old key cannot be removed is the only reason to let go |
| Fate.FlightSettled | src/backend/inbound_handlers.rs:141-253 | a PUBACK, PUBREC or PUBCOMP leaves the one caller of its publish waiting, with one answer more, or nowhere, as its state and the store decide, and affects no other caller |
| Identifiers.FewIdsAreDistinct | src/backend/mqtt_loop.rs:86-90 | while fewer than 65536 identifiers were handed out the next one is free, so that runs with fresh keys have distinct identifiers |
| Identifiers.FewIdsInSession | src/backend/mqtt_loop.rs:86-90 | the same in a session |
| Identifiers.CollisionLosesCaller | src/backend/outbound_handlers.rs:20-50 | a request that takes an identifier loses a caller for good if and only if an unanswered request of its kind has it |
| Identifiers.CollisionInRuns | src/backend/outbound_handlers.rs:79-100 | so it is in every reachable state |
| Identifiers.FirstSubscribeRefused | src/backend/mqtt_loop.rs:73-90 | the first SUBSCRIBE of a client has identifier 0 and is refused by a decoder written from section 3.8 |
| ExactlyOnce.TakenAndReleased | src/backend/inbound_handlers.rs:123-136 | over every run and for each identifier, publishes taken in are PUBRELs acted on plus one if it is held; what is held is the latest |
| ExactlyOnce.ReleaseDelivers | src/backend/inbound_handlers.rs:200-225 | a PUBREL acted on puts the latest publish of its identifier once on every channel that listens then and on no other, and is answered by PUBCOMP |
| ExactlyOnce.OnlyDispatchDelivers | src/backend/inbound_handlers.rs:90-138 | no other event puts anything on a channel |
| ExactlyOnce.DispatchByText | src/backend/inbound_handlers.rs:99-118 | in every reachable state a dispatch reaches a subscription once if the text of its filter matches, and not at all otherwise |
| Subscriptions.TableHolds | src/backend/inbound_handlers.rs:37-75 | in every reachable state a topic is a key of the table if and only if the last acknowledged operation on it, by the requests made in the run, was a subscribe that was not rejected; its filter is its own compilation; no two subscriptions share a channel |
| Subscriptions.OutstandingHolds | src/backend/outbound_handlers.rs:24-50 | in every reachable state the table of requests holds exactly the requests made and not answered, the last one under each identifier |
| Subscriptions.AskedIsSent | src/backend/outbound_handlers.rs:24-50 | a subscribe or unsubscribe goes to the server as it was asked, and on the table with its caller |
| Subscriptions.SubAckTells | src/backend/inbound_handlers.rs:37-54 | a subscriber is told, filter by filter, of a rejection or of the QoS asked and the new channel that the table then has for the topic |
| Subscriptions.DispatchReaches | src/backend/inbound_handlers.rs:215-219 | for every topic, a channel of the table listens to it exactly if the text of its key matches |
| Subscriptions.SubAckFailsIff | src/backend/inbound_handlers.rs:37-54 | a SUBACK fails exactly if a filter that it accepts does not compile; then its caller is nowhere, and the filters before that one are in the table |
| StatusRuns.ConnectedHasItsConnect | src/backend/connect.rs:33-62 | each stay in Connected begins with an accepting CONNACK, and from the accepted Connect it answers the loop only waited for it |
| StatusRuns.ConnectableIff | src/backend/mqtt_loop.rs:114-122 | a loop can be brought to Connected if and only if it does not sit in Disconnected, where `Loop::local` starts |
| StatusRuns.DisconnectedForEver | src/backend/connect.rs:33-62 | no run of events changes anything in a disconnected loop |
| StatusRuns.ErrorsConserved | src/backend/ping.rs:42-49 | over every run pending errors raised are those told to a caller, those swallowed by a connect timeout, and one if one is pending |
| StatusRuns.PendingStep | src/backend/mqtt_loop.rs:170-177 | a pending error is not overwritten, and is told or swallowed, not both, exactly when it goes |
| StatusRuns.RequestPanicsIff | src/backend/disconnect.rs:27-59 | a request or a disconnect reaches `unreachable!()` exactly if the loop has no status |
| StatusRuns.PacketPanicsIff | src/backend/response.rs:31-96 | in every reachable state and for any packet, a packet reaches `unreachable!()` exactly if it has no handler while connected or acknowledges a publish in the wrong state |
| StatusRuns.KindsHold | src/backend/inbound_handlers.rs:29-36 | in every reachable state requests on the table are of the kind of their key, and what is held from the server is a publish |
| StatusRuns.TimeoutEmptiesStatus | src/backend/connect.rs:82-100 | a Connect that times out leaves no status, and a disconnect then panics |
| Outcomes.InboundOutcome | src/backend/inbound_handlers.rs:17-253 | in every reachable state a packet that does not panic is complained about or acknowledged as the protocol and the store decide, and nothing else is sent |
| Outcomes.PublishAcknowledged | src/backend/inbound_handlers.rs:90-138 | while connected a QoS 1 publish is answered by PUBACK, a new QoS 2 publish by PUBREC, a QoS 0 publish by nothing |
| Outcomes.PublishOutcome | src/backend/outbound_handlers.rs:79-100 | a publish goes out as asked, at QoS 1 and 2 under the next identifier, stored as it goes out and in flight for its caller |
| Outcomes.PingOutcome | src/backend/outbound_handlers.rs:53-63 | a ping caller waits, and a PINGREQ goes out for the first only |
| Outcomes.KeepAliveOutcome | src/backend/ping.rs:63-92 | so it is with a keep-alive while the loop is in use, and otherwise nothing happens |
| Outcomes.UnsubAckOutcome | src/backend/inbound_handlers.rs:57-78 | an UNSUBACK is told to the caller of its request, whose topics and no others leave the table |
| Outcomes.TooLongOutcome | src/backend/outbound_handlers.rs:24-46 | a request with a text too long fails, puts nothing on the table and has used up an identifier |
| Outcomes.AsciiLength | src/proto/types.rs:256-262 | a text of ASCII characters fits exactly if it has at most 65535 |
| Outcomes.PendingRequestIsLast | src/backend/mqtt_loop.rs:170-177 | the request that is told a pending error leaves a loop that never connects again |
| Outcomes.ConnectOutcome | src/backend/connect.rs:29-65 | CONNECT is sent exactly if there is no status and the connection takes it, and its channel then waits; each other status has its refusal |
| Outcomes.ConnAckOutcome | src/backend/response.rs:45-76 | the caller of the Connect is told of the session, of its channel if it was kept, or of the refusal, after which the loop is disconnected |
| Outcomes.ConnectTimeoutOutcome | src/backend/connect.rs:82-91 | a connect timeout is told to the caller of the Connect and leaves no status |
| Outcomes.PingTimeoutDrops | src/backend/ping.rs:41-50 | a ping timeout drops exactly the caller that waits in the status |
| Outcomes.DisconnectOutcome | src/backend/disconnect.rs:33-49 | a disconnect with a timeout sends nothing and leaves the loop in use, one without sends DISCONNECT and takes it out of use; its channel is then in the status |
| Handlers.Dispatch | src/backend/inbound_handlers.rs:99-103 | the loop over the subscriptions, in any order, gives each listening channel one copy |
| Handlers.SubAckHandler | src/backend/inbound_handlers.rs:17-55 | the handler with its loop and early returns does what the state machine says |
| Handlers.UnsubAckHandler | src/backend/inbound_handlers.rs:57-78 | the loop removes exactly the topics of the request, and the caller is answered |
| Handlers.PingRespHandler | src/backend/inbound_handlers.rs:80-88 | draining answers every waiting caller in order |
| Handlers.PublishHandler | src/backend/inbound_handlers.rs:90-139 | QoS 0 and 1 are dispatched, QoS 2 is held, a duplicate is refused |
| Handlers.PubRelHandler | src/backend/inbound_handlers.rs:200-225 | what was held is dispatched, held no more, and answered by PUBCOMP; an unknown identifier is an unexpected response |
| Handlers.SubscribeHandler | src/backend/outbound_handlers.rs:20-33 | the request packet and the table entry, or the string error with the identifier used up |
| Handlers.UnsubscribeHandler | src/backend/outbound_handlers.rs:39-51 | the request packet and the table entry, or the string error with the identifier used up |
| LoopClass.Loop.Local | src/backend/mqtt_loop.rs:114-122 | a new loop is disconnected and its data is empty |
| LoopClass.Loop.HandleRequest | src/backend/mqtt_loop.rs:129-182 | served only while connected; a pending error is handed over and leaves the loop disconnected |
| LoopClass.Loop.HandleInbound | src/backend/response.rs:27-111 | every packet in every status goes to the handler of the state machine, and what it hands back is sent or reported |
| LoopClass.Loop.Handle | src/backend/response.rs:27-111 | every message takes the object to the state the state machine gives, and leaves it with every reply channel in one place, the subscription table of its history, all callers of publishes accounted for, held publishes as many as taken in and not released, and on good runs a balanced store |
| LoopClass.Loop.Run | src/backend/response.rs:27-111 | so does any run of messages |
| LoopClass.HandleOwn | src/backend/inbound_handlers.rs:38-45 | no message makes two subscriptions share a channel |
| TopicFilters.FromString | src/proto/topic_filter.rs:14-39 | the loop over the levels builds the filter that the lemmas below are about |
| FilterMeaning.ValidationIsExact | src/proto/topic_filter.rs:4-38 | a string without line breaks is accepted exactly if it is not empty and every level has no wildcard, is `+`, or is a final `#` |
| FilterMeaning.AlwaysBuilds | src/proto/topic_filter.rs:34-38 | the expression put together for a string that passes the checks is always one that the pattern language reads |
| FilterMeaning.ValidationIff | src/proto/topic_filter.rs:4-38 | on all strings, what section 4.7.1 allows is accepted, and what is accepted is allowed if and only if no `#` has a line break right behind it |
| FilterMeaning.NotRejectedIff | src/proto/topic_filter.rs:16-22 | the two checks and the test for emptiness pass exactly the non-empty strings whose wildcards have the right neighbours, a line break after `#` passing as an end |
| FilterMeaning.NewlineEscapesValidation | src/proto/topic_filter.rs:4-38 | a filter that goes on behind `#` and a line break is accepted |
| FilterMeaning.CompiledIs | src/proto/topic_filter.rs:24-38 | the expression text of an accepted filter reads as one pattern per level, `#` reaching back over its separator |
| FilterMeaning.MatchIsLevelWalk | src/proto/topic_filter.rs:24-43 | for every accepted filter without `#` and every topic, matching is the level walk |
| FilterMeaning.MatchIsMultiLevelWalk | src/proto/topic_filter.rs:24-43 | for filters ending in `/#` and every topic, matching is the walk in which the level before the `#` is compared by its beginning and no line break is behind that |
| FilterMeaning.MatchOnOneLine | src/proto/topic_filter.rs:24-43 | on topics without line breaks it is that walk alone |
| FilterMeaning.MultiLevelComplete | src/proto/topic_filter.rs:24-43 | a topic that section 4.7.1.2 accepts is matched exactly if no line break is behind the level before the `#`; if that level is `+`, nothing else is matched |
| FilterMeaning.AgreesIff | src/proto/topic_filter.rs:24-43 | on every topic code and section 4.7.1.2 agree unless the topic is missed for a line break or matched beyond the level before the `#` |
| FilterMeaning.MultiLevelExactIff | src/proto/topic_filter.rs:28-34 | on the topics without a line break behind the level before the `#`, a filter ending in `/#` reads as section 4.7.1.2 if and only if that level is `+` |
| FilterMeaning.LineBreakMissed | src/proto/topic_filter.rs:28-34 | for every filter ending in `/#` there is a topic that section 4.7.1.2 accepts and the code misses |
| FilterMeaning.OvershootRefutes | src/proto/topic_filter.rs:28-34 | for every such filter whose level before the `#` is not `+` there is a topic that the code matches and section 4.7.1.2 does not |
| FilterMeaning.HashSamples | src/proto/topic_filter.rs:28-34 | `a/#` matches `ab` and misses `a/` with a line break behind it |
| FilterMeaning.HashMatchesAll | src/proto/topic_filter.rs:28-34 | the filter `#` matches every topic |
| Vle.EncodeVle | src/proto/mod.rs:17-37 | the loop gives the seven-bit groups of the number, lowest first, or nothing above 268435455 |
| Vle.DecodeVle | src/proto/parsers.rs:16-41 | the loop reads a group of at most four bytes, tells missing input from an overlong group |
| Vle.VleRoundTrip | src/proto/mod.rs:17-37 | decoding an encoding gives the number and the tail |
| Vle.VleShortest | src/proto/mod.rs:25-35 | an encoding has the fewest bytes |
| Vle.VleReencodes | src/proto/parsers.rs:16-41 | re-encoding a decoded number gives the bytes read exactly if there was one or the last is not zero |
| Parsers.PacketStable | src/proto/parsers.rs:173-182 | a packet or an error stays the same however much input follows |
| Codec.MqttCodec.Decode | src/backend/codec.rs:28-38 | one packet is taken off the buffer and the rest put back; nothing is lost if none is complete |
| Codec.MqttCodec.Encode | src/backend/codec.rs:14-22 | the encoding is appended, or the buffer left alone |
| Codec.ChunkingIrrelevant | src/backend/codec.rs:28-38 | any stream, cut into any chunks, gives the same packets and leaves the same bytes as decoding it whole |
| Codec.PrefixIsNotYet | src/proto/mod.rs:94-106 | a strict prefix of a frame is incomplete |
| Codec.FramesInOrder | src/proto/mod.rs:94-106 | frames come out one by one in order, whatever follows |
| Wire.FrameIff | src/proto/parsers.rs:145-182 | bytes are one frame exactly if they are a type, a length in any of its encodings, and a body of that length whose headers fit and in which a SUBACK goes on with a return code |
| Wire.AcksRoundTrip | src/proto/mod.rs:204-246 | any list of PUBACK, PUBREC, PUBREL and PUBCOMP with any identifiers is read back in order, with the type and flags of sections 3.4 to 3.7, then the tail |
| Wire.AckLiterals | src/proto/mod.rs:204-246 | the four acknowledgements byte for byte |
| Wire.EmptyLiterals | src/proto/mod.rs:277-293 | PINGREQ and DISCONNECT byte for byte |
| Wire.RulesAgreeIff | src/proto/parsers.rs:147 | the identifier rule as written and the intended one agree on all publishes exactly at QoS 1 and 2 |
| Wire.PublishWithoutId | src/proto/parsers.rs:109-120 | what each rule makes of a publish without identifier |
| Wire.SubscribeRoundTrip | src/proto/types.rs:322-328 | a decoder written from section 3.8 undoes every encoded SUBSCRIBE exactly if its identifier is not zero and its list not empty |
| Wire.UnsubscribeRoundTrip | src/proto/types.rs:329-333 | the same for UNSUBSCRIBE and section 3.10 |
| Wire.ConnectRoundTripIff | src/proto/mod.rs:129-171 | a decoder written from section 3.1 undoes an encoded CONNECT if and only if it has no will |
| Wire.WillFlags | src/proto/types.rs:224-230 | of a will the flags byte shows the retain bit only, and at QoS 2 a clean session |
| InboundFrames.ConnAckRead | src/proto/parsers.rs:99-108 | a CONNACK is read as the acknowledge flags and the return code, in this order |
| InboundFrames.SubAckRead | src/proto/parsers.rs:129-136 | a SUBACK is read as its identifier and its codes by their numbers, up to a byte that is none |
| InboundFrames.UnsubAckRead | src/proto/parsers.rs:137-144 | an UNSUBACK is read as its identifier |
| InboundFrames.PingRespRead | src/proto/parsers.rs:154 | a PINGRESP is read |
| InboundFrames.PublishRead | src/proto/parsers.rs:109-120 | a PUBLISH at QoS 1 or 2 is read as its topic, identifier and message, by either rule |
| InboundFrames.PublishQos0Read | src/proto/parsers.rs:109-120 | a PUBLISH at QoS 0 is read as its topic and message, by the intended rule |
| InboundFrames.SliceIsKind | src/proto/mod.rs:94-106 | on all bytes the decoder finds a packet, waits for more or fails exactly as type, lengths and first return code decide |
| InboundFrames.QosBits | src/proto/types.rs:30-40 | which flag bits are which QoS |
| InboundFrames.ValidFlags | src/proto/mod.rs:108-127 | which flags each packet type may have |
| InboundFrames.LengthSamples | src/proto/parsers.rs:47-81 | lengths of one and two bytes, one cut short and one too long |
| Packets.Encode | src/proto/mod.rs:295-309 | first byte, length and body, or nothing if the body is too long |
| Packets.EncodePayload | src/proto/types.rs:305-336 | the bytes of each kind of payload are appended |
| Packets.EncodeHeaders | src/proto/mod.rs:63-67 | the raw headers are appended in insertion order |
| FileStore.SyncedRun | src/persistence/fs.rs:33-139 | once the cache equals the disk it stays so, and any sequence of calls that succeed behaves like a plain map |
| FileStore.LikePlainIff | src/persistence/fs.rs:44-139 | with a cache that tells the truth a call behaves like one on a plain map if and only if what it depends on is cached |
| FileStore.WithinRun | src/persistence/fs.rs:33-42 | if each open follows the beginning or a close, the cache tells the truth over any run |
| FileStore.ReopenKeeps | src/persistence/fs.rs:33-127 | a store that is closed, reopened later and listed holds the same map, whatever happened to other stores |
| FileStore.OthersKept | src/persistence/fs.rs:44-139 | no call, whatever fails, touches a store that is not open |
| FileStore.FailedPutLingers | src/persistence/fs.rs:44-58 | a failed put leaves what reads see before a close alone if and only if its packet was there already |
| FileStore.FailedPutHarms | src/persistence/fs.rs:44-58 | for each way to fail, a failed put leaves reads before and after a close alone exactly if its key is cached, or its packet is on disk and is not cut short |
| FileStore.SafePutIff | src/persistence/fs.rs:44-58 | a put is safe against every failure if and only if its key is in the cache |
| FileStore.FailedPutCuts | src/persistence/fs.rs:44-58 | a put of a packet that is on disk already can fail and leave a part of it to the next session |
| FileStore.FailedRemove | src/persistence/fs.rs:93-104 | a remove that fails forgets the packet in the cache only, and the next read has it again |
| FileStore.FailedKeys | src/persistence/fs.rs:106-127 | a listing that meets a file that cannot be read fails, and the next listing gives what was read before for all there is |
| FileStore.FailedClear | src/persistence/fs.rs:129-139 | a clear that fails has emptied the cache, and no file that stays is changed |
| FileStore.ReadMakesKnown | src/persistence/fs.rs:60-91 | reading a packet that is on disk makes it removable and safe from being overwritten |
| FileStore.SharedStoreIff | src/persistence/fs.rs:33-36 | two sessions share a store exactly if they are the same or an `@` can be read two ways |
| FileStore.FsPersistence.Put | src/persistence/fs.rs:44-58 | a put that succeeds keeps the cache truthful, and with a cache equal to the disk is the put of a plain map |
| FileStore.FsPersistence.Contains | src/persistence/fs.rs:60-76 | keeps the cache truthful, and with a cache equal to the disk is the look-up of a plain map |
| FileStore.FsPersistence.Get | src/persistence/fs.rs:78-91 | keeps the cache truthful, and with a cache equal to the disk gives what a plain map gives |
| FileStore.FsPersistence.Remove | src/persistence/fs.rs:93-104 | keeps the cache truthful, and with a cache equal to the disk is the removal of a plain map |
| FileStore.FsPersistence.Keys | src/persistence/fs.rs:106-127 | an empty cache is filled from the directory, up to the first file that cannot be read |
| FileStore.FsPersistence.Clear | src/persistence/fs.rs:129-139 | the cache is emptied, and the files deleted up to the first that cannot be |

## Left out

- Futures, actors, framing, timers and their cancellation: they are events and recorded replies.
- `src/client.rs`, `src/backend/connection.rs` and `src/backend/actor`: mostly unimplemented.
- Retransmission, session resume and the disconnect once drained: not written.
- `DUP` and session state kept over a reconnect: nothing sets or reads them.
- Publish payloads on the wire: `Payload::encode` writes nothing for them, so no round trip is claimed.
- The `$` rule of section 4.7.2 and `+` on an empty level (section 4.7.1.3): the code does neither, and its own rule is stated.
- Accepted filters with a line break right behind a `#`: they are not legal and section 4.7.1 gives them no reading, so nothing is said about what they match.
- The size limit of the regex crate: an expression is taken to build whatever its length.
- The serialised form of stored packets: the store holds the packets themselves.
- Error texts, and the connect return codes beyond accepted or not.
- Path handling of the file store: keys and store names are strings, and a store never written to is an empty one.
- FileStore.FsPersistence.Keys: the keys come back as a set, because the order of a hash map is not fixed.
- ExactlyOnce.DispatchByText: says nothing about accepted filters with a line break right behind a `#`, which are not legal.
- Subscriptions.DispatchReaches: says nothing about accepted filters with a line break right behind a `#`, which are not legal.
