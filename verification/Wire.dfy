/** Decoders written from MQTT 3.1.1 and what they make of the client's encodings. */
module Wire {
  import opened Prelude
  import opened Vle
  import opened Packets
  import opened Codec
  import Parsers

  /** Section 1.5.2: two bytes, the high one first. */
  function Word(b: Bytes): u16
    requires |b| >= 2
  {
    256 * (b[0] as int) + b[1]
  }

  // ------------------------------------------------------------ acknowledgements

  datatype AckKind = Ack | Rec | Rel | Comp

  function AckPacket(kind: AckKind, id: u16): MqttPacket {
    match kind
    case Ack => PubAckPacket(id)
    case Rec => PubRecPacket(id)
    case Rel => PubRelPacket(id)
    case Comp => PubCompPacket(id)
  }

  /** `count` calls of `from_slice`, each on what the one before left. */
  function ReadPackets(rule: Parsers.IdRule, count: nat, data: Bytes): Option<(seq<MqttPacket>, Bytes)> {
    if count == 0 then Some(([], data))
    else match FromSlice(rule, data)
      case Packet(p, rest) => (
        match ReadPackets(rule, count - 1, rest)
        case Some((ps, left)) => Some(([p] + ps, left))
        case None => None)
      case _ => None
  }

  function AckPackets(acks: seq<(AckKind, u16)>): seq<MqttPacket> {
    if acks == [] then [] else [AckPacket(acks[0].0, acks[0].1)] + AckPackets(acks[1..])
  }

  function AckBytes(acks: seq<(AckKind, u16)>): Bytes {
    if acks == [] then []
    else
      AckIdentifies(acks[0].0, acks[0].1);
      AckEncoding(AckPacket(acks[0].0, acks[0].1), acks[0].1);
      Encoded(AckPacket(acks[0].0, acks[0].1)).value + AckBytes(acks[1..])
  }

  lemma IdHeaderBytes(id: u16)
    ensures SetPacketId(NO_HEADERS, id).data == [("packet_id", U16Bytes(id))]
    ensures HeaderBytes(SetPacketId(NO_HEADERS, id).data) == U16Bytes(id)
  {
    var h := SetNewHeader(NO_HEADERS, "packet_id", U16Bytes(id));
    assert HeaderBytes(NO_HEADERS.data) == [];
    assert [] + U16Bytes(id) == U16Bytes(id);
    assert NO_HEADERS.data + [("packet_id", U16Bytes(id))] == [("packet_id", U16Bytes(id))];
  }

  predicate IsAck(p: MqttPacket, id: u16) {
    && p.ty in {PubAck, PubRec, PubRel, PubComp}
    && p.headers == SetPacketId(NO_HEADERS, id) && p.payload == NoPayload
  }

  lemma AckEncoding(p: MqttPacket, id: u16)
    requires IsAck(p, id)
    ensures Encoded(p) == Some([p.ty.Code() * 16 + p.flags] + VleBytes(2) + U16Bytes(id))
  {
    IdHeaderBytes(id);
    assert U16Bytes(id) + [] == U16Bytes(id);
    assert Body(p) == U16Bytes(id);
  }

  lemma FirstByte(ty: PacketType, flags: Flags)
    ensures var first := ty.Code() * 16 + flags;
      first / 16 == ty.Code() && first % 16 == flags && Parsers.TypeFrom(first / 16) == Some(ty)
  {
  }

  lemma ReadHeader(rule: Parsers.IdRule, first: u8, vle: Bytes, ty: PacketType, flags: Flags, n: nat, rest: Bytes)
    requires Parsers.TypeFrom(first / 16) == Some(ty) && first % 16 == flags && VleFrom(vle + rest, 0) == Done(rest, n)
    ensures Parsers.Packet(rule, [first] + vle + rest) == Parsers.AfterLength(rule, ty, flags, n, rest)
  {
    ConcatAssoc([first], vle, rest);
    HeadAndTail(first, vle + rest);
  }

  /** The parser reads the first byte and the length as `encode` writes them. */
  lemma FixedHeader(rule: Parsers.IdRule, ty: PacketType, flags: Flags, n: nat, rest: Bytes)
    requires n <= MAX_REMAINING
    ensures Parsers.Packet(rule, [ty.Code() * 16 + flags] + VleBytes(n) + rest)
      == Parsers.AfterLength(rule, ty, flags, n, rest)
  {
    FirstByte(ty, flags);
    VleRoundTrip(n, rest);
    ReadHeader(rule, ty.Code() * 16 + flags, VleBytes(n), ty, flags, n, rest);
  }

  /** After the remaining length 2 comes the identifier, and then the tail. */
  lemma AckBody(rule: Parsers.IdRule, p: MqttPacket, id: u16, tail: Bytes)
    requires IsAck(p, id)
    ensures Parsers.AfterLength(rule, p.ty, p.flags, 2, U16Bytes(id) + tail) == Done(tail, p)
  {
    var rest := U16Bytes(id) + tail;
    IdHeaderBytes(id);
    assert rest[2..] == tail && rest[..2] == U16Bytes(id);
    assert tail[0..] == tail;
    assert Parsers.IdHeaders(rest) == Done(tail, SetPacketId(NO_HEADERS, id));
  }

  lemma AckSplit(p: MqttPacket, id: u16, tail: Bytes)
    requires IsAck(p, id)
    ensures Encoded(p).Some?
    ensures Encoded(p).value + tail == [p.ty.Code() * 16 + p.flags] + VleBytes(2) + (U16Bytes(id) + tail)
  {
    AckEncoding(p, id);
    ConcatAssoc([p.ty.Code() * 16 + p.flags] + VleBytes(2), U16Bytes(id), tail);
  }

  /** A packet whose length is followed by `rest` is read as what `rest` makes of it. */
  lemma ReadsAs(rule: Parsers.IdRule, p: MqttPacket, n: nat, rest: Bytes, data: Bytes, tail: Bytes)
    requires n <= MAX_REMAINING && data == [p.ty.Code() * 16 + p.flags] + VleBytes(n) + rest
    requires Parsers.AfterLength(rule, p.ty, p.flags, n, rest) == Done(tail, p)
    ensures FromSlice(rule, data) == Packet(p, tail)
  {
    FixedHeader(rule, p.ty, p.flags, n, rest);
  }

  lemma AckReads(rule: Parsers.IdRule, p: MqttPacket, id: u16, tail: Bytes)
    requires IsAck(p, id)
    ensures Encoded(p).Some? && FromSlice(rule, Encoded(p).value + tail) == Packet(p, tail)
  {
    AckSplit(p, id, tail);
    AckBody(rule, p, id, tail);
    ReadsAs(rule, p, 2, U16Bytes(id) + tail, Encoded(p).value + tail, tail);
  }

  /** Type, flags and identifier of an acknowledgement, by sections 3.4 to 3.7. */
  predicate IsAckOf(p: MqttPacket, kind: AckKind, id: u16) {
    && p.ty == (match kind case Ack => PubAck case Rec => PubRec case Rel => PubRel case Comp => PubComp)
    && p.flags == (if kind == Rel then 2 else 0)
    && GetPacketId(p.headers) == Some(id) && p.payload == NoPayload && Validate(p)
  }

  lemma AckIdentifies(kind: AckKind, id: u16)
    ensures IsAckOf(AckPacket(kind, id), kind, id)
    ensures IsAck(AckPacket(kind, id), id)
    ensures GetPacketId(AckPacket(kind, id).headers) == Some(id) && Validate(AckPacket(kind, id))
  {
    IdHeaderBytes(id);
    U16RoundTrip(id, []);
    assert U16Bytes(id) + [] == U16Bytes(id);
  }

  lemma {:induction false} AckPacketsAre(acks: seq<(AckKind, u16)>)
    ensures |AckPackets(acks)| == |acks|
    ensures forall i | 0 <= i < |acks| :: IsAckOf(AckPackets(acks)[i], acks[i].0, acks[i].1)
  {
    if acks != [] {
      AckIdentifies(acks[0].0, acks[0].1);
      AckPacketsAre(acks[1..]);
      forall i | 0 <= i < |acks| ensures IsAckOf(AckPackets(acks)[i], acks[i].0, acks[i].1) {
        if i > 0 { assert AckPackets(acks)[i] == AckPackets(acks[1..])[i - 1]; }
      }
    }
  }

  /** One packet more is read in front of the others. */
  lemma ReadsOneMore(rule: Parsers.IdRule, count: nat, data: Bytes, p: MqttPacket, rest: Bytes, ps: seq<MqttPacket>, tail: Bytes)
    requires FromSlice(rule, data) == Packet(p, rest) && ReadPackets(rule, count, rest) == Some((ps, tail))
    ensures ReadPackets(rule, count + 1, data) == Some(([p] + ps, tail))
  {
  }

  /** Acknowledgements of any number and identifiers are read back in order, then the tail. */
  lemma {:induction false} AcksRoundTrip(rule: Parsers.IdRule, acks: seq<(AckKind, u16)>, tail: Bytes)
    ensures ReadPackets(rule, |acks|, AckBytes(acks) + tail) == Some((AckPackets(acks), tail))
    ensures |AckPackets(acks)| == |acks|
    ensures forall i | 0 <= i < |acks| :: IsAckOf(AckPackets(acks)[i], acks[i].0, acks[i].1)
  {
    AckPacketsAre(acks);
    if acks == [] {
      assert AckBytes(acks) + tail == tail;
    } else {
      var p, id := AckPacket(acks[0].0, acks[0].1), acks[0].1;
      var more := AckBytes(acks[1..]) + tail;
      AckIdentifies(acks[0].0, id);
      AckReads(rule, p, id, more);
      AcksRoundTrip(rule, acks[1..], tail);
      ConcatAssoc(Encoded(p).value, AckBytes(acks[1..]), tail);
      ReadsOneMore(rule, |acks| - 1, Encoded(p).value + more, p, more, AckPackets(acks[1..]), tail);
    }
  }

  /** The four acknowledgements byte for byte: type and flags, a length of two, and the identifier. */
  lemma AckLiterals(id: u16)
    ensures var b: Bytes := [id / 256, id % 256];
      && Encoded(PubAckPacket(id)) == Some([0x40, 2] + b) && Encoded(PubRecPacket(id)) == Some([0x50, 2] + b)
      && Encoded(PubRelPacket(id)) == Some([0x62, 2] + b) && Encoded(PubCompPacket(id)) == Some([0x70, 2] + b)
  {
    AckLiteral(PubAckPacket(id), id, 0x40);
    AckLiteral(PubRecPacket(id), id, 0x50);
    AckLiteral(PubRelPacket(id), id, 0x62);
    AckLiteral(PubCompPacket(id), id, 0x70);
  }

  lemma AckLiteral(p: MqttPacket, id: u16, first: u8)
    requires IsAck(p, id) && p.ty.Code() * 16 + p.flags == first
    ensures Encoded(p) == Some([first, 2] + [id / 256, id % 256])
  {
    AckEncoding(p, id);
    assert VleBytes(2) == [2] && [first] + [2] == [first, 2];
  }

  /** A PINGREQ and a DISCONNECT have no body. */
  lemma EmptyLiterals()
    ensures Encoded(PING_REQ) == Some([0xC0, 0]) && Encoded(DISCONNECT) == Some([0xE0, 0])
  {
    assert Body(PING_REQ) == [] && Body(DISCONNECT) == [] && VleBytes(0) == [0];
    assert [PING_REQ.ty.Code() * 16 + PING_REQ.flags] + [0] + [] == [0xC0, 0];
    assert [DISCONNECT.ty.Code() * 16 + DISCONNECT.flags] + [0] + [] == [0xE0, 0];
  }

  // ------------------------------------------------------------ what a frame is

  /** The headers fit the body, and a SUBACK goes on with a return code. */
  predicate WellFormed(ty: PacketType, withId: bool, body: Bytes) {
    match ty
    case Publish => |body| >= 2 && |body| >= 2 + Word(body) + (if withId then 2 else 0)
    case SubAck => |body| >= 3 && Parsers.CodeFrom(body[2]).Some?
    case PingResp => true
    case _ => ty in {ConnAck, PubAck, PubRec, PubRel, PubComp, UnsubAck} && |body| >= 2
  }

  lemma HeadersFit(ty: PacketType, withId: bool, body: Bytes)
    ensures var h := Parsers.PacketHeaders(ty, withId, body);
      && (h.Done? <==> if ty == SubAck then |body| >= 2 else WellFormed(ty, withId, body))
      && (ty == SubAck && h.Done? ==> h.rest == body[2..])
      && !h.Panic?
  {
    if |body| >= 2 {
      assert U16Of(body[..2]) == Word(body);
      assert body[1..][1..] == body[2..];
    }
  }

  lemma PayloadReads(ty: PacketType, remaining: nat, used: nat, rest: Bytes)
    requires remaining == used + |rest|
    ensures var r := Parsers.PayloadPart(ty, remaining, used, rest);
      && (r.Done? <==> ty != SubAck || (rest != [] && Parsers.CodeFrom(rest[0]).Some?))
      && (r.Done? ==> r.rest == [])
  {
    assert rest[..|rest|] == rest && rest[|rest|..] == [];
  }

  /** The payload takes all the rest exactly if that has the length announced, and a SUBACK has a code. */
  lemma WholePayloadIff(ty: PacketType, flags: Flags, headers: Headers, n: nat, used: nat, rest: Bytes)
    ensures var r := Parsers.WithPayload(ty, flags, headers, n, used, rest);
      (r.Done? && r.rest == []) <==>
        n == used + |rest| && (ty != SubAck || (rest != [] && Parsers.CodeFrom(rest[0]).Some?))
  {
    if n == used + |rest| { PayloadReads(ty, n, used, rest); }
  }

  lemma FitsWhole(ty: PacketType, withId: bool, body: Bytes)
    ensures var h := Parsers.PacketHeaders(ty, withId, body);
      WellFormed(ty, withId, body) <==>
        h.Done? && (ty != SubAck || (h.rest != [] && Parsers.CodeFrom(h.rest[0]).Some?))
  {
    HeadersFit(ty, withId, body);
  }

  /** All of a body is read exactly if its length is the one announced and it is well formed. */
  lemma BodyReadsIff(ty: PacketType, flags: Flags, withId: bool, n: nat, body: Bytes)
    ensures var r := Parsers.ReadRest(ty, flags, withId, n, body);
      (r.Done? && r.rest == []) <==> n == |body| && WellFormed(ty, withId, body)
  {
    FitsWhole(ty, withId, body);
    HeadersShorten(ty, withId, body);
    RestIff(ty, flags, n, body, Parsers.PacketHeaders(ty, withId, body), Parsers.ReadRest(ty, flags, withId, n, body));
  }

  lemma HeadersShorten(ty: PacketType, withId: bool, body: Bytes)
    ensures var h := Parsers.PacketHeaders(ty, withId, body); h.Done? ==> |h.rest| <= |body|
  {
    Parsers.HeadersConsume(ty, withId, body);
  }

  lemma RestIff(ty: PacketType, flags: Flags, n: nat, body: Bytes, h: IResult<Headers>, r: IResult<MqttPacket>)
    requires h.Done? ==> |h.rest| <= |body| && r == Parsers.WithPayload(ty, flags, h.value, n, |body| - |h.rest|, h.rest)
    requires !h.Done? ==> !r.Done?
    ensures (r.Done? && r.rest == []) <==>
      n == |body| && h.Done? && (ty != SubAck || (h.rest != [] && Parsers.CodeFrom(h.rest[0]).Some?))
  {
    if h.Done? { WholePayloadIff(ty, flags, h.value, n, |body| - |h.rest|, h.rest); }
  }

  /** A type, a length in any of its encodings, and a well-formed body of just that length. */
  predicate FrameShape(rule: Parsers.IdRule, f: Bytes) {
    && f != []
    && Parsers.TypeFrom(f[0] / 16).Some?
    && var n := VleFrom(f[1..], 0);
       n.Done? && n.value == |n.rest| && WellFormed(Parsers.TypeFrom(f[0] / 16).value, rule.Applies(f[0] % 16), n.rest)
  }

  /** Bytes are one frame exactly if they have this shape. */
  lemma FrameIff(rule: Parsers.IdRule, f: Bytes)
    ensures IsFrame(rule, f) <==> FrameShape(rule, f)
  {
    if f != [] && Parsers.TypeFrom(f[0] / 16).Some? && VleFrom(f[1..], 0).Done? {
      var n := VleFrom(f[1..], 0);
      BodyReadsIff(Parsers.TypeFrom(f[0] / 16).value, f[0] % 16, rule.Applies(f[0] % 16), n.value, n.rest);
    }
  }

  // ------------------------------------------------------------ when a PUBLISH carries an identifier

  /** What the headers of a PUBLISH are, with and without an identifier behind the topic. */
  lemma TopicHeaders(topic: MqttString, rest: Bytes)
    ensures var input, h := StringBytes(topic) + rest, NO_HEADERS.SetRaw("topic_name", topic);
      && Parsers.PublishHeaders(false, input) == Done(rest, h)
      && Parsers.PublishHeaders(true, input)
        == (if |rest| < 2 then Incomplete else Done(rest[2..], h.SetRaw("packet_id", rest[..2])))
      && |input| == 2 + |topic| + |rest|
  {
    TopicReads(topic, rest);
  }

  lemma PayloadOf(flags: Flags, h: Headers, used: nat, msg: Bytes, tail: Bytes)
    ensures Parsers.WithPayload(Publish, flags, h, used + |msg|, used, msg + tail)
      == Done(tail, MqttPacket(Publish, flags, h, Application(msg)))
  {
    assert (msg + tail)[..|msg|] == msg && (msg + tail)[|msg|..] == tail;
  }

  lemma ReadsWithoutId(flags: Flags, topic: MqttString, msg: Bytes, tail: Bytes)
    ensures Parsers.ReadRest(Publish, flags, false, |topic| + 2 + |msg|, StringBytes(topic) + (msg + tail))
      == Done(tail, MqttPacket(Publish, flags, NO_HEADERS.SetRaw("topic_name", topic), Application(msg)))
  {
    TopicHeaders(topic, msg + tail);
    PayloadOf(flags, NO_HEADERS.SetRaw("topic_name", topic), |topic| + 2, msg, tail);
  }

  lemma ReadsWithId(flags: Flags, topic: MqttString, msg: Bytes, tail: Bytes)
    ensures Parsers.ReadRest(Publish, flags, true, |topic| + 2 + |msg|, StringBytes(topic) + (msg + tail))
      == if |msg| + |tail| < 2 then Incomplete
         else if |msg| < 2 then Panic
         else Done(tail, MqttPacket(Publish, flags, NO_HEADERS.SetRaw("topic_name", topic).SetRaw("packet_id", msg[..2]),
                                    Application(msg[2..])))
  {
    TopicHeaders(topic, msg + tail);
    if |msg| >= 2 {
      assert (msg + tail)[2..] == msg[2..] + tail && (msg + tail)[..2] == msg[..2];
      PayloadOf(flags, NO_HEADERS.SetRaw("topic_name", topic).SetRaw("packet_id", msg[..2]), |topic| + 4, msg[2..], tail);
    }
  }

  /** The body of a PUBLISH at QoS 0, which has no identifier, read by each of the two rules. */
  lemma PublishWithoutId(flags: Flags, topic: MqttString, msg: Bytes, tail: Bytes)
    requires Qos(flags) == QoS0
    ensures var input, n := StringBytes(topic) + (msg + tail), |topic| + 2 + |msg|;
      var h := NO_HEADERS.SetRaw("topic_name", topic);
      && Parsers.AfterLength(Parsers.ByQos, Publish, flags, n, input)
        == Done(tail, MqttPacket(Publish, flags, h, Application(msg)))
      && Parsers.AfterLength(Parsers.AsWritten, Publish, flags, n, input)
        == if |msg| + |tail| < 2 then Incomplete
           else if |msg| < 2 then Panic
           else Done(tail, MqttPacket(Publish, flags, h.SetRaw("packet_id", msg[..2]), Application(msg[2..])))
  {
    ReadsWithoutId(flags, topic, msg, tail);
    ReadsWithId(flags, topic, msg, tail);
  }

  lemma TopicReads(topic: MqttString, rest: Bytes)
    ensures Parsers.LengthBytes(StringBytes(topic) + rest) == Done(rest, topic)
  {
    U16RoundTrip(|topic|, topic + rest);
    ConcatAssoc(U16Bytes(|topic|), topic, rest);
    var input := StringBytes(topic) + rest;
    assert input[..2] == U16Bytes(|topic|) && input[2..] == topic + rest;
    assert (topic + rest)[..|topic|] == topic && (topic + rest)[|topic|..] == rest;
    assert U16Bytes(|topic|) + [] == U16Bytes(|topic|);
    U16RoundTrip(|topic|, []);
  }

  ghost predicate RulesAgree(flags: Flags) {
    forall n: nat, input: Bytes ::
      Parsers.AfterLength(Parsers.AsWritten, Publish, flags, n, input)
      == Parsers.AfterLength(Parsers.ByQos, Publish, flags, n, input)
  }

  /** The rule as written reads all publishes right exactly at QoS 1 and 2. */
  lemma RulesAgreeIff(flags: Flags)
    ensures RulesAgree(flags) <==> Qos(flags) != QoS0
  {
    if Qos(flags) == QoS0 {
      var input := RulesDiffer(flags);
    } else {
      forall n: nat, input: Bytes
        ensures Parsers.AfterLength(Parsers.AsWritten, Publish, flags, n, input)
          == Parsers.AfterLength(Parsers.ByQos, Publish, flags, n, input)
      {
        SameRule(flags, n, input);
      }
    }
  }

  lemma SameRule(flags: Flags, n: nat, input: Bytes)
    requires Qos(flags) != QoS0
    ensures Parsers.AfterLength(Parsers.AsWritten, Publish, flags, n, input)
      == Parsers.AfterLength(Parsers.ByQos, Publish, flags, n, input)
  {
    var written, intended := Parsers.IdRule.AsWritten, Parsers.IdRule.ByQos;
    assert written.Applies(flags) == intended.Applies(flags);
  }

  /** An empty topic with nothing behind it: one rule is done, the other waits for an identifier. */
  lemma EmptyTopic()
    ensures Parsers.PublishHeaders(true, [0, 0]) == Incomplete
    ensures Parsers.PublishHeaders(false, [0, 0]) == Done([], NO_HEADERS.SetRaw("topic_name", []))
  {
    var input: Bytes := [0, 0];
    assert input[2..] == [] && input[..2] == [0, 0];
    assert Parsers.LengthBytes(input) == Done([], []);
  }

  lemma RulesDiffer(flags: Flags) returns (input: Bytes)
    requires Qos(flags) == QoS0
    ensures Parsers.AfterLength(Parsers.AsWritten, Publish, flags, 2, input)
      != Parsers.AfterLength(Parsers.ByQos, Publish, flags, 2, input)
  {
    input := [0, 0];
    EmptyTopic();
    PayloadReads(Publish, 2, 2, []);
    assert Parsers.AfterLength(Parsers.AsWritten, Publish, flags, 2, input).Incomplete?;
  }

  // ------------------------------------------------------------ reference decoders

  /** Section 1.5.3: a string behind its length. */
  function ReadString(b: Bytes): Option<(Bytes, Bytes)> {
    if |b| < 2 then None
    else
      var n := Word(b);
      if |b| < 2 + n then None else Some((b[2..2 + n], b[2 + n..]))
  }

  /** Section 2.2: the first byte, the remaining length, and a body of just that length. */
  function ReadBody(first: u8, b: Bytes): Option<Bytes> {
    if b == [] || b[0] != first then None
    else match VleFrom(b[1..], 0)
      case Done(rest, n) => if |rest| == n then Some(rest) else None
      case _ => None
  }

  /** Section 2.3.1: a packet identifier is not zero. */
  function ReadId(b: Bytes): Option<(u16, Bytes)> {
    if |b| < 2 || Word(b) == 0 then None else Some((Word(b), b[2..]))
  }

  function QosFrom(b: u8): Option<QualityOfService> {
    match b case 0 => Some(QoS0) case 1 => Some(QoS1) case 2 => Some(QoS2) case _ => None
  }

  function ReadSubs(b: Bytes): Option<seq<(Bytes, QualityOfService)>>
    decreases |b|
  {
    if b == [] then Some([])
    else match ReadString(b)
      case None => None
      case Some((s, rest)) =>
        if rest == [] || QosFrom(rest[0]).None? then None
        else match ReadSubs(rest[1..])
          case None => None
          case Some(more) => Some([(s, QosFrom(rest[0]).value)] + more)
  }

  function ReadTopics(b: Bytes): Option<seq<Bytes>>
    decreases |b|
  {
    if b == [] then Some([])
    else match ReadString(b)
      case None => None
      case Some((s, rest)) =>
        match ReadTopics(rest)
        case None => None
        case Some(more) => Some([s] + more)
  }

  /** Section 3.8: SUBSCRIBE names at least one filter. */
  function ReadSubscribe(b: Bytes): Option<(u16, seq<(Bytes, QualityOfService)>)> {
    match ReadBody(0x82, b)
    case None => None
    case Some(body) => SubscribeFields(ReadId(body))
  }

  function SubscribeFields(idAndRest: Option<(u16, Bytes)>): Option<(u16, seq<(Bytes, QualityOfService)>)> {
    match idAndRest
    case None => None
    case Some((id, rest)) =>
      match ReadSubs(rest)
      case None => None
      case Some(subs) => if subs == [] then None else Some((id, subs))
  }

  /** Section 3.10: UNSUBSCRIBE names at least one filter. */
  function ReadUnsubscribe(b: Bytes): Option<(u16, seq<Bytes>)> {
    match ReadBody(0xA2, b)
    case None => None
    case Some(body) => UnsubscribeFields(ReadId(body))
  }

  function UnsubscribeFields(idAndRest: Option<(u16, Bytes)>): Option<(u16, seq<Bytes>)> {
    match idAndRest
    case None => None
    case Some((id, rest)) =>
      match ReadTopics(rest)
      case None => None
      case Some(topics) => if topics == [] then None else Some((id, topics))
  }

  datatype ConnectFields = ConnectFields(
    clean: bool, keepAlive: u16, id: Bytes, will: Option<(Bytes, Bytes)>,
    user: Option<Bytes>, password: Option<Bytes>)

  /** A field that is there if its flag is set. */
  function ReadOptional(present: bool, b: Bytes): Option<(Option<Bytes>, Bytes)> {
    if !present then Some((None, b))
    else match ReadString(b)
      case None => None
      case Some((s, rest)) => Some((Some(s), rest))
  }

  predicate FlagSet(flags: u8, weight: u8)
    requires weight != 0
  {
    flags / weight % 2 == 1
  }

  /** Section 3.1.2.3 to 3.1.2.9: which flag combinations are allowed. */
  predicate FlagsAllowed(flags: u8) {
    && !FlagSet(flags, 1)
    && (!FlagSet(flags, 4) ==> flags / 8 % 8 == 0)
    && (FlagSet(flags, 4) ==> flags / 8 % 4 != 3)
    && (FlagSet(flags, 64) ==> FlagSet(flags, 128))
  }

  /** Section 3.1.3: client identifier, will topic and message, user name, password. */
  function ReadConnectPayload(flags: u8, keepAlive: u16, b: Bytes): Option<ConnectFields> {
    match ReadString(b)
    case None => None
    case Some((id, r1)) =>
      match ReadOptional(FlagSet(flags, 4), r1)
      case None => None
      case Some((willTopic, r2)) =>
        match ReadOptional(FlagSet(flags, 4), r2)
        case None => None
        case Some((willMessage, r3)) =>
          match ReadOptional(FlagSet(flags, 128), r3)
          case None => None
          case Some((user, r4)) =>
            match ReadOptional(FlagSet(flags, 64), r4)
            case None => None
            case Some((password, r5)) =>
              if r5 != [] then None
              else
                var will := if willTopic.Some? && willMessage.Some?
                            then Some((willTopic.value, willMessage.value)) else None;
                Some(ConnectFields(FlagSet(flags, 2), keepAlive, id, will, user, password))
  }

  /** Section 3.1: CONNECT of protocol level 4. */
  function ReadConnect(b: Bytes): Option<ConnectFields> {
    match ReadBody(0x10, b)
    case None => None
    case Some(body) =>
      if |body| < 10 || body[..7] != [0, 4, 77, 81, 84, 84, 4] || !FlagsAllowed(body[7]) then None
      else ReadConnectPayload(body[7], Word(body[8..]), body[10..])
  }

  // ------------------------------------------------------------ encodings are undone

  lemma U16RoundTrip(n: u16, tail: Bytes)
    ensures U16Of(U16Bytes(n) + tail) == n == Word(U16Bytes(n) + tail) && (U16Bytes(n) + tail)[2..] == tail
  {
  }

  lemma ReadStringBytes(s: MqttString, tail: Bytes)
    ensures ReadString(StringBytes(s) + tail) == Some((s, tail))
  {
    U16RoundTrip(|s|, s + tail);
    ConcatAssoc(U16Bytes(|s|), s, tail);
    var b := StringBytes(s) + tail;
    assert b[2..2 + |s|] == s && b[2 + |s|..] == tail;
  }

  lemma HeadAndTail(b: u8, rest: Bytes)
    ensures ([b] + rest)[0] == b && ([b] + rest)[1..] == rest
  {
  }

  lemma ReadBodyOf(p: MqttPacket)
    requires Encoded(p).Some?
    ensures ReadBody(p.ty.Code() * 16 + p.flags, Encoded(p).value) == Some(Body(p))
  {
    var body := Body(p);
    VleRoundTrip(|body|, body);
    ReadBodyBehind(p.ty.Code() * 16 + p.flags, VleBytes(|body|), body);
  }

  lemma ReadBodyBehind(first: u8, vle: Bytes, body: Bytes)
    requires VleFrom(vle + body, 0) == Done(body, |body|)
    ensures ReadBody(first, [first] + vle + body) == Some(body)
  {
    ConcatAssoc([first], vle, body);
    HeadAndTail(first, vle + body);
  }

  lemma ReadOneSub(s: MqttString, q: QualityOfService, more: Bytes)
    ensures ReadSubs(StringBytes(s) + [q.Bits()] + more) ==
      if ReadSubs(more).None? then None else Some([(s, q)] + ReadSubs(more).value)
  {
    ConcatAssoc(StringBytes(s), [q.Bits()], more);
    ReadStringBytes(s, [q.Bits()] + more);
    HeadAndTail(q.Bits(), more);
  }

  lemma {:induction false} ReadSubBytes(subs: seq<(MqttString, QualityOfService)>)
    ensures ReadSubs(SubBytes(subs)) == Some(subs)
  {
    if subs != [] {
      ReadOneSub(subs[0].0, subs[0].1, SubBytes(subs[1..]));
      ReadSubBytes(subs[1..]);
      assert subs == [subs[0]] + subs[1..];
    }
  }

  lemma {:induction false} ReadUnsubBytes(topics: seq<MqttString>)
    ensures ReadTopics(UnsubBytes(topics)) == Some(topics)
  {
    if topics != [] {
      ReadStringBytes(topics[0], UnsubBytes(topics[1..]));
      ReadUnsubBytes(topics[1..]);
      assert topics == [topics[0]] + topics[1..];
    }
  }

  lemma IdBody(p: MqttPacket, id: u16)
    requires p.headers == SetPacketId(NO_HEADERS, id)
    ensures ReadId(Body(p)) == if id == 0 then None else Some((id, PayloadBytes(p.payload)))
  {
    IdHeaderBytes(id);
    U16RoundTrip(id, PayloadBytes(p.payload));
  }

  lemma SubscribeFieldsBack(id: u16, subs: seq<(MqttString, QualityOfService)>)
    ensures SubscribeFields(Some((id, SubBytes(subs)))) == if subs == [] then None else Some((id, subs))
  {
    ReadSubBytes(subs);
  }

  lemma UnsubscribeFieldsBack(id: u16, topics: seq<MqttString>)
    ensures UnsubscribeFields(Some((id, UnsubBytes(topics)))) == if topics == [] then None else Some((id, topics))
  {
    ReadUnsubBytes(topics);
  }

  /** The body is what `encode` was given, behind the first byte that section 3.8 or 3.10 wants. */
  lemma ReadBackBody(p: MqttPacket, id: u16, first: u8)
    requires Encoded(p).Some? && p.headers == SetPacketId(NO_HEADERS, id) && first == p.ty.Code() * 16 + p.flags
    ensures var body := ReadBody(first, Encoded(p).value);
      body.Some? && ReadId(body.value) == if id == 0 then None else Some((id, PayloadBytes(p.payload)))
  {
    ReadBodyOf(p);
    IdBody(p, id);
  }

  /** A SUBSCRIBE is read back by section 3.8 exactly if its identifier and its list are legal. */
  lemma SubscribeRoundTrip(id: u16, subs: seq<(MqttString, QualityOfService)>)
    requires Encoded(SubscribePacket(id, subs)).Some?
    ensures ReadSubscribe(Encoded(SubscribePacket(id, subs)).value) ==
      if id != 0 && subs != [] then Some((id, subs)) else None
  {
    var p := SubscribePacket(id, subs);
    ReadBackBody(p, id, 0x82);
    SubscribeFieldsBack(id, subs);
  }

  /** The same for UNSUBSCRIBE and section 3.10. */
  lemma UnsubscribeRoundTrip(id: u16, topics: seq<MqttString>)
    requires Encoded(UnsubscribePacket(id, topics)).Some?
    ensures ReadUnsubscribe(Encoded(UnsubscribePacket(id, topics)).value) ==
      if id != 0 && topics != [] then Some((id, topics)) else None
  {
    var p := UnsubscribePacket(id, topics);
    ReadBackBody(p, id, 0xA2);
    UnsubscribeFieldsBack(id, topics);
  }

  lemma ConnectHeaderBytes(lwt: Option<LWTMessage>, creds: Credentials, clean: bool, keepAlive: u16,
                           id: Option<MqttString>)
    ensures HeaderBytes(ConnectPacket(lwt, creds, clean, keepAlive, id).headers.data)
      == [0, 4] + PROTOCOL_NAME + [PROTOCOL_LEVEL, ConnectFlagBits(lwt, creds, clean)] + U16Bytes(keepAlive)
  {
    var flags := ConnectFlagBits(lwt, creds, clean);
    var h1 := SetNewHeader(NO_HEADERS, "protocol_name", StringBytes(PROTOCOL_NAME));
    var h2 := SetNewHeader(h1, "protocol_level", [PROTOCOL_LEVEL]);
    var h3 := SetNewHeader(h2, "connect_flags", [flags]);
    var h4 := SetNewHeader(h3, "keep_alive", U16Bytes(keepAlive));
    assert h4 == ConnectPacket(lwt, creds, clean, keepAlive, id).headers;
    HeaderParts(HeaderBytes(NO_HEADERS.data), flags, keepAlive);
  }

  lemma HeaderParts(none: Bytes, flags: u8, keepAlive: u16)
    requires none == []
    ensures none + StringBytes(PROTOCOL_NAME) + [PROTOCOL_LEVEL] + [flags] + U16Bytes(keepAlive)
      == [0, 4] + PROTOCOL_NAME + [PROTOCOL_LEVEL, flags] + U16Bytes(keepAlive)
  {
  }

  /** A header under a new name goes to the end. */
  lemma SetNewHeader(h: Headers, name: string, value: Bytes) returns (r: Headers)
    requires h.GetRaw(name).None?
    ensures r == h.SetRaw(name, value) && r.data == h.data + [(name, value)]
    ensures HeaderBytes(r.data) == HeaderBytes(h.data) + value
    ensures forall other | other != name && h.GetRaw(other).None? :: r.GetRaw(other).None?
  {
    r := h.SetRaw(name, value);
    WithoutNew(h.data, name);
    HeaderBytesAppend(h.data, name, value);
    forall other | other != name && h.GetRaw(other).None? ensures r.GetRaw(other).None? {
      LookupAppend(h.data, name, value, other);
    }
  }

  lemma {:induction false} LookupAppend(data: seq<(string, Bytes)>, name: string, value: Bytes, other: string)
    requires Lookup(data, other).None? && other != name
    ensures Lookup(data + [(name, value)], other).None?
  {
    if data != [] {
      LookupAppend(data[1..], name, value, other);
      assert (data + [(name, value)])[1..] == data[1..] + [(name, value)];
    } else {
      assert [(name, value)][1..] == [];
    }
  }

  lemma {:induction false} WithoutNew(data: seq<(string, Bytes)>, name: string)
    requires Lookup(data, name).None?
    ensures Without(data, name) == data
  {
    if data != [] {
      WithoutNew(data[1..], name);
      assert data == [data[0]] + data[1..];
    }
  }

  lemma {:induction false} HeaderBytesAppend(data: seq<(string, Bytes)>, name: string, value: Bytes)
    ensures HeaderBytes(data + [(name, value)]) == HeaderBytes(data) + value
  {
    if data == [] {
      assert [(name, value)][1..] == [];
      assert data + [(name, value)] == [(name, value)];
    } else {
      HeaderBytesAppend(data[1..], name, value);
      assert (data + [(name, value)])[1..] == data[1..] + [(name, value)];
      ConcatAssoc(data[0].1, HeaderBytes(data[1..]), value);
    }
  }

  function FieldsOf(lwt: Option<LWTMessage>, creds: Credentials, clean: bool, keepAlive: u16,
                    id: Option<MqttString>): ConnectFields
  {
    ConnectFields(clean, keepAlive, if id.Some? then id.value else [],
      if lwt.Some? then Some((lwt.value.topic, lwt.value.message)) else None,
      if creds.Some? then Some(creds.value.0) else None,
      if creds.Some? then creds.value.1 else None)
  }

  lemma FlagBitsRead(lwt: Option<LWTMessage>, creds: Credentials, clean: bool)
    ensures var flags := ConnectFlagBits(lwt, creds, clean);
      && !FlagSet(flags, 4) && !FlagSet(flags, 1)
      && FlagSet(flags, 128) == creds.Some?
      && FlagSet(flags, 64) == (creds.Some? && creds.value.1.Some?)
      && (lwt.None? ==> FlagsAllowed(flags) && FlagSet(flags, 2) == clean)
  {
  }

  /** A will leaves its retain bit only: no will flag, no QoS, and at QoS 2 a clean session. */
  lemma WillFlags(will: LWTMessage, creds: Credentials, clean: bool)
    ensures var flags := ConnectFlagBits(Some(will), creds, clean);
      && !FlagSet(flags, 4) && !FlagSet(flags, 8) && !FlagSet(flags, 16)
      && FlagSet(flags, 32) == will.retain
      && FlagSet(flags, 2) == (clean || will.qos == QoS2)
  {
  }

  lemma ReadCredBytes(creds: Credentials)
    ensures var b := CredBytes(creds);
      && ReadOptional(creds.Some?, b).Some?
      && var (user, r) := ReadOptional(creds.Some?, b).value;
      && user == (if creds.Some? then Some(creds.value.0) else None)
      && ReadOptional(creds.Some? && creds.value.1.Some?, r)
        == Some((if creds.Some? then creds.value.1 else None, []))
  {
    if creds.Some? {
      var pass := if creds.value.1.Some? then StringBytes(creds.value.1.value) else [];
      ReadStringBytes(creds.value.0, pass);
      if creds.value.1.Some? {
        ReadStringBytes(creds.value.1.value, []);
        assert pass + [] == pass;
      }
    }
  }

  /** A CONNECT is read back by section 3.1 exactly if it carries no will. */
  lemma ConnectRoundTripIff(lwt: Option<LWTMessage>, creds: Credentials, clean: bool, keepAlive: u16,
                            id: Option<MqttString>)
    requires Encoded(ConnectPacket(lwt, creds, clean, keepAlive, id)).Some?
    ensures (ReadConnect(Encoded(ConnectPacket(lwt, creds, clean, keepAlive, id)).value)
             == Some(FieldsOf(lwt, creds, clean, keepAlive, id))) <==> lwt.None?
  {
    var p := ConnectPacket(lwt, creds, clean, keepAlive, id);
    var flags, payload := ConnectFlagBits(lwt, creds, clean), PayloadBytes(p.payload);
    ReadBodyOf(p);
    ConnectHeaderBytes(lwt, creds, clean, keepAlive, id);
    ConnectBody(flags, keepAlive, payload);
    FlagBitsRead(lwt, creds, clean);
    assert ReadConnect(Encoded(p).value)
      == if FlagsAllowed(flags) then ReadConnectPayload(flags, keepAlive, payload) else None;
    if lwt.None? {
      ReadPayloadWithoutWill(creds, clean, keepAlive, id);
    } else if FlagsAllowed(flags) && ReadConnectPayload(flags, keepAlive, payload).Some? {
      NoWillWithoutFlag(flags, keepAlive, payload);
    }
  }

  lemma ConnectBody(flags: u8, keepAlive: u16, payload: Bytes)
    ensures var body := [0, 4] + PROTOCOL_NAME + [PROTOCOL_LEVEL, flags] + U16Bytes(keepAlive) + payload;
      && |body| >= 10 && body[..7] == [0, 4, 77, 81, 84, 84, 4] && body[7] == flags
      && Word(body[8..]) == keepAlive && body[10..] == payload
  {
    var body := [0, 4] + PROTOCOL_NAME + [PROTOCOL_LEVEL, flags] + U16Bytes(keepAlive) + payload;
    assert body[8..] == U16Bytes(keepAlive) + payload;
    U16RoundTrip(keepAlive, payload);
  }

  lemma NoWillWithoutFlag(flags: u8, keepAlive: u16, b: Bytes)
    requires !FlagSet(flags, 4) && ReadConnectPayload(flags, keepAlive, b).Some?
    ensures ReadConnectPayload(flags, keepAlive, b).value.will.None?
  {
  }

  lemma ReadPayloadWithoutWill(creds: Credentials, clean: bool, keepAlive: u16, id: Option<MqttString>)
    ensures ReadConnectPayload(ConnectFlagBits(None, creds, clean), keepAlive,
        PayloadBytes(ConnectPacket(None, creds, clean, keepAlive, id).payload))
      == Some(FieldsOf(None, creds, clean, keepAlive, id))
  {
    var cid: MqttString := if id.Some? then id.value else [];
    FlagBitsRead(None, creds, clean);
    ReadStringBytes(cid, CredBytes(creds));
    assert PayloadBytes(ConnectPacket(None, creds, clean, keepAlive, id).payload)
      == StringBytes(cid) + [] + CredBytes(creds) == StringBytes(cid) + CredBytes(creds);
    ReadCredBytes(creds);
  }
}
