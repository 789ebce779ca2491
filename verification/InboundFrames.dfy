/** What the client makes of each packet of a server, byte by byte. */
module InboundFrames {
  import opened Prelude
  import opened Vle
  import opened Packets
  import opened Codec
  import opened Wire
  import Parsers

  // ------------------------------------------------------------ flags and lengths

  /** Section 3.3.1: DUP, two bits of QoS, RETAIN; two QoS bits together read as QoS 2. */
  lemma QosBits(dup: u8, q: u8, retain: u8)
    requires dup < 2 && q < 4 && retain < 2
    ensures Qos(8 * dup + 2 * q + retain) == if q == 0 then QoS0 else if q == 1 then QoS1 else QoS2
  {
  }

  /** Section 2.2.2: the flags of what a server sends are 0, and 2 for PUBREL; other packets pass. */
  lemma ValidFlags(p: MqttPacket)
    ensures Validate(p) <==>
      p.ty in {Connect, Publish, Subscribe, Unsubscribe, PingReq, Disconnect} || p.flags == if p.ty == PubRel then 2 else 0
  {
  }

  lemma TwoGroups(a: u8, b: u8, rest: Bytes)
    requires a >= 128 && b < 128
    ensures VleFrom([a, b] + rest, 0) == Done(rest, a - 128 + 128 * b)
  {
    var input := [a, b] + rest;
    assert input[..2] == [a, b] && input[2..] == rest && [a, b][1..] == [b] && [b][1..] == [];
    assert Value([b]) == b && Value([a, b]) == a - 128 + 128 * b;
    assert input[0] == a && input[1] == b && VleFrom(input, 0) == VleFrom(input, 1);
  }

  /** The lengths that section 2.2.3 gives as examples, and their neighbours in the code's own tests. */
  lemma LengthSamples(rest: Bytes)
    ensures VleFrom([0x19] + rest, 0) == Done(rest, 25)
    ensures VleFrom([0xC1, 0x02] + rest, 0) == Done(rest, 321)
    ensures VleFrom([0x80, 0x80], 0) == Incomplete
    ensures VleFrom([0x80, 0x80, 0x80, 0x80, 0x01], 0) == Error
  {
    var input := [0x19] + rest;
    assert input[..1] == [0x19] && input[1..] == rest && [0x19][1..] == [];
    TwoGroups(0xC1, 0x02, rest);
    var long: Bytes := [0x80, 0x80, 0x80, 0x80, 0x01];
    assert VleFrom(long, 4) == Error && VleFrom(long, 3) == Error && VleFrom(long, 2) == Error;
  }

  // ------------------------------------------------------------ packets

  lemma FirstOf(flags: Flags)
    ensures (0x30 + flags) / 16 == 3 && (0x30 + flags) % 16 == flags
  {
  }

  /** The length bytes read as `n` in front of `rest`. */
  predicate IsLength(vle: Bytes, n: nat, rest: Bytes) { VleFrom(vle + rest, 0) == Done(rest, n) }

  lemma AfterLengthIs(rule: Parsers.IdRule, ty: PacketType, flags: Flags, withId: bool, n: nat, rest: Bytes)
    requires rule.Applies(flags) == withId
    ensures Parsers.AfterLength(rule, ty, flags, n, rest) == Parsers.ReadRest(ty, flags, withId, n, rest)
  {
  }

  /** The packet type and the flags in the first byte. */
  predicate IsFirst(first: u8, ty: PacketType, flags: Flags) {
    Parsers.TypeFrom(first / 16) == Some(ty) && first % 16 == flags
  }

  lemma SliceReads(rule: Parsers.IdRule, data: Bytes, tail: Bytes, p: MqttPacket)
    requires Parsers.Packet(rule, data) == Done(tail, p)
    ensures FromSlice(rule, data) == Packet(p, tail)
  {
  }

  /** A frame whose rest is read as `p` is read as `p`. */
  lemma FrameReads(rule: Parsers.IdRule, first: u8, withId: bool, vle: Bytes, n: nat, rest: Bytes, tail: Bytes, p: MqttPacket)
    requires IsFirst(first, p.ty, p.flags) && rule.Applies(p.flags) == withId && IsLength(vle, n, rest)
    requires Parsers.ReadRest(p.ty, p.flags, withId, n, rest) == Done(tail, p)
    ensures FromSlice(rule, [first] + vle + rest) == Packet(p, tail)
  {
    ReadHeader(rule, first, vle, p.ty, p.flags, n, rest);
    AfterLengthIs(rule, p.ty, p.flags, withId, n, rest);
    SliceReads(rule, [first] + vle + rest, tail, p);
  }

  lemma TwoByteBody(a: u8, b: u8, tail: Bytes)
    ensures var input := [a, b] + tail;
      Parsers.Take(2, input) == Done(tail, [a, b]) && Parsers.Take(1, input) == Done([b] + tail, [a])
      && Parsers.Take(1, [b] + tail) == Done(tail, [b])
  {
    var input := [a, b] + tail;
    assert input[..2] == [a, b] && input[2..] == tail && input[..1] == [a] && input[1..] == [b] + tail;
    assert ([b] + tail)[..1] == [b] && ([b] + tail)[1..] == tail;
  }

  lemma NoPayloadLeft(ty: PacketType, flags: Flags, h: Headers, n: nat, tail: Bytes)
    requires ty != Publish && ty != SubAck
    ensures Parsers.WithPayload(ty, flags, h, n, n, tail) == Done(tail, MqttPacket(ty, flags, h, NoPayload))
  {
    assert tail[..0] == [] && tail[0..] == tail;
  }

  /** A CONNACK: the acknowledge flags, then the return code. */
  lemma ConnAckRead(rule: Parsers.IdRule, vle: Bytes, flags: u8, code: u8, tail: Bytes)
    requires IsLength(vle, 2, [flags, code] + tail)
    ensures var s := FromSlice(rule, [0x20] + vle + ([flags, code] + tail));
      && s.Packet? && s.rest == tail && s.packet.ty == ConnAck && s.packet.flags == 0 && s.packet.payload == NoPayload
      && s.packet.headers.GetRaw("connect_ack_flags") == Some([flags])
      && s.packet.headers.GetRaw("connect_return_code") == Some([code])
  {
    var h := NO_HEADERS.SetRaw("connect_ack_flags", [flags]).SetRaw("connect_return_code", [code]);
    var p := MqttPacket(ConnAck, 0, h, NoPayload);
    ConnAckRest(rule.Applies(0), flags, code, tail, p);
    FrameReads(rule, 0x20, rule.Applies(0), vle, 2, [flags, code] + tail, tail, p);
    ConnAckHeadersAre(flags, code);
  }

  lemma ConnAckRest(withId: bool, flags: u8, code: u8, tail: Bytes, p: MqttPacket)
    requires p == MqttPacket(ConnAck, 0,
      NO_HEADERS.SetRaw("connect_ack_flags", [flags]).SetRaw("connect_return_code", [code]), NoPayload)
    ensures Parsers.ReadRest(ConnAck, 0, withId, 2, [flags, code] + tail) == Done(tail, p)
  {
    TwoByteBody(flags, code, tail);
    assert Parsers.ConnAckHeaders([flags, code] + tail) == Done(tail, p.headers);
    NoPayloadLeft(ConnAck, 0, p.headers, 2, tail);
  }

  lemma SecondHeader(h: Headers, name: string, value: Bytes, other: string, more: Bytes)
    requires name != other && h.data == [(name, value), (other, more)]
    ensures h.GetRaw(name) == Some(value) && h.GetRaw(other) == Some(more)
  {
    var rest := h.data[1..];
    assert rest == [(other, more)] && rest[0] == (other, more) && h.data[0] == (name, value);
    assert Lookup(h.data, other) == Lookup(rest, other) == Some(more);
  }

  lemma ConnAckHeadersAre(flags: u8, code: u8)
    ensures var h := NO_HEADERS.SetRaw("connect_ack_flags", [flags]).SetRaw("connect_return_code", [code]);
      h.GetRaw("connect_ack_flags") == Some([flags]) && h.GetRaw("connect_return_code") == Some([code])
  {
    var h1 := SetNewHeader(NO_HEADERS, "connect_ack_flags", [flags]);
    var h2 := SetNewHeader(h1, "connect_return_code", [code]);
    assert h1.data == [("connect_ack_flags", [flags])];
    assert h2.data == [("connect_ack_flags", [flags]), ("connect_return_code", [code])];
    SecondHeader(h2, "connect_ack_flags", [flags], "connect_return_code", [code]);
  }

  lemma IdHeadersRead(high: u8, low: u8, tail: Bytes)
    ensures var h := NO_HEADERS.SetRaw("packet_id", [high, low]);
      Parsers.IdHeaders([high, low] + tail) == Done(tail, h) && GetPacketId(h) == Some(256 * high + low)
  {
    TwoByteBody(high, low, tail);
    var h := SetNewHeader(NO_HEADERS, "packet_id", [high, low]);
    assert h.data == [("packet_id", [high, low])];
  }

  /** An UNSUBACK: the identifier. */
  lemma UnsubAckRead(rule: Parsers.IdRule, vle: Bytes, high: u8, low: u8, tail: Bytes)
    requires IsLength(vle, 2, [high, low] + tail)
    ensures var s := FromSlice(rule, [0xB0] + vle + ([high, low] + tail));
      && s.Packet? && s.rest == tail && s.packet.ty == UnsubAck && s.packet.flags == 0 && s.packet.payload == NoPayload
      && GetPacketId(s.packet.headers) == Some(256 * high + low)
  {
    var p := MqttPacket(UnsubAck, 0, NO_HEADERS.SetRaw("packet_id", [high, low]), NoPayload);
    IdHeadersRead(high, low, tail);
    NoPayloadLeft(UnsubAck, 0, p.headers, 2, tail);
    FrameReads(rule, 0xB0, rule.Applies(0), vle, 2, [high, low] + tail, tail, p);
  }

  /** A PINGRESP: nothing. */
  lemma PingRespRead(rule: Parsers.IdRule, vle: Bytes, tail: Bytes)
    requires IsLength(vle, 0, tail)
    ensures FromSlice(rule, [0xD0] + vle + tail) == Packet(MqttPacket(PingResp, 0, NO_HEADERS, NoPayload), tail)
  {
    var p := MqttPacket(PingResp, 0, NO_HEADERS, NoPayload);
    NoPayloadLeft(PingResp, 0, NO_HEADERS, 0, tail);
    FrameReads(rule, 0xD0, rule.Applies(0), vle, 0, tail, tail, p);
  }

  /** Section 3.9.3: the return codes of a SUBACK. */
  predicate IsCode(b: u8, c: SubAckReturnCode) {
    (b == 0 && c == SuccessQoS0) || (b == 1 && c == SuccessQoS1) || (b == 2 && c == SuccessQoS2) || (b == 128 && c == Failure)
  }

  /** The codes read are those in front, as long as they are valid. */
  lemma {:induction false} CodesRead(b: Bytes)
    ensures forall i | 0 <= i < |Parsers.Codes(b)| :: IsCode(b[i], Parsers.Codes(b)[i])
    ensures |Parsers.Codes(b)| < |b| ==> b[|Parsers.Codes(b)|] !in {0, 1, 2, 128}
  {
    if b != [] && Parsers.CodeFrom(b[0]).Some? { CodesRead(b[1..]); }
  }

  /** A SUBACK: the identifier, and its codes up to the first that is none. */
  lemma SubAckRead(rule: Parsers.IdRule, vle: Bytes, high: u8, low: u8, codes: Bytes, tail: Bytes)
    requires IsLength(vle, 2 + |codes|, [high, low] + (codes + tail)) && codes != [] && codes[0] in {0, 1, 2, 128}
    ensures var s := FromSlice(rule, [0x90] + vle + ([high, low] + (codes + tail)));
      && s.Packet? && s.rest == tail && s.packet.ty == SubAck && s.packet.flags == 0
      && GetPacketId(s.packet.headers) == Some(256 * high + low)
      && s.packet.payload.SubAckPayload? && AreCodes(codes, s.packet.payload.codes)
  {
    var p := MqttPacket(SubAck, 0, NO_HEADERS.SetRaw("packet_id", [high, low]), SubAckPayload(Parsers.Codes(codes)));
    IdHeadersRead(high, low, codes + tail);
    SubAckPayloadRead(p.headers, codes, tail);
    FrameReads(rule, 0x90, rule.Applies(0), vle, 2 + |codes|, [high, low] + (codes + tail), tail, p);
    CodesRead(codes);
  }

  /** The codes in front, by their numbers, up to a byte that is none. */
  predicate AreCodes(b: Bytes, codes: seq<SubAckReturnCode>) {
    && 0 < |codes| <= |b|
    && (forall i | 0 <= i < |codes| :: IsCode(b[i], codes[i]))
    && (|codes| < |b| ==> b[|codes|] !in {0, 1, 2, 128})
  }

  lemma SubAckPayloadRead(h: Headers, codes: Bytes, tail: Bytes)
    requires codes != [] && codes[0] in {0, 1, 2, 128}
    ensures Parsers.WithPayload(SubAck, 0, h, 2 + |codes|, 2, codes + tail)
      == Done(tail, MqttPacket(SubAck, 0, h, SubAckPayload(Parsers.Codes(codes))))
    ensures Parsers.Codes(codes) != []
  {
    SplitAt(codes, tail);
    SubAckCodesRead(codes);
    PartRead(2 + |codes|, codes + tail, codes, tail);
  }

  lemma SplitAt(front: Bytes, tail: Bytes)
    ensures (front + tail)[..|front|] == front && (front + tail)[|front|..] == tail
  {
  }

  lemma SubAckCodesRead(codes: Bytes)
    requires codes != [] && codes[0] in {0, 1, 2, 128}
    ensures Parsers.Codes(codes) != []
    ensures Parsers.PacketPayload(SubAck, codes).Done?
      && Parsers.PacketPayload(SubAck, codes).value == SubAckPayload(Parsers.Codes(codes))
  {
  }

  lemma PartRead(n: nat, input: Bytes, front: Bytes, tail: Bytes)
    requires n == 2 + |front| && |front| <= |input| && input[..|front|] == front && input[|front|..] == tail
    requires Parsers.PacketPayload(SubAck, front).Done?
    ensures Parsers.PayloadPart(SubAck, n, 2, input) == Done(tail, Parsers.PacketPayload(SubAck, front).value)
  {
  }

  function PublishBody(topic: MqttString, rest: Bytes): Bytes { StringBytes(topic) + rest }

  lemma PublishWithId(flags: Flags, topic: MqttString, high: u8, low: u8, msg: Bytes, tail: Bytes, p: MqttPacket)
    requires p == MqttPacket(Publish, flags, NO_HEADERS.SetRaw("topic_name", topic).SetRaw("packet_id", [high, low]), Application(msg))
    ensures Parsers.ReadRest(Publish, flags, true, |topic| + 4 + |msg|, PublishBody(topic, [high, low] + msg) + tail) == Done(tail, p)
  {
    var rest := [high, low] + msg;
    ConcatAssoc(StringBytes(topic), rest, tail);
    assert rest[..2] == [high, low] && rest[2..] == msg;
    ReadsWithId(flags, topic, rest, tail);
  }

  /** What is read of a PUBLISH with an identifier. */
  predicate IsPublishRead(s: Slice, flags: Flags, topic: MqttString, high: u8, low: u8, msg: Bytes, tail: Bytes) {
    && s.Packet? && s.rest == tail && s.packet.ty == Publish && s.packet.flags == flags
    && s.packet.headers.GetRaw("topic_name") == Some(topic)
    && GetPacketId(s.packet.headers) == Some(256 * high + low)
    && s.packet.payload == Application(msg)
  }

  /** A PUBLISH at QoS 1 or 2: topic, identifier, message. */
  lemma PublishRead(rule: Parsers.IdRule, vle: Bytes, flags: Flags, topic: MqttString, high: u8, low: u8, msg: Bytes, tail: Bytes)
    requires Qos(flags) != QoS0 && IsLength(vle, |topic| + 4 + |msg|, PublishBody(topic, [high, low] + msg) + tail)
    ensures IsPublishRead(FromSlice(rule, [0x30 + flags] + vle + (PublishBody(topic, [high, low] + msg) + tail)),
      flags, topic, high, low, msg, tail)
  {
    FirstOf(flags);
    PublishFrame(rule, 0x30 + flags, vle, flags, topic, high, low, msg, tail);
  }

  lemma PublishFrame(rule: Parsers.IdRule, first: u8, vle: Bytes, flags: Flags, topic: MqttString, high: u8, low: u8, msg: Bytes, tail: Bytes)
    requires IsFirst(first, Publish, flags) && rule.Applies(flags) == true
    requires IsLength(vle, |topic| + 4 + |msg|, PublishBody(topic, [high, low] + msg) + tail)
    ensures IsPublishRead(FromSlice(rule, [first] + vle + (PublishBody(topic, [high, low] + msg) + tail)),
      flags, topic, high, low, msg, tail)
  {
    var h := NO_HEADERS.SetRaw("topic_name", topic).SetRaw("packet_id", [high, low]);
    var p := MqttPacket(Publish, flags, h, Application(msg));
    PublishWithId(flags, topic, high, low, msg, tail, p);
    FrameReads(rule, first, true, vle, |topic| + 4 + |msg|, PublishBody(topic, [high, low] + msg) + tail, tail, p);
    TopicAndId(topic, high, low);
  }

  lemma TopicAndId(topic: MqttString, high: u8, low: u8)
    ensures var h := NO_HEADERS.SetRaw("topic_name", topic).SetRaw("packet_id", [high, low]);
      h.GetRaw("topic_name") == Some(topic) && GetPacketId(h) == Some(256 * high + low)
  {
    var h1 := SetNewHeader(NO_HEADERS, "topic_name", topic);
    var h2 := SetNewHeader(h1, "packet_id", [high, low]);
    assert h1.data == [("topic_name", topic)];
    assert h2.data == [("topic_name", topic), ("packet_id", [high, low])];
    SecondHeader(h2, "topic_name", topic, "packet_id", [high, low]);
  }

  /** A PUBLISH at QoS 0, read by the intended rule: topic and message. */
  lemma PublishQos0Read(vle: Bytes, flags: Flags, topic: MqttString, msg: Bytes, tail: Bytes)
    requires Qos(flags) == QoS0 && IsLength(vle, |topic| + 2 + |msg|, PublishBody(topic, msg) + tail)
    ensures var s := FromSlice(Parsers.ByQos, [0x30 + flags] + vle + (PublishBody(topic, msg) + tail));
      && s.Packet? && s.rest == tail && s.packet.ty == Publish && s.packet.flags == flags
      && s.packet.headers.data == [("topic_name", topic)] && s.packet.payload == Application(msg)
  {
    FirstOf(flags);
    PublishQos0Frame(0x30 + flags, vle, flags, topic, msg, tail);
  }

  lemma PublishQos0Frame(first: u8, vle: Bytes, flags: Flags, topic: MqttString, msg: Bytes, tail: Bytes)
    requires IsFirst(first, Publish, flags) && Parsers.IdRule.ByQos.Applies(flags) == false
    requires IsLength(vle, |topic| + 2 + |msg|, PublishBody(topic, msg) + tail)
    ensures var s := FromSlice(Parsers.ByQos, [first] + vle + (PublishBody(topic, msg) + tail));
      && s.Packet? && s.rest == tail && s.packet.ty == Publish && s.packet.flags == flags
      && s.packet.headers.data == [("topic_name", topic)] && s.packet.payload == Application(msg)
  {
    var h := SetNewHeader(NO_HEADERS, "topic_name", topic);
    var p := MqttPacket(Publish, flags, h, Application(msg));
    PublishWithoutIdReads(flags, topic, msg, tail, p);
    FrameReads(Parsers.ByQos, first, false, vle, |topic| + 2 + |msg|, PublishBody(topic, msg) + tail, tail, p);
  }

  lemma PublishWithoutIdReads(flags: Flags, topic: MqttString, msg: Bytes, tail: Bytes, p: MqttPacket)
    requires p == MqttPacket(Publish, flags, NO_HEADERS.SetRaw("topic_name", topic), Application(msg))
    ensures Parsers.ReadRest(Publish, flags, false, |topic| + 2 + |msg|, PublishBody(topic, msg) + tail) == Done(tail, p)
  {
    ConcatAssoc(StringBytes(topic), msg, tail);
    ReadsWithoutId(flags, topic, msg, tail);
  }

  // ------------------------------------------------------------ waiting and failing

  datatype Kind = Whole | More | Bad

  /** How many bytes the variable header takes, once its own length is known. */
  function HeaderLength(ty: PacketType, withId: bool, rest: Bytes): nat {
    match ty
    case PingResp => 0
    case Publish => if |rest| < 2 then 2 else 2 + Word(rest) + (if withId then 2 else 0)
    case _ => 2
  }

  predicate FromServer(ty: PacketType) {
    ty in {ConnAck, Publish, PubAck, PubRec, PubRel, PubComp, SubAck, UnsubAck, PingResp}
  }

  /** What is to be said of the bytes behind the length `n`. */
  function RestKind(ty: PacketType, withId: bool, n: nat, rest: Bytes): Kind {
    var h := HeaderLength(ty, withId, rest);
    if !FromServer(ty) then Bad
    else if |rest| < h then More
    else if n < h then Bad
    else if |rest| < n then More
    else if ty != SubAck then Whole
    else if n == h then More
    else if rest[h] in {0, 1, 2, 128} then Whole else Bad
  }

  /** A slice holds a packet, is the beginning of one, or cannot be one. */
  function SliceKind(rule: Parsers.IdRule, data: Bytes): Kind {
    if data == [] then More
    else if data[0] < 16 || data[0] >= 240 then Bad
    else match VleFrom(data[1..], 0)
      case Done(rest, n) => RestKind(Parsers.TypeFrom(data[0] / 16).value, rule.Applies(data[0] % 16), n, rest)
      case Incomplete => More
      case _ => Bad
  }

  lemma PublishKind(withId: bool, rest: Bytes)
    ensures var h, n := Parsers.PublishHeaders(withId, rest), HeaderLength(Publish, withId, rest);
      if |rest| < n then h == Incomplete else h.Done? && h.rest == rest[n..]
  {
    if |rest| >= 2 {
      assert U16Of(rest[..2]) == Word(rest);
      if |rest| >= 2 + Word(rest) { assert rest[2..][Word(rest)..] == rest[2 + Word(rest)..]; }
    }
  }

  lemma HeadersKind(ty: PacketType, withId: bool, rest: Bytes)
    requires FromServer(ty)
    ensures var h, n := Parsers.PacketHeaders(ty, withId, rest), HeaderLength(ty, withId, rest);
      if |rest| < n then h == Incomplete else h.Done? && h.rest == rest[n..]
  {
    if ty == Publish {
      PublishKind(withId, rest);
    } else {
      assert rest[0..] == rest;
      if |rest| >= 2 { assert rest[1..][1..] == rest[2..]; }
    }
  }

  lemma PayloadKind(ty: PacketType, flags: Flags, headers: Headers, n: nat, h: nat, left: Bytes)
    requires FromServer(ty)
    ensures var r := Parsers.WithPayload(ty, flags, headers, n, h, left);
      if n < h then r == Panic
      else if |left| < n - h then r == Incomplete
      else if ty != SubAck then r.Done?
      else if n == h then r == Incomplete
      else if left[0] in {0, 1, 2, 128} then r.Done? else r == Error
  {
    if n >= h && |left| >= n - h && n > h { assert left[..n - h][0] == left[0]; }
  }

  predicate HasKind<T>(r: IResult<T>, k: Kind) {
    match k
    case Whole => r.Done?
    case More => r.Incomplete?
    case Bad => r.Error? || r.Panic?
  }

  lemma RestIsKind(ty: PacketType, flags: Flags, withId: bool, n: nat, rest: Bytes)
    ensures HasKind(Parsers.ReadRest(ty, flags, withId, n, rest), RestKind(ty, withId, n, rest))
  {
    if FromServer(ty) {
      var h := HeaderLength(ty, withId, rest);
      HeadersKind(ty, withId, rest);
      if |rest| >= h {
        var headers := Parsers.PacketHeaders(ty, withId, rest).value;
        PayloadKind(ty, flags, headers, n, h, rest[h..]);
        AfterHeaders(ty, flags, withId, n, rest, h);
      }
    }
  }

  lemma AfterHeaders(ty: PacketType, flags: Flags, withId: bool, n: nat, rest: Bytes, h: nat)
    requires h <= |rest| && Parsers.PacketHeaders(ty, withId, rest).Done? && Parsers.PacketHeaders(ty, withId, rest).rest == rest[h..]
    ensures Parsers.ReadRest(ty, flags, withId, n, rest)
      == Parsers.WithPayload(ty, flags, Parsers.PacketHeaders(ty, withId, rest).value, n, h, rest[h..])
  {
  }

  lemma TypesKnown(first: u8)
    ensures Parsers.TypeFrom(first / 16).Some? <==> 16 <= first < 240
  {
  }

  /** On all bytes, the decoder finds a packet, waits, or fails as this says. */
  lemma SliceIsKind(rule: Parsers.IdRule, data: Bytes)
    ensures FromSlice(rule, data).Packet? <==> SliceKind(rule, data) == Whole
    ensures FromSlice(rule, data) == NotYet <==> SliceKind(rule, data) == More
    ensures FromSlice(rule, data) == Failed <==> SliceKind(rule, data) == Bad
  {
    if data != [] {
      TypesKnown(data[0]);
      if 16 <= data[0] < 240 && VleFrom(data[1..], 0).Done? {
        var v := VleFrom(data[1..], 0);
        RestIsKind(Parsers.TypeFrom(data[0] / 16).value, data[0] % 16, rule.Applies(data[0] % 16), v.value, v.rest);
      }
    }
  }
}
