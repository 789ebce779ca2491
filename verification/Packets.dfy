/** MQTT control packets and their encoding (src/proto/mod.rs, types.rs, headers.rs). */
module Packets {
  import opened Prelude
  import opened Vle

  datatype QualityOfService = QoS0 | QoS1 | QoS2 {
    function Bits(): u8 { match this case QoS0 => 0 case QoS1 => 1 case QoS2 => 2 }
  }

  datatype PacketType =
    | Connect | ConnAck | Publish | PubAck | PubRec | PubRel | PubComp
    | Subscribe | SubAck | Unsubscribe | UnsubAck | PingReq | PingResp | Disconnect
  {
    function Code(): u8 {
      match this
      case Connect => 1 case ConnAck => 2 case Publish => 3 case PubAck => 4 case PubRec => 5
      case PubRel => 6 case PubComp => 7 case Subscribe => 8 case SubAck => 9 case Unsubscribe => 10
      case UnsubAck => 11 case PingReq => 12 case PingResp => 13 case Disconnect => 14
    }
  }

  datatype SubAckReturnCode = SuccessQoS0 | SuccessQoS1 | SuccessQoS2 | Failure {
    predicate IsOk() { !Failure? }
  }

  // Packet flags are four bits: DUP, QOS2, QOS1, RET from the top.
  type Flags = x: int | 0 <= x < 16
  const QOS1: Flags := 2

  /** `PacketFlags::qos`; both bits together read as QoS 2. */
  function Qos(flags: Flags): QualityOfService {
    if flags / 4 % 2 == 1 then QoS2 else if flags / 2 % 2 == 1 then QoS1 else QoS0
  }

  /** A string of at most 65535 bytes. */
  type MqttString = s: Bytes | |s| <= 0xFFFF

  type Credentials = Option<(MqttString, Option<MqttString>)>

  datatype LWTMessage = LWTMessage(topic: MqttString, qos: QualityOfService, retain: bool, message: Bytes)

  datatype Payload =
    | ConnectPayload(id: MqttString, will: Option<(MqttString, Bytes)>, creds: Credentials)
    | SubscribePayload(subs: seq<(MqttString, QualityOfService)>)
    | SubAckPayload(codes: seq<SubAckReturnCode>)
    | UnsubscribePayload(topics: seq<MqttString>)
    | Application(message: Bytes)
    | NoPayload

  /** Raw headers in insertion order, one per name. */
  datatype Headers = Headers(data: seq<(string, Bytes)>) {
    /** A repeated name moves to the back with its new value. */
    function SetRaw(name: string, value: Bytes): Headers {
      Headers(Without(data, name) + [(name, value)])
    }

    function GetRaw(name: string): Option<Bytes> { Lookup(data, name) }
  }

  const NO_HEADERS := Headers([])

  function Without(data: seq<(string, Bytes)>, name: string): seq<(string, Bytes)> {
    if data == [] then []
    else (if data[0].0 == name then [] else [data[0]]) + Without(data[1..], name)
  }

  function Lookup(data: seq<(string, Bytes)>, name: string): Option<Bytes> {
    if data == [] then None
    else if data[0].0 == name then Some(data[0].1)
    else Lookup(data[1..], name)
  }

  datatype MqttPacket = MqttPacket(ty: PacketType, flags: Flags, headers: Headers, payload: Payload)

  // ------------------------------------------------------------ headers by their `fmt_header`

  function U16Bytes(n: u16): Bytes { [n / 256, n % 256] }

  function U16Of(b: Bytes): u16
    requires |b| >= 2
  {
    var high: int := b[0];
    high * 256 + b[1]
  }

  function StringBytes(s: MqttString): Bytes { U16Bytes(|s|) + s }

  function SetPacketId(h: Headers, id: u16): Headers { h.SetRaw("packet_id", U16Bytes(id)) }

  /** `headers.get::<PacketId>()`. */
  function GetPacketId(h: Headers): Option<u16> {
    match h.GetRaw("packet_id")
    case None => None
    case Some(raw) => if |raw| < 2 then None else Some(U16Of(raw))
  }

  // ------------------------------------------------------------ packet constructors

  function Bit(b: bool, weight: u8): (r: u8) { if b then weight else 0 }

  /**
   The connect flags. A will contributes its retain bit only; its QoS lands on other bits:
   QoS 2 on the clean-session bit, QoS 1 on a bit that is masked away.
   */
  function ConnectFlagBits(lwt: Option<LWTMessage>, creds: Credentials, clean: bool): u8 {
    Bit(creds.Some?, 128) + Bit(creds.Some? && creds.value.1.Some?, 64)
    + Bit(lwt.Some? && lwt.value.retain, 32) + Bit(clean || (lwt.Some? && lwt.value.qos == QoS2), 2)
  }

  const PROTOCOL_NAME: Bytes := [77, 81, 84, 84]
  const PROTOCOL_LEVEL: u8 := 4

  function ConnectPacket(lwt: Option<LWTMessage>, creds: Credentials, clean: bool, keepAlive: u16,
                         id: Option<MqttString>): MqttPacket
  {
    var will := if lwt.Some? then Some((lwt.value.topic, lwt.value.message)) else None;
    var cid: MqttString := if id.Some? then id.value else [];
    MqttPacket(Connect, 0,
      NO_HEADERS.SetRaw("protocol_name", StringBytes(PROTOCOL_NAME))
        .SetRaw("protocol_level", [PROTOCOL_LEVEL])
        .SetRaw("connect_flags", [ConnectFlagBits(lwt, creds, clean)])
        .SetRaw("keep_alive", U16Bytes(keepAlive)),
      ConnectPayload(cid, will, creds))
  }

  function PubAckPacket(id: u16): MqttPacket { MqttPacket(PubAck, 0, SetPacketId(NO_HEADERS, id), NoPayload) }
  function PubRecPacket(id: u16): MqttPacket { MqttPacket(PubRec, 0, SetPacketId(NO_HEADERS, id), NoPayload) }
  function PubRelPacket(id: u16): MqttPacket { MqttPacket(PubRel, QOS1, SetPacketId(NO_HEADERS, id), NoPayload) }
  function PubCompPacket(id: u16): MqttPacket { MqttPacket(PubComp, 0, SetPacketId(NO_HEADERS, id), NoPayload) }

  function SubscribePacket(id: u16, subs: seq<(MqttString, QualityOfService)>): MqttPacket {
    MqttPacket(Subscribe, QOS1, SetPacketId(NO_HEADERS, id), SubscribePayload(subs))
  }

  function UnsubscribePacket(id: u16, topics: seq<MqttString>): MqttPacket {
    MqttPacket(Unsubscribe, QOS1, SetPacketId(NO_HEADERS, id), UnsubscribePayload(topics))
  }

  const PING_REQ := MqttPacket(PingReq, 0, NO_HEADERS, NoPayload)
  const DISCONNECT := MqttPacket(Disconnect, 0, NO_HEADERS, NoPayload)

  /** `validate`: the flag bits that section 2.2.2 of MQTT 3.1.1 reserves. */
  predicate Validate(p: MqttPacket) {
    match p.ty
    case ConnAck => p.flags == 0
    case PubAck => p.flags == 0
    case PubRec => p.flags == 0
    case PubComp => p.flags == 0
    case SubAck => p.flags == 0
    case UnsubAck => p.flags == 0
    case PingResp => p.flags == 0
    case PubRel => p.flags == 2
    case _ => true
  }

  // ------------------------------------------------------------ encoding

  function HeaderBytes(data: seq<(string, Bytes)>): Bytes {
    if data == [] then [] else data[0].1 + HeaderBytes(data[1..])
  }

  function SubBytes(subs: seq<(MqttString, QualityOfService)>): Bytes {
    if subs == [] then [] else StringBytes(subs[0].0) + [subs[0].1.Bits()] + SubBytes(subs[1..])
  }

  function UnsubBytes(topics: seq<MqttString>): Bytes {
    if topics == [] then [] else StringBytes(topics[0]) + UnsubBytes(topics[1..])
  }

  /** The will message goes out without the length that section 3.1.3.3 asks for. */
  function WillBytes(will: Option<(MqttString, Bytes)>): Bytes {
    if will.Some? then StringBytes(will.value.0) + will.value.1 else []
  }

  function CredBytes(creds: Credentials): Bytes {
    if creds.None? then []
    else StringBytes(creds.value.0) + (if creds.value.1.Some? then StringBytes(creds.value.1.value) else [])
  }

  function PayloadBytes(p: Payload): Bytes {
    match p
    case ConnectPayload(id, will, creds) => StringBytes(id) + WillBytes(will) + CredBytes(creds)
    case SubscribePayload(subs) => SubBytes(subs)
    case UnsubscribePayload(topics) => UnsubBytes(topics)
    case _ => []
  }

  function Body(p: MqttPacket): Bytes { HeaderBytes(p.headers.data) + PayloadBytes(p.payload) }

  /** The bytes on the wire; there are none if the body is too long for a remaining length. */
  function Encoded(p: MqttPacket): Option<Bytes> {
    if |Body(p)| > MAX_REMAINING then None
    else Some([p.ty.Code() * 16 + p.flags] + VleBytes(|Body(p)|) + Body(p))
  }

  /** A growable byte buffer. */
  class BytesMut {
    var data: Bytes

    constructor ()
      ensures data == []
    {
      data := [];
    }

    method PutU8(b: u8)
      modifies this
      ensures data == old(data) + [b]
    {
      data := data + [b];
    }

    method PutSlice(bs: Bytes)
      modifies this
      ensures data == old(data) + bs
    {
      data := data + bs;
    }

    /** Empties the buffer and hands out what was in it. */
    method Take() returns (bs: Bytes)
      modifies this
      ensures bs == old(data) && data == []
    {
      bs := data;
      data := [];
    }
  }

  method EncodeString(s: MqttString, out: BytesMut)
    modifies out
    ensures out.data == old(out.data) + StringBytes(s)
  {
    out.PutSlice(U16Bytes(|s|));
    out.PutSlice(s);
  }

  method EncodeHeaders(h: Headers, out: BytesMut)
    modifies out
    ensures out.data == old(out.data) + HeaderBytes(h.data)
  {
    for n := 0 to |h.data|
      invariant out.data + HeaderBytes(h.data[n..]) == old(out.data) + HeaderBytes(h.data)
    {
      assert h.data[n..][1..] == h.data[n + 1..];
      ghost var before := out.data;
      out.PutSlice(h.data[n].1);
      assert before + HeaderBytes(h.data[n..]) == out.data + HeaderBytes(h.data[n + 1..]);
    }
  }

  method EncodeWill(will: Option<(MqttString, Bytes)>, out: BytesMut)
    modifies out
    ensures out.data == old(out.data) + WillBytes(will)
  {
    if will.Some? {
      EncodeString(will.value.0, out);
      out.PutSlice(will.value.1);
    }
  }

  method EncodeCreds(creds: Credentials, out: BytesMut)
    modifies out
    ensures out.data == old(out.data) + CredBytes(creds)
  {
    if creds.Some? {
      EncodeString(creds.value.0, out);
      if creds.value.1.Some? {
        EncodeString(creds.value.1.value, out);
      }
    }
  }

  lemma Assoc(a: Bytes, b: Bytes, c: Bytes, d: Bytes)
    ensures a + b + c + d == a + (b + c + d)
  {
  }

  method EncodePayload(p: Payload, out: BytesMut)
    modifies out
    ensures out.data == old(out.data) + PayloadBytes(p)
  {
    match p
    case ConnectPayload(id, will, creds) =>
      ghost var before := out.data;
      EncodeString(id, out);
      EncodeWill(will, out);
      EncodeCreds(creds, out);
      Assoc(before, StringBytes(id), WillBytes(will), CredBytes(creds));
    case SubscribePayload(subs) =>
      EncodeSubs(subs, out);
    case UnsubscribePayload(topics) =>
      EncodeUnsubs(topics, out);
    case _ =>
  }

  method EncodeSubs(subs: seq<(MqttString, QualityOfService)>, out: BytesMut)
    modifies out
    ensures out.data == old(out.data) + SubBytes(subs)
  {
    for n := 0 to |subs|
      invariant out.data + SubBytes(subs[n..]) == old(out.data) + SubBytes(subs)
    {
      assert subs[n..][1..] == subs[n + 1..];
      ghost var before := out.data;
      EncodeString(subs[n].0, out);
      out.PutU8(subs[n].1.Bits());
      assert before + SubBytes(subs[n..]) == out.data + SubBytes(subs[n + 1..]);
    }
  }

  method EncodeUnsubs(topics: seq<MqttString>, out: BytesMut)
    modifies out
    ensures out.data == old(out.data) + UnsubBytes(topics)
  {
    for n := 0 to |topics|
      invariant out.data + UnsubBytes(topics[n..]) == old(out.data) + UnsubBytes(topics)
    {
      assert topics[n..][1..] == topics[n + 1..];
      ghost var before := out.data;
      EncodeString(topics[n], out);
      assert before + UnsubBytes(topics[n..]) == out.data + UnsubBytes(topics[n + 1..]);
    }
  }

  method Encode(p: MqttPacket) returns (r: Option<Bytes>)
    ensures r == Encoded(p)
  {
    var buf := new BytesMut();
    buf.PutU8(p.ty.Code() * 16 + p.flags);
    assert buf.data == [p.ty.Code() * 16 + p.flags];
    var payloadBuf := new BytesMut();
    EncodeHeaders(p.headers, payloadBuf);
    assert payloadBuf.data == HeaderBytes(p.headers.data);
    EncodePayload(p.payload, payloadBuf);
    var vleBytes := EncodeVle(|payloadBuf.data|);
    if vleBytes.Some? {
      buf.PutSlice(vleBytes.value);
      buf.PutSlice(payloadBuf.data);
      assert payloadBuf.data == Body(p);
      r := Some(buf.data);
    } else {
      r := None;
    }
  }
}
