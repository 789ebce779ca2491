/** The packet parser (src/proto/parsers.rs). */
module Parsers {
  import opened Prelude
  import opened Vle
  import opened Packets

  /**
   When a PUBLISH is read with a packet identifier. `contains(QOS1 & QOS2)` asks for no flag at
   all and so always holds; what section 3.3.2.2 of MQTT 3.1.1 wants is QoS 1 or 2.
   */
  datatype IdRule = AsWritten | ByQos {
    predicate Applies(flags: Flags) { AsWritten? || Qos(flags) != QoS0 }
  }

  function Take(n: nat, input: Bytes): IResult<Bytes> {
    if |input| < n then Incomplete else Done(input[n..], input[..n])
  }

  /** `length_bytes!(be_u16)`. */
  function LengthBytes(input: Bytes): IResult<Bytes> {
    match Take(2, input)
    case Done(rest, len) => Take(U16Of(len), rest)
    case _ => Incomplete
  }

  function TypeFrom(code: u8): Option<PacketType> {
    match code
    case 1 => Some(Connect) case 2 => Some(ConnAck) case 3 => Some(Publish) case 4 => Some(PubAck)
    case 5 => Some(PubRec) case 6 => Some(PubRel) case 7 => Some(PubComp) case 8 => Some(Subscribe)
    case 9 => Some(SubAck) case 10 => Some(Unsubscribe) case 11 => Some(UnsubAck) case 12 => Some(PingReq)
    case 13 => Some(PingResp) case 14 => Some(Disconnect) case _ => None
  }

  function CodeFrom(b: u8): Option<SubAckReturnCode> {
    match b
    case 0 => Some(SuccessQoS0) case 1 => Some(SuccessQoS1) case 2 => Some(SuccessQoS2) case 128 => Some(Failure)
    case _ => None
  }

  function ConnAckHeaders(input: Bytes): IResult<Headers> {
    match Take(1, input)
    case Done(r1, flags) => (
      match Take(1, r1)
      case Done(r2, code) =>
        Done(r2, NO_HEADERS.SetRaw("connect_ack_flags", flags).SetRaw("connect_return_code", code))
      case _ => Incomplete)
    case _ => Incomplete
  }

  function PublishHeaders(withId: bool, input: Bytes): IResult<Headers> {
    match LengthBytes(input)
    case Done(r1, topic) =>
      var h := NO_HEADERS.SetRaw("topic_name", topic);
      if withId then
        match Take(2, r1)
        case Done(r2, id) => Done(r2, h.SetRaw("packet_id", id))
        case _ => Incomplete
      else Done(r1, h)
    case _ => Incomplete
  }

  function IdHeaders(input: Bytes): IResult<Headers> {
    match Take(2, input)
    case Done(rest, id) => Done(rest, NO_HEADERS.SetRaw("packet_id", id))
    case _ => Incomplete
  }

  /** The variable header; packets that only a client sends are refused. */
  function PacketHeaders(ty: PacketType, withId: bool, input: Bytes): IResult<Headers> {
    match ty
    case ConnAck => ConnAckHeaders(input)
    case Publish => PublishHeaders(withId, input)
    case PubAck => IdHeaders(input)
    case PubRec => IdHeaders(input)
    case PubRel => IdHeaders(input)
    case PubComp => IdHeaders(input)
    case SubAck => IdHeaders(input)
    case UnsubAck => IdHeaders(input)
    case PingResp => Done(input, NO_HEADERS)
    case _ => Error
  }

  /** The longest run of valid return codes. */
  function Codes(input: Bytes): (r: seq<SubAckReturnCode>)
    ensures |r| <= |input|
  {
    if input == [] || CodeFrom(input[0]).None? then []
    else [CodeFrom(input[0]).value] + Codes(input[1..])
  }

  /** `many1!` wants one code: it waits for input that is not there and refuses a bad first byte. */
  function PacketPayload(ty: PacketType, input: Bytes): IResult<Payload> {
    match ty
    case Publish => Done([], Application(input))
    case SubAck =>
      if input == [] then Incomplete
      else if CodeFrom(input[0]).None? then Error
      else Done(input[|Codes(input)|..], SubAckPayload(Codes(input)))
    case _ => Done(input, NoPayload)
  }

  /** What is left of the remaining length after headers of `used` bytes goes to the payload. */
  function PayloadPart(ty: PacketType, remaining: nat, used: nat, input: Bytes): IResult<Payload> {
    if remaining < used then Panic
    else if |input| < remaining - used then Incomplete
    else
      match PacketPayload(ty, input[..remaining - used])
      case Done(_, p) => Done(input[remaining - used..], p)
      case Incomplete => Incomplete
      case Error => Error
      case Panic => Panic
  }

  /** A packet with these headers, whose payload is next. */
  function WithPayload(ty: PacketType, flags: Flags, headers: Headers, remaining: nat, used: nat, input: Bytes): IResult<MqttPacket> {
    match PayloadPart(ty, remaining, used, input)
    case Done(rest, payload) => Done(rest, MqttPacket(ty, flags, headers, payload))
    case Incomplete => Incomplete
    case Error => Error
    case Panic => Panic
  }

  function AfterLength(rule: IdRule, ty: PacketType, flags: Flags, remaining: nat, input: Bytes): IResult<MqttPacket> {
    ReadRest(ty, flags, rule.Applies(flags), remaining, input)
  }

  function ReadRest(ty: PacketType, flags: Flags, withId: bool, remaining: nat, input: Bytes): IResult<MqttPacket> {
    match PacketHeaders(ty, withId, input)
    case Done(rest, headers) => WithPayload(ty, flags, headers, remaining, |input| - |rest|, rest)
    case Incomplete => Incomplete
    case Error => Error
    case Panic => Panic
  }

  /** `packet`: one control packet off the front of the input. */
  function Packet(rule: IdRule, input: Bytes): IResult<MqttPacket> {
    if input == [] then Incomplete
    else match TypeFrom(input[0] / 16)
      case None => Error
      case Some(ty) =>
        match VleFrom(input[1..], 0)
        case Done(rest, remaining) => AfterLength(rule, ty, input[0] % 16, remaining, rest)
        case Incomplete => Incomplete
        case Error => Error
        case Panic => Panic
  }

  // ------------------------------------------------------------ answers do not change

  /** A settled answer `a` stays the same when `more` is appended to the input, which becomes rest. */
  predicate Stable<T(==)>(a: IResult<T>, b: IResult<T>, more: Bytes) {
    match a
    case Done(rest, v) => b == Done(rest + more, v)
    case Incomplete => true
    case Error => b.Error?
    case Panic => b.Panic?
  }

  lemma {:induction false} VleStable(x: Bytes, y: Bytes, k: nat)
    requires k <= 4
    ensures Stable(VleFrom(x, k), VleFrom(x + y, k), y)
    decreases 4 - k
  {
    if k < |x| && k <= 3 {
      if x[k] < 128 {
        assert (x + y)[..k + 1] == x[..k + 1] && (x + y)[k + 1..] == x[k + 1..] + y;
      } else {
        VleStable(x, y, k + 1);
      }
    }
  }

  lemma TakeStable(n: nat, x: Bytes, y: Bytes)
    ensures Stable(Take(n, x), Take(n, x + y), y)
  {
    if n <= |x| { assert (x + y)[..n] == x[..n] && (x + y)[n..] == x[n..] + y; }
  }

  lemma ConnAckStable(x: Bytes, y: Bytes)
    ensures Stable(ConnAckHeaders(x), ConnAckHeaders(x + y), y)
  {
    TakeStable(1, x, y);
    if |x| >= 1 { TakeStable(1, x[1..], y); }
  }

  lemma LengthBytesStable(x: Bytes, y: Bytes)
    ensures Stable(LengthBytes(x), LengthBytes(x + y), y)
  {
    TakeStable(2, x, y);
    if |x| >= 2 { TakeStable(U16Of(x[..2]), x[2..], y); }
  }

  lemma PublishStable(withId: bool, x: Bytes, y: Bytes)
    ensures Stable(PublishHeaders(withId, x), PublishHeaders(withId, x + y), y)
  {
    LengthBytesStable(x, y);
    if LengthBytes(x).Done? { TakeStable(2, LengthBytes(x).rest, y); }
  }

  lemma HeadersStable(ty: PacketType, withId: bool, x: Bytes, y: Bytes)
    ensures Stable(PacketHeaders(ty, withId, x), PacketHeaders(ty, withId, x + y), y)
  {
    ConnAckStable(x, y);
    PublishStable(withId, x, y);
    TakeStable(2, x, y);
  }

  lemma PayloadStable(ty: PacketType, remaining: nat, used: nat, x: Bytes, y: Bytes)
    ensures Stable(PayloadPart(ty, remaining, used, x), PayloadPart(ty, remaining, used, x + y), y)
  {
    if remaining >= used && |x| >= remaining - used { TakeStable(remaining - used, x, y); }
  }

  predicate Suffix(z: Bytes, x: Bytes) { |z| <= |x| && z == x[|x| - |z|..] }

  lemma SuffixTrans(x: Bytes, y: Bytes, z: Bytes)
    requires Suffix(z, y) && Suffix(y, x)
    ensures Suffix(z, x)
  {
  }

  lemma TakeConsumes(n: nat, x: Bytes)
    ensures Take(n, x).Done? ==> Suffix(Take(n, x).rest, x)
  {
  }

  lemma LengthBytesConsumes(x: Bytes)
    ensures LengthBytes(x).Done? ==> Suffix(LengthBytes(x).rest, x)
  {
    if LengthBytes(x).Done? {
      TakeConsumes(2, x);
      TakeConsumes(U16Of(x[..2]), x[2..]);
      SuffixTrans(x, x[2..], LengthBytes(x).rest);
    }
  }

  lemma PublishConsumes(withId: bool, x: Bytes)
    ensures PublishHeaders(withId, x).Done? ==> Suffix(PublishHeaders(withId, x).rest, x)
  {
    LengthBytesConsumes(x);
    if PublishHeaders(withId, x).Done? && withId {
      var r1 := LengthBytes(x).rest;
      TakeConsumes(2, r1);
      SuffixTrans(x, r1, PublishHeaders(withId, x).rest);
    }
  }

  lemma ConnAckConsumes(x: Bytes)
    ensures ConnAckHeaders(x).Done? ==> Suffix(ConnAckHeaders(x).rest, x)
  {
    if ConnAckHeaders(x).Done? { SuffixTrans(x, x[1..], x[1..][1..]); }
  }

  lemma IdConsumes(x: Bytes)
    ensures IdHeaders(x).Done? ==> Suffix(IdHeaders(x).rest, x)
  {
    TakeConsumes(2, x);
  }

  lemma SuffixSelf(x: Bytes)
    ensures Suffix(x, x)
  {
  }

  lemma HeadersConsume(ty: PacketType, withId: bool, x: Bytes)
    ensures PacketHeaders(ty, withId, x).Done? ==> Suffix(PacketHeaders(ty, withId, x).rest, x)
  {
    match ty
    case Publish => PublishConsumes(withId, x);
    case ConnAck => ConnAckConsumes(x);
    case PingResp => SuffixSelf(x);
    case _ => IdConsumes(x);
  }

  lemma WithPayloadStable(ty: PacketType, flags: Flags, headers: Headers, remaining: nat, used: nat, x: Bytes, y: Bytes)
    ensures Stable(WithPayload(ty, flags, headers, remaining, used, x), WithPayload(ty, flags, headers, remaining, used, x + y), y)
  {
    PayloadStable(ty, remaining, used, x, y);
  }

  lemma ReadRestStable(ty: PacketType, flags: Flags, withId: bool, remaining: nat, x: Bytes, y: Bytes)
    ensures Stable(ReadRest(ty, flags, withId, remaining, x), ReadRest(ty, flags, withId, remaining, x + y), y)
  {
    HeadersStable(ty, withId, x, y);
    var h := PacketHeaders(ty, withId, x);
    if h.Done? {
      assert |x + y| - |h.rest + y| == |x| - |h.rest|;
      WithPayloadStable(ty, flags, h.value, remaining, |x| - |h.rest|, h.rest, y);
    }
  }

  /** A packet, or an error, is the same however much input follows it. */
  lemma PacketStable(rule: IdRule, x: Bytes, y: Bytes)
    ensures Stable(Packet(rule, x), Packet(rule, x + y), y)
  {
    if x != [] {
      assert (x + y)[0] == x[0] && (x + y)[1..] == x[1..] + y;
      VleStable(x[1..], y, 0);
      var v := VleFrom(x[1..], 0);
      if v.Done? && TypeFrom(x[0] / 16).Some? {
        ReadRestStable(TypeFrom(x[0] / 16).value, x[0] % 16, rule.Applies(x[0] % 16), v.value, v.rest, y);
      }
    }
  }

  lemma WithPayloadConsumes(ty: PacketType, flags: Flags, headers: Headers, remaining: nat, used: nat, x: Bytes)
    ensures var r := WithPayload(ty, flags, headers, remaining, used, x); r.Done? ==> Suffix(r.rest, x)
  {
  }

  /** What is left behind the payload, if the headers left `left` of the input. */
  lemma PayloadConsumes(ty: PacketType, flags: Flags, headers: Headers, remaining: nat, used: nat, left: Bytes, x: Bytes)
    requires Suffix(left, x)
    ensures var r := WithPayload(ty, flags, headers, remaining, used, left); r.Done? ==> Suffix(r.rest, x)
  {
    var r := WithPayload(ty, flags, headers, remaining, used, left);
    if r.Done? {
      WithPayloadConsumes(ty, flags, headers, remaining, used, left);
      SuffixTrans(x, left, r.rest);
    }
  }

  lemma ReadRestIs(ty: PacketType, flags: Flags, withId: bool, remaining: nat, x: Bytes, h: IResult<Headers>)
    requires h == PacketHeaders(ty, withId, x) && h.Done?
    ensures |h.rest| <= |x| && ReadRest(ty, flags, withId, remaining, x)
      == WithPayload(ty, flags, h.value, remaining, |x| - |h.rest|, h.rest)
  {
    HeadersConsume(ty, withId, x);
  }

  lemma ReadRestFails(ty: PacketType, flags: Flags, withId: bool, remaining: nat, x: Bytes)
    requires !PacketHeaders(ty, withId, x).Done?
    ensures !ReadRest(ty, flags, withId, remaining, x).Done?
  {
  }

  lemma ReadRestConsumes(ty: PacketType, flags: Flags, withId: bool, remaining: nat, x: Bytes)
    ensures var r := ReadRest(ty, flags, withId, remaining, x); r.Done? ==> Suffix(r.rest, x)
  {
    var h := PacketHeaders(ty, withId, x);
    if h.Done? {
      HeadersConsume(ty, withId, x);
      ReadRestIs(ty, flags, withId, remaining, x, h);
      PayloadConsumes(ty, flags, h.value, remaining, |x| - |h.rest|, h.rest, x);
    } else {
      ReadRestFails(ty, flags, withId, remaining, x);
    }
  }

  /** The rest is an end of the input, and at least two bytes are used. */
  lemma PacketConsumes(rule: IdRule, x: Bytes)
    ensures Packet(rule, x).Done? ==> |Packet(rule, x).rest| + 2 <= |x| && Suffix(Packet(rule, x).rest, x)
  {
    if Packet(rule, x).Done? {
      VleConsumes(x[1..], 0);
      var v := VleFrom(x[1..], 0);
      ReadRestConsumes(TypeFrom(x[0] / 16).value, x[0] % 16, rule.Applies(x[0] % 16), v.value, v.rest);
      SuffixTrans(x, x[1..], v.rest);
      SuffixTrans(x, v.rest, Packet(rule, x).rest);
    }
  }
}
