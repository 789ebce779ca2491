/** Incremental decoding (src/backend/codec.rs, `MqttPacket::from_slice`). */
module Codec {
  import opened Prelude
  import opened Vle
  import opened Packets
  import opened Parsers

  datatype Slice = Packet(packet: MqttPacket, rest: Bytes) | NotYet | Failed

  /** `MqttPacket::from_slice`. An arithmetic overflow in the parser ends the stream like an error. */
  function FromSlice(rule: IdRule, data: Bytes): Slice {
    match Parsers.Packet(rule, data)
    case Done(rest, p) => Packet(p, rest)
    case Incomplete => NotYet
    case Error => Failed
    case Panic => Failed
  }

  datatype Decode = Item(packet: MqttPacket) | Nothing | Broken

  /** `MqttCodec`. */
  class MqttCodec {
    const rule: IdRule

    constructor (rule: IdRule)
      ensures this.rule == rule
    {
      this.rule := rule;
    }

    method Encode(item: MqttPacket, dst: BytesMut) returns (ok: bool)
      modifies dst
      ensures ok <==> Encoded(item).Some?
      ensures dst.data == if ok then old(dst.data) + Encoded(item).value else old(dst.data)
    {
      var b := Packets.Encode(item);
      ok := b.Some?;
      if ok {
        dst.PutSlice(b.value);
      }
    }

    /** Takes one packet off the buffer; an error empties it. */
    method Decode(src: BytesMut) returns (r: Decode)
      modifies src
      ensures match FromSlice(rule, old(src.data))
        case Packet(p, rest) => r == Item(p) && src.data == rest
        case NotYet => r == Nothing && src.data == old(src.data)
        case Failed => r == Broken && src.data == []
    {
      var taken := src.Take();
      match FromSlice(rule, taken)
      case Packet(p, rest) =>
        src.PutSlice(rest);
        r := Item(p);
      case NotYet =>
        src.PutSlice(taken);
        r := Nothing;
      case Failed =>
        r := Broken;
    }
  }

  // ------------------------------------------------------------ streams of chunks

  /** What a connection delivers: packets, then what is left in the buffer unless decoding failed. */
  datatype Stream = Stream(packets: seq<MqttPacket>, left: Option<Bytes>)

  /** Decoding a buffer until nothing comes. */
  function DecodeAll(rule: IdRule, data: Bytes): Stream
    decreases |data|
  {
    match FromSlice(rule, data)
    case NotYet => Stream([], Some(data))
    case Failed => Stream([], None)
    case Packet(p, rest) =>
      PacketConsumes(rule, data);
      var s := DecodeAll(rule, rest);
      Stream([p] + s.packets, s.left)
  }

  /** Appending each chunk to the buffer and decoding until nothing comes. */
  function Feed(rule: IdRule, buffer: Bytes, chunks: seq<Bytes>): Stream
    decreases |chunks|
  {
    if chunks == [] then DecodeAll(rule, buffer)
    else
      var now := DecodeAll(rule, buffer + chunks[0]);
      if now.left.None? then now
      else
        var later := Feed(rule, now.left.value, chunks[1..]);
        Stream(now.packets + later.packets, later.left)
  }

  function Flatten(chunks: seq<Bytes>): Bytes {
    if chunks == [] then [] else chunks[0] + Flatten(chunks[1..])
  }

  /** Going on after `a` when `y` has come. */
  function Resume(rule: IdRule, a: Stream, y: Bytes): Stream {
    if a.left.None? then a
    else
      var b := DecodeAll(rule, a.left.value + y);
      Stream(a.packets + b.packets, b.left)
  }

  lemma ResumeAfter(rule: IdRule, p: MqttPacket, a: Stream, y: Bytes)
    ensures Resume(rule, Stream([p] + a.packets, a.left), y)
      == Stream([p] + Resume(rule, a, y).packets, Resume(rule, a, y).left)
  {
    if a.left.Some? {
      ConcatAssoc([p], a.packets, DecodeAll(rule, a.left.value + y).packets);
    }
  }

  lemma DecodeFirst(rule: IdRule, x: Bytes, p: MqttPacket, rest: Bytes)
    requires FromSlice(rule, x) == Packet(p, rest)
    ensures |rest| < |x|
    ensures DecodeAll(rule, x) == Stream([p] + DecodeAll(rule, rest).packets, DecodeAll(rule, rest).left)
  {
    PacketConsumes(rule, x);
  }

  lemma SliceStable(rule: IdRule, x: Bytes, y: Bytes)
    ensures match FromSlice(rule, x)
      case Packet(p, rest) => FromSlice(rule, x + y) == Packet(p, rest + y)
      case NotYet => true
      case Failed => FromSlice(rule, x + y) == Failed
  {
    PacketStable(rule, x, y);
  }

  /** Decoding may stop anywhere and go on when more has come. */
  lemma {:induction false} DecodeResumes(rule: IdRule, x: Bytes, y: Bytes)
    ensures DecodeAll(rule, x + y) == Resume(rule, DecodeAll(rule, x), y)
    decreases |x|
  {
    SliceStable(rule, x, y);
    match FromSlice(rule, x)
    case Packet(p, rest) =>
      DecodeFirst(rule, x, p, rest);
      DecodeFirst(rule, x + y, p, rest + y);
      DecodeResumes(rule, rest, y);
      ResumeAfter(rule, p, DecodeAll(rule, rest), y);
    case NotYet =>
      var b := DecodeAll(rule, x + y).packets;
      assert [] + b == b;
    case Failed =>
  }

  /** However a byte stream is cut, the same packets come out and the same bytes are left. */
  lemma {:induction false} ChunkingIrrelevant(rule: IdRule, buffer: Bytes, chunks: seq<Bytes>)
    ensures Feed(rule, buffer, chunks) == DecodeAll(rule, buffer + Flatten(chunks))
    decreases |chunks|
  {
    if chunks == [] {
      assert buffer + [] == buffer;
    } else {
      var tail := Flatten(chunks[1..]);
      assert buffer + Flatten(chunks) == buffer + chunks[0] + tail;
      DecodeResumes(rule, buffer + chunks[0], tail);
      var now := DecodeAll(rule, buffer + chunks[0]);
      if now.left.Some? { ChunkingIrrelevant(rule, now.left.value, chunks[1..]); }
    }
  }

  /** A frame is a string of bytes that is read as one packet with nothing left. */
  predicate IsFrame(rule: IdRule, f: Bytes) {
    FromSlice(rule, f).Packet? && FromSlice(rule, f).rest == []
  }

  /** Part of a frame is never mistaken for a packet or an error. */
  lemma PrefixIsNotYet(rule: IdRule, f: Bytes, k: nat)
    requires IsFrame(rule, f) && k < |f|
    ensures FromSlice(rule, f[..k]) == NotYet
  {
    assert f[..k] + f[k..] == f;
    PacketStable(rule, f[..k], f[k..]);
  }

  lemma FrameFirst(rule: IdRule, f: Bytes, more: Bytes)
    requires IsFrame(rule, f)
    ensures DecodeAll(rule, f + more) ==
      Stream([FromSlice(rule, f).packet] + DecodeAll(rule, more).packets, DecodeAll(rule, more).left)
  {
    PacketStable(rule, f, more);
    assert [] + more == more;
    assert FromSlice(rule, f + more) == Packet(FromSlice(rule, f).packet, more);
  }

  predicate Frames(rule: IdRule, frames: seq<Bytes>) {
    frames == [] || (IsFrame(rule, frames[0]) && Frames(rule, frames[1..]))
  }

  function PacketsOf(rule: IdRule, frames: seq<Bytes>): seq<MqttPacket>
    requires Frames(rule, frames)
  {
    if frames == [] then [] else [FromSlice(rule, frames[0]).packet] + PacketsOf(rule, frames[1..])
  }

  /** Frames come out one by one and in order, whatever follows them. */
  lemma {:induction false} FramesInOrder(rule: IdRule, frames: seq<Bytes>, tail: Bytes)
    requires Frames(rule, frames)
    ensures DecodeAll(rule, Flatten(frames) + tail) ==
      Stream(PacketsOf(rule, frames) + DecodeAll(rule, tail).packets, DecodeAll(rule, tail).left)
  {
    var later := DecodeAll(rule, tail);
    if frames == [] {
      assert Flatten(frames) + tail == tail;
      assert [] + later.packets == later.packets;
    } else {
      var f, more := frames[0], Flatten(frames[1..]) + tail;
      FramesInOrder(rule, frames[1..], tail);
      FrameFirst(rule, f, more);
      ConcatAssoc(f, Flatten(frames[1..]), tail);
      ConcatAssoc([FromSlice(rule, f).packet], PacketsOf(rule, frames[1..]), later.packets);
    }
  }
}
