/** The encoders write exactly the wire form of their packet, or refuse and write nothing. */
module Encoder {
  import opened Bytes
  import opened Streams
  import opened Lengths
  import opened Packets
  import opened Framing
  import Utf8

  ghost predicate Encodable(p: Publish) {
    && p.qos <= 1 && (p.qos > 0 ==> Identifier(p.packetID)) && (p.qos == 0 ==> !p.dup)
    && Utf8.TopicName(p.topic)
    && 2 + |p.topic| + (if p.qos > 0 then 2 else 0) + |p.payload| <= MAX_REMAINING_LENGTH
  }

  /** What goes on the wire: at QoS 0 there is no packet identifier. */
  function OnWire(p: Publish): Publish {
    if p.qos == 0 then p.(packetID := 0) else p
  }

  /** The bytes `EncodePublish` writes. */
  ghost function PublishBytes(p: Publish): bytes
    requires Encodable(p)
  {
    Frame(PublishPacket(OnWire(p)))
  }

  /** The identifier is a 16-bit word and the QoS a byte. */
  method EncodePublish(w: Writer, p: Publish) returns (ok: bool)
    requires p.packetID <= MAX_UINT16 && p.qos < 256
    modifies w
    ensures ok <==> Encodable(p)
    ensures w.written == old(w.written) + if ok then PublishBytes(p) else []
  {
    hide Utf8.TopicName, EncodeLength, PublishBody, PublishBytes;
    if p.qos > 1 {
      return false;
    }
    if p.qos > 0 && p.packetID == 0 {
      return false;
    }
    if p.qos == 0 && p.dup {
      return false;
    }
    if !Utf8.TopicName(p.topic) {
      return false;
    }
    var remainingLength := 2 + |p.topic|;
    if p.qos > 0 {
      remainingLength := remainingLength + 2;
    }
    if |p.payload| > MAX_REMAINING_LENGTH - remainingLength {
      return false;
    }
    remainingLength := remainingLength + |p.payload|;
    NameLength(p.topic);
    var flags := 0x30;
    if p.dup {
      flags := flags + 8;
    }
    flags := flags + 2 * p.qos;
    if p.retain {
      flags := flags + 1;
    }
    PublishLayout(p);
    WritePublish(w, p, flags, remainingLength);
    return true;
  }

  /** The writing part of `EncodePublish`, after its checks. */
  method WritePublish(w: Writer, p: Publish, flags: byte, remainingLength: nat)
    requires WellFormedPublish(OnWire(p)) && p.packetID <= MAX_UINT16 && remainingLength <= MAX_REMAINING_LENGTH
    modifies w
    ensures w.written == old(w.written) + ([flags] + EncodeLength(remainingLength) + PublishBody(OnWire(p)))
  {
    hide Utf8.Valid, Utf8.TopicName, EncodeLength, U16, PublishBody, WellFormedPublish, OnWire;
    TopicLength(p);
    ghost var before := w.written;
    w.Write([flags]);
    var lengthOk := EncodeRemainingLength(w, remainingLength);
    w.Write(U16(|p.topic|));
    w.Write(p.topic);
    ghost var soFar := w.written;
    if p.qos > 0 {
      w.Write(U16(p.packetID));
    }
    assert w.written == soFar + if p.qos > 0 then U16(p.packetID) else [];
    w.Write(p.payload);
    BodyInOrder(p, before, [flags], EncodeLength(remainingLength));
  }

  lemma TopicLength(p: Publish)
    requires WellFormedPublish(OnWire(p))
    ensures |p.topic| <= MAX_UINT16
  {
    hide Utf8.TopicName;
    NameLength(p.topic);
  }

  /** The fields one after the other are the body behind its header. */
  lemma BodyInOrder(p: Publish, before: bytes, flags: bytes, length: bytes)
    requires WellFormedPublish(OnWire(p)) && p.packetID <= MAX_UINT16 && |p.topic| <= MAX_UINT16
    ensures before + flags + length + U16(|p.topic|) + p.topic + (if p.qos > 0 then U16(p.packetID) else []) + p.payload
         == before + (flags + length + PublishBody(OnWire(p)))
  {
    hide Utf8.TopicName, U16;
    var id := if p.qos > 0 then U16(p.packetID) else [];
    assert PublishBody(OnWire(p)) == U16(|p.topic|) + p.topic + id + p.payload;
    assert before + flags + length + U16(|p.topic|) + p.topic + id + p.payload
        == before + (flags + length + (U16(|p.topic|) + p.topic + id + p.payload));
  }

  lemma PublishLayout(p: Publish)
    requires Encodable(p)
    ensures WellFormedPublish(OnWire(p))
    ensures var remaining := 2 + |p.topic| + (if p.qos > 0 then 2 else 0) + |p.payload|;
            && |PublishBody(OnWire(p))| == remaining
            && PublishBytes(p) == [PublishFirstByte(OnWire(p))] + EncodeLength(remaining) + PublishBody(OnWire(p))
  {
    hide Utf8.Valid, EncodeLength;
  }

  /** The bytes of a PUBLISH, one after the other (section 3.3): type and flags, remaining length, topic
      with its length, identifier at QoS 1 only, payload. */
  lemma PublishByteForByte(p: Publish)
    requires Encodable(p)
    ensures |p.topic| <= MAX_UINT16 && p.packetID >= 0
    ensures var first: nat := 3 * 16 + (if p.dup then 8 else 0) + 2 * p.qos + (if p.retain then 1 else 0);
            var id := if p.qos > 0 then [p.packetID / 256, p.packetID % 256] else [];
            var rest := [|p.topic| / 256, |p.topic| % 256] + p.topic + id + p.payload;
            PublishBytes(p) == [first] + EncodeLength(|rest|) + rest
  {
    hide Utf8.Valid, EncodeLength;
    PublishLayout(p);
    NameLength(p.topic);
  }

  lemma NameLength(s: bytes)
    requires Utf8.TopicName(s)
    ensures |s| <= MAX_UINT16
  {
  }

  method EncodePubAck(w: Writer, packetID: nat) returns (ok: bool)
    requires packetID <= MAX_UINT16
    modifies w
    ensures ok <==> Identifier(packetID)
    ensures w.written == old(w.written) + if ok then Frame(PubAckPacket(packetID)) else []
  {
    if packetID == 0 {
      return false;
    }
    w.Write([0x40, 0x02]);
    w.Write(U16(packetID));
    ok := true;
    assert w.written == old(w.written) + ([64] + EncodeLength(2) + U16(packetID));
  }

  /** A SUBACK is a header, the length of what follows, the identifier and one code a filter. */
  method EncodeSubAck(w: Writer, packetID: nat, codes: bytes) returns (ok: bool)
    requires packetID <= MAX_UINT16
    modifies w
    ensures ok <==> 2 + |codes| <= MAX_REMAINING_LENGTH
    ensures w.written == old(w.written) + if ok then [144] + EncodeLength(2 + |codes|) + U16(packetID) + codes else []
  {
    if |codes| > MAX_REMAINING_LENGTH - 2 {
      return false;
    }
    var remainingLength := 2 + |codes|;
    w.Write([0x90]);
    var lengthOk := EncodeRemainingLength(w, remainingLength);
    w.Write(U16(packetID));
    w.Write(codes);
    ok := true;
  }
}
