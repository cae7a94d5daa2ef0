/** The encode-once publish path: a QoS 1 PUBLISH is encoded once with a placeholder identifier, and
    every send overwrites two identifier bytes and one flag bit of a copy. */
module Template {
  import opened Bytes
  import opened Streams
  import opened Lengths
  import opened Packets
  import opened Framing
  import opened Encoder
  import Grammar
  import Utf8

  datatype PublishTemplate = PublishTemplate(raw: bytes, packetIDOffset: nat)

  /** `deliveryQoS` */
  function DeliveryQoS(publishQoS: nat, subscriptionQoS: nat): nat {
    if subscriptionQoS < publishQoS then subscriptionQoS else publishQoS
  }

  /** `newOutboundPublish`: topic, payload and retain flag are kept; DUP and identifier are not. */
  function Outbound(pub: Publish, qos: nat): Publish {
    Publish(pub.topic, pub.payload, pub.retain, false, qos, 0)
  }

  /** `encodePublishPacket` */
  method EncodePublishPacket(pub: Publish) returns (raw: Option<bytes>)
    requires pub.packetID <= MAX_UINT16 && pub.qos < 256
    ensures raw == if Encodable(pub) then Some(PublishBytes(pub)) else None
  {
    var buf := new Writer();
    var ok := EncodePublish(buf, pub);
    if !ok {
      return None;
    }
    assert [] + PublishBytes(pub) == PublishBytes(pub);
    raw := Some(buf.written);
  }

  /** Where the identifier of a QoS 1 PUBLISH starts. */
  function IdentifierOffset(pub: Publish): nat {
    1 + |EncodeLength(2 + |pub.topic| + 2 + |pub.payload|)| + 2 + |pub.topic|
  }

  /** `publishPacketIDOffset` */
  method PublishPacketIDOffset(topic: bytes, payloadLen: nat) returns (offset: nat)
    ensures forall pub: Publish :: pub.topic == topic && |pub.payload| == payloadLen ==> offset == IdentifierOffset(pub)
  {
    var size := EncodedLengthSize(2 + |topic| + 2 + payloadLen);
    offset := 1 + size + 2 + |topic|;
  }

  method NewPublishTemplate(pub: Publish) returns (t: Option<PublishTemplate>)
    requires pub.qos < 256
    ensures t == if pub.qos == 1 && Encodable(WithId(pub, 1, false))
                 then Some(PublishTemplate(PublishBytes(WithId(pub, 1, false)), IdentifierOffset(pub)))
                 else None
  {
    if pub.qos != 1 {
      return None;
    }
    var raw := EncodePublishPacket(Publish(pub.topic, pub.payload, pub.retain, false, pub.qos, 1));
    if raw.None? {
      return None;
    }
    var offset := PublishPacketIDOffset(pub.topic, |pub.payload|);
    t := Some(PublishTemplate(raw.value, offset));
  }

  /** `pub` under an identifier and a DUP flag of its own. */
  function WithId(pub: Publish, id: nat, dup: bool): Publish {
    pub.(packetID := id, dup := dup)
  }

  /** Set or clear bit 3, the DUP flag of a PUBLISH. */
  function WithDup(b: byte, dup: bool): byte {
    var bit := (b / 8) % 2 == 1;
    if dup == bit then b else if dup then b + 8 else b - 8
  }

  /** What a send does to its copy of the template. */
  function Patch(data: bytes, offset: nat, id: nat, dup: bool): bytes
    requires 0 < offset && offset + 2 <= |data| && id <= MAX_UINT16
  {
    data[0 := WithDup(data[0], dup)][offset := id / 256][offset + 1 := id % 256]
  }

  /** `sent` is `data` byte for byte, but for the identifier at `offset` and the DUP flag, bit 3 of the
      first byte. */
  predicate IsCopy(sent: bytes, data: bytes, offset: nat, id: nat, dup: bool) {
    && 0 < offset && offset + 1 < |sent| == |data|
    && sent[offset] == id / 256 && sent[offset + 1] == id % 256
    && sent[0] / 16 == data[0] / 16 && sent[0] % 8 == data[0] % 8 && (sent[0] / 8) % 2 == Bit(dup)
    && forall j :: 0 < j < |sent| && j != offset && j != offset + 1 ==> sent[j] == data[j]
  }

  lemma PatchIsCopy(data: bytes, offset: nat, id: nat, dup: bool)
    requires 0 < offset && offset + 2 <= |data| && id <= MAX_UINT16
    ensures IsCopy(Patch(data, offset, id, dup), data, offset, id, dup)
  {
    hide WithDup;
    OnlyDupChanges(data[0], dup);
  }

  lemma OnlyDupChanges(b: byte, dup: bool)
    ensures WithDup(b, dup) / 16 == b / 16 && WithDup(b, dup) % 8 == b % 8 && (WithDup(b, dup) / 8) % 2 == Bit(dup)
  {
    var high, bit, low: int := b / 16, (b / 8) % 2, b % 8;
    assert b == 16 * high + 8 * bit + low;
    assert WithDup(b, dup) == 16 * high + 8 * Bit(dup) + low;
  }

  /** `Admit` accepts the bytes as a queued PUBLISH. */
  predicate Admissible(data: bytes, offset: int) {
    |data| >= 2 && data[0] / 16 == 3 && (data[0] / 2) % 4 == 1 && 2 <= offset <= |data| - 2
  }

  lemma FirstByteOf(pub: Publish)
    requires Encodable(pub) && pub.qos == 1
    ensures var b := PublishFirstByte(pub); b / 16 == 3 && (b / 2) % 4 == 1 && (b / 8) % 2 == Bit(pub.dup)
    ensures WithDup(PublishFirstByte(pub.(dup := !pub.dup)), pub.dup) == PublishFirstByte(pub)
  {
    hide Utf8.TopicName;
    PublishLayout(pub);
    Grammar.PublishByteForth(pub);
    var b := PublishFirstByte(pub);
    assert b / 2 == (b % 16) / 2 + 8 * (b / 16);
    assert b / 8 == (b % 16) / 8 + 2 * (b / 16);
  }

  /** A QoS 1 encoding cut up around its identifier. */
  lemma AroundIdentifier(pub: Publish)
    requires Encodable(pub) && pub.qos == 1
    ensures var head := EncodeLength(2 + |pub.topic| + 2 + |pub.payload|) + Field(pub.topic);
            && PublishBytes(pub) == [PublishFirstByte(pub)] + head + U16(pub.packetID) + pub.payload
            && 1 + |head| == IdentifierOffset(pub)
  {
    hide Utf8.Valid, EncodeLength;
    PublishLayout(pub);
    var length := EncodeLength(2 + |pub.topic| + 2 + |pub.payload|);
    var a, b, c, d := [PublishFirstByte(pub)], Field(pub.topic), U16(pub.packetID), pub.payload;
    assert a + length + (b + c + d) == a + (length + b) + c + d;
  }

  /** A template is always admitted as well formed. */
  lemma TemplateIsAdmissible(pub: Publish)
    requires Encodable(pub) && pub.qos == 1
    ensures Admissible(PublishBytes(pub), IdentifierOffset(pub))
  {
    hide Utf8.Valid, EncodeLength;
    AroundIdentifier(pub);
    FirstByteOf(pub);
  }

  /** Patching a template gives, byte for byte, the encoding under that identifier and DUP flag. */
  lemma PatchIsEncoding(pub: Publish, id: nat, dup: bool)
    requires Encodable(pub) && pub.qos == 1 && Identifier(id)
    ensures Encodable(WithId(pub, id, dup))
    ensures var raw, at := PublishBytes(pub), IdentifierOffset(pub);
            0 < at && at + 2 <= |raw| && Patch(raw, at, id, dup) == PublishBytes(WithId(pub, id, dup))
  {
    hide Utf8.Valid, EncodeLength, PublishBytes;
    var q := WithId(pub, id, dup);
    AroundIdentifier(pub);
    AroundIdentifier(q);
    FirstByteOf(q);
    FirstByteOf(pub);
    hide PublishFirstByte, WithDup;
    var raw, at := PublishBytes(pub), IdentifierOffset(pub);
    var head := EncodeLength(2 + |pub.topic| + 2 + |pub.payload|) + Field(pub.topic);
    DupFlag(pub, dup);
    PatchPieces(PublishFirstByte(pub), head, pub.packetID, pub.payload, id, dup);
  }

  lemma DupFlag(pub: Publish, dup: bool)
    requires Encodable(pub) && pub.qos == 1
    ensures WithDup(PublishFirstByte(pub), dup) == PublishFirstByte(pub.(dup := dup))
  {
    hide Utf8.TopicName;
    FirstByteOf(pub);
    FirstByteOf(pub.(dup := dup));
  }

  lemma PatchPieces(first: byte, head: bytes, old_id: nat, tail: bytes, id: nat, dup: bool)
    requires old_id <= MAX_UINT16 && id <= MAX_UINT16
    ensures Patch([first] + head + U16(old_id) + tail, 1 + |head|, id, dup) == [WithDup(first, dup)] + head + U16(id) + tail
  {
    hide WithDup;
  }

  lemma EncodedIsReadBack(pub: Publish, rest: bytes)
    requires Encodable(pub)
    ensures Decode(PublishBytes(pub) + rest, MAX_PACKET_SIZE) == Some((PublishPacket(OnWire(pub)), |PublishBytes(pub)|))
  {
    hide Utf8.Valid, Decode, EncodeLength, PublishFirstByte;
    PublishLayout(pub);
    EncodeLengthIsField(|PublishBody(OnWire(pub))|);
    assert |PublishBytes(pub)| <= MAX_PACKET_SIZE;
    DecodeFrame(PublishPacket(OnWire(pub)), rest, MAX_PACKET_SIZE);
  }

  /** A subscriber reads back the message it was sent, whatever identifier and flag were patched in. */
  lemma PatchedIsReadBack(pub: Publish, id: nat, dup: bool, rest: bytes)
    requires Encodable(pub) && pub.qos == 1 && Identifier(id)
    ensures var raw, at := PublishBytes(pub), IdentifierOffset(pub);
            && 0 < at && at + 2 <= |raw|
            && Decode(Patch(raw, at, id, dup) + rest, MAX_PACKET_SIZE)
               == Some((PublishPacket(WithId(pub, id, dup)), |raw|))
  {
    hide Utf8.Valid, Decode, Patch, EncodeLength, PublishFirstByte;
    PatchIsEncoding(pub, id, dup);
    var q := WithId(pub, id, dup);
    PublishLayout(q);
    EncodeLengthIsField(2 + |q.topic| + 2 + |q.payload|);
    assert |PublishBytes(q)| <= MAX_PACKET_SIZE;
    DecodeFrame(PublishPacket(q), rest, MAX_PACKET_SIZE);
    AroundIdentifier(pub);
    AroundIdentifier(q);
  }

  /** Whatever PUBLISH was decoded can be encoded again at its delivery QoS. */
  lemma DecodedIsEncodable(s: bytes, limit: nat, granted: nat)
    requires Decode(s, limit).Some? && Decode(s, limit).value.0.PublishPacket? && granted <= 1
    ensures var pub := Decode(s, limit).value.0.publish;
            var out := Outbound(pub, DeliveryQoS(pub.qos, granted));
            Encodable(if out.qos == 1 then WithId(out, 1, false) else out)
  {
    DecodedIsFramed(s, limit);
    var n := FieldSize(s[1..]);
    LengthValueBound(s[1..][..n]);
    hide Utf8.TopicName, Decode, LengthValue, FieldSize;
    var pub := Decode(s, limit).value.0.publish;
    NameLength(pub.topic);
    assert |PublishBody(pub)| <= MAX_REMAINING_LENGTH;
  }

  /** So can every Will, whatever QoS its CONNECT declared. */
  lemma WillIsEncodable(w: Will, granted: nat)
    requires WellFormedWill(w) && granted <= 1
    ensures var out := Outbound(Publish(w.topic, w.payload, w.retain, false, w.qos, 0), DeliveryQoS(w.qos, granted));
            Encodable(if out.qos == 1 then WithId(out, 1, false) else out)
  {
    hide Utf8.Valid;
  }
}
