/** Whole packets on a stream: fixed header, length field, body. */
module Framing {
  import opened Bytes
  import opened Lengths
  import opened Packets
  import Grammar

  ghost predicate Sendable(p: Packet) {
    WellFormed(p) && |Body(p)| <= MAX_REMAINING_LENGTH
  }

  /** The bytes of a packet, with the shortest length field. */
  ghost function Frame(p: Packet): bytes
    requires Sendable(p)
  {
    [FirstByte(p)] + EncodeLength(|Body(p)|) + Body(p)
  }

  /** The packet that starts `s` and its size, if there is one within the size limit. */
  ghost function Decode(s: bytes, limit: nat): Option<(Packet, nat)> {
    if s == [] || FieldSize(s[1..]) == 0 then None
    else
      var n := FieldSize(s[1..]);
      var length := LengthValue(s[1..][..n]);
      var size := 1 + n + length;
      if size > limit || |s| < size then None
      else
        match ParseBody(s[0], s[1 + n..size])
        case None => None
        case Some(p) => Some((p, size))
  }

  /** What is read is well formed and takes exactly the header and the declared length, within
      the limit. */
  lemma DecodedIsFramed(s: bytes, limit: nat)
    requires Decode(s, limit).Some?
    ensures var (p, size) := Decode(s, limit).value;
            var n := FieldSize(s[1..]);
            && WellFormed(p) && 1 <= n && size <= limit && size <= |s|
            && size == 1 + n + |Body(p)| && s[0] == FirstByte(p) && s[1 + n..size] == Body(p)
            && LengthValue(s[1..][..n]) == |Body(p)|
  {
    hide WellFormed, Body, FirstByte, ParseBody, LengthValue;
    var n := FieldSize(s[1..]);
    var size := Decode(s, limit).value.1;
    Grammar.BodyBack(s[0], s[1 + n..size]);
  }

  /** The first byte of whatever is read tells its type and, for a PUBLISH, its flags (sections 2.2.1,
      2.2.2 and 3.3.1). */
  lemma HeaderByType(s: bytes, limit: nat)
    requires Decode(s, limit).Some?
    ensures var p := Decode(s, limit).value.0;
            && (p.ConnectPacket? <==> s[0] == 0x10) && (p.PubAckPacket? <==> s[0] == 0x40)
            && (p.SubscribePacket? <==> s[0] == 0x82) && (p.UnsubscribePacket? <==> s[0] == 0xA2)
            && (p.PingReqPacket? <==> s[0] == 0xC0) && (p.DisconnectPacket? <==> s[0] == 0xE0)
            && (p.PublishPacket? <==> 0x30 <= s[0] <= 0x3F)
            && (p.PublishPacket? ==>
                  && (s[0] / 8) % 2 == Bit(p.publish.dup) && (s[0] / 2) % 4 == p.publish.qos && s[0] % 2 == Bit(p.publish.retain))
  {
    hide Decode, Body, Utf8.TopicName, Utf8.MqttString, Packets.RequestsOk, Packets.FiltersOk;
    DecodedIsFramed(s, limit);
  }

  /** The fields of a CONNECT that was read stood at their places in its body. */
  lemma ConnectByPosition(s: bytes, limit: nat)
    requires Decode(s, limit).Some? && Decode(s, limit).value.0.ConnectPacket?
    ensures var (p, size) := Decode(s, limit).value;
            WellFormed(p) && Grammar.InPlace(s[1 + FieldSize(s[1..])..size], p)
  {
    hide Decode, Body, WellFormed, Grammar.InPlace;
    DecodedIsFramed(s, limit);
    Grammar.ConnectInPlace(Decode(s, limit).value.0);
  }

  /** A packet at the head of a stream is read back and nothing after it is touched. */
  lemma DecodeFrame(p: Packet, rest: bytes, limit: nat)
    requires Sendable(p) && |Frame(p)| <= limit
    ensures Decode(Frame(p) + rest, limit) == Some((p, |Frame(p)|))
  {
    hide WellFormed, Body, FirstByte, ParseBody, LengthValue, EncodeLength, LengthField;
    var s := Frame(p) + rest;
    var field, body := EncodeLength(|Body(p)|), Body(p);
    EncodeLengthIsField(|body|);
    FieldNotEmpty(field);
    assert s[1..][..|field|] == field;
    FieldSizeIsUnique(s[1..], |field|);
    assert s[1 + |field|..1 + |field| + |body|] == body;
    Grammar.BodyForth(p);
  }

  lemma FieldNotEmpty(field: bytes)
    requires LengthField(field)
    ensures |field| >= 1
  {
  }

  ghost predicate AllSendable(ps: seq<Packet>, limit: nat) {
    forall i :: 0 <= i < |ps| ==> Sendable(ps[i]) && |Frame(ps[i])| <= limit
  }

  ghost function FrameAll(ps: seq<Packet>, limit: nat): bytes
    requires AllSendable(ps, limit)
  {
    if ps == [] then [] else Frame(ps[0]) + FrameAll(ps[1..], limit)
  }

  /** Packets read one after the other until none can be read, and the bytes left over. */
  ghost function DecodeAll(s: bytes, limit: nat): (seq<Packet>, bytes)
    decreases |s|
  {
    match Decode(s, limit)
    case None => ([], s)
    case Some((p, size)) =>
      var (ps, left) := DecodeAll(s[size..], limit);
      ([p] + ps, left)
  }

  /** Any list of packets, sent back to back, is read back packet by packet. */
  lemma {:induction false} StreamRoundTrip(ps: seq<Packet>, limit: nat)
    requires AllSendable(ps, limit)
    ensures DecodeAll(FrameAll(ps, limit), limit) == (ps, [])
  {
    hide Decode, Frame, Sendable;
    if ps != [] {
      var rest := FrameAll(ps[1..], limit);
      DecodeFrame(ps[0], rest, limit);
      assert (Frame(ps[0]) + rest)[|Frame(ps[0])|..] == rest;
      StreamRoundTrip(ps[1..], limit);
      assert [ps[0]] + ps[1..] == ps;
    } else {
      NothingToDecode(limit);
    }
  }

  lemma NothingToDecode(limit: nat)
    ensures Decode([], limit).None?
  {
  }

  /** No two packet lists look alike on the wire. */
  lemma FramingIsInjective(ps: seq<Packet>, qs: seq<Packet>, limit: nat)
    requires AllSendable(ps, limit) && AllSendable(qs, limit) && FrameAll(ps, limit) == FrameAll(qs, limit)
    ensures ps == qs
  {
    StreamRoundTrip(ps, limit);
    StreamRoundTrip(qs, limit);
  }
}
