/** The decoder reads the stream step by step and returns exactly what the grammar reads. */
module Decoder {
  import opened Bytes
  import opened Streams
  import opened Lengths
  import opened Packets
  import opened Framing
  import opened Filters
  import Utf8

  /** A reader that stops after `n` more bytes (`io.LimitedReader`). */
  class LimitedReader {
    const r: Reader
    var n: nat

    ghost predicate Valid()
      reads this, r
    {
      r.Valid()
    }

    /** The bytes still within the limit that the stream can supply. */
    ghost function Rest(): bytes
      requires Valid()
      reads this, r
    {
      if n <= |r.Ahead()| then r.Ahead()[..n] else r.Ahead()
    }

    /** How many bytes within the limit the stream cannot supply. */
    ghost function Missing(): nat
      requires Valid()
      reads this, r
    {
      n - |Rest()|
    }

    /** Reading followed the grammar item `item` and used up no more than it. */
    ghost predicate After<T>(item: Parse<T>, missing: nat, end: nat, res: Option<T>)
      reads this, r
    {
      match item
      case Bad => res.None?
      case Got(value, rest) =>
        res == Some(value) && Valid() && Rest() == rest && Missing() == missing && r.pos + n == end
    }

    constructor (r: Reader, n: nat)
      requires r.Valid()
      ensures Valid() && this.r == r && this.n == n
    {
      this.r := r;
      this.n := n;
    }

    method ReadFull(k: nat) returns (res: Option<bytes>)
      requires Valid()
      modifies this, r
      ensures Valid()
      ensures After(if k <= |old(Rest())| then Got(old(Rest())[..k], old(Rest())[k..]) else Bad,
                    old(Missing()), old(r.pos + n), res)
    {
      ghost var ahead := r.Ahead();
      if k <= n {
        res := r.Take(k);
        n := n - k;
        if k <= |ahead| {
          assert r.Ahead() == ahead[k..];
          if n + k <= |ahead| {
            assert ahead[..n + k][..k] == ahead[..k] && ahead[..n + k][k..] == ahead[k..][..n];
          }
        }
      } else {
        res := None;
      }
    }

    method ReadByte() returns (res: Option<byte>)
      requires Valid()
      modifies this, r
      ensures Valid() && After(GetByte(old(Rest())), old(Missing()), old(r.pos + n), res)
    {
      var b := ReadFull(1);
      res := if b.Some? then Some(b.value[0]) else None;
    }

    method ReadUint16() returns (res: Option<nat>)
      requires Valid()
      modifies this, r
      ensures Valid() && After(GetU16(old(Rest())), old(Missing()), old(r.pos + n), res)
    {
      var b := ReadFull(2);
      if b.None? {
        return None;
      }
      return Some(BigEndian(b.value));
    }

    method ReadBinaryData() returns (res: Option<bytes>)
      requires Valid()
      modifies this, r
      ensures Valid() && After(GetField(old(Rest())), old(Missing()), old(r.pos + n), res)
    {
      var length := ReadUint16();
      if length.None? {
        return None;
      }
      res := ReadFull(length.value);
    }

    method ReadUTF8String() returns (res: Option<bytes>)
      requires Valid()
      modifies this, r
      ensures Valid() && After(GetText(old(Rest())), old(Missing()), old(r.pos + n), res)
    {
      hide Utf8.MqttString;
      var value := ReadBinaryData();
      if value.None? || !Utf8.MqttString(value.value) {
        return None;
      }
      res := value;
    }

    /** The body of the loop over requests. */
    method ReadRequest() returns (res: Option<TopicRequest>)
      requires Valid()
      modifies this, r
      ensures Valid() && After(GetRequest(old(Rest())), old(Missing()), old(r.pos + n), res)
    {
      hide GetText, Filter;
      var topic := ReadUTF8String();
      if topic.None? {
        return None;
      }
      var filterOk := ValidateTopicFilter(topic.value);
      if !filterOk {
        return None;
      }
      var qos := ReadByte();
      if qos.None? || qos.value > 2 {
        return None;
      }
      res := Some(TopicRequest(topic.value, qos.value));
    }

    method ReadWill(flags: byte) returns (res: Option<Option<Will>>)
      requires Valid()
      modifies this, r
      ensures Valid() && After(GetWill(old(Rest()), flags), old(Missing()), old(r.pos + n), res)
    {
      hide Utf8.TopicName, GetText, GetField, FlagSet, WillQoS, Rest;
      if !FlagSet(flags, 4) {
        return Some(None);
      }
      var topic := ReadUTF8String();
      if topic.None? || !Utf8.TopicName(topic.value) {
        return None;
      }
      var payload := ReadBinaryData();
      if payload.None? {
        return None;
      }
      res := Some(Some(Will(topic.value, payload.value, WillQoS(flags), FlagSet(flags, 32))));
    }

    method ReadConnectHead() returns (res: Option<(byte, nat, bytes)>)
      requires Valid()
      modifies this, r
      ensures Valid() && After(ConnectHead(old(Rest())), old(Missing()), old(r.pos + n), res)
    {
      hide GetText, GetByte, GetU16, FlagSet, ConnectFlagsOk, Rest;
      var name := ReadUTF8String();
      if name.None? || name.value != MQTT {
        return None;
      }
      var level := ReadByte();
      if level.None? || level.value != 4 {
        return None;
      }
      var flags := ReadByte();
      if flags.None? || !ConnectFlagsOk(flags.value) {
        return None;
      }
      var keepAlive := ReadUint16();
      if keepAlive.None? {
        return None;
      }
      var id := ReadUTF8String();
      if id.None? || (id.value == [] && !FlagSet(flags.value, 2)) {
        return None;
      }
      res := Some((flags.value, keepAlive.value, id.value));
    }
  }

  /** What every body decoder promises: the grammar's answer on a body the stream holds in full,
      failure on a body the stream cut short, and on success no byte more or less is read. */
  ghost predicate Answers(ahead: bytes, remaining: nat, parsed: Option<Packet>, res: Option<Packet>) {
    res == if |ahead| < remaining then None else parsed
  }

  ghost function Cut(ahead: bytes, remaining: nat): bytes {
    if remaining <= |ahead| then ahead[..remaining] else ahead
  }

  method DecodeConnect(r: Reader, remaining: nat) returns (res: Option<Packet>)
    requires r.Valid()
    modifies r
    ensures r.Valid() && (res.Some? ==> r.pos == old(r.pos) + remaining)
    ensures Answers(old(r.Ahead()), remaining, ParseConnect(Cut(old(r.Ahead()), remaining)), res)
  {
    hide ConnectHead, GetWill, GetText, GetField, FlagSet;
    var lr := new LimitedReader(r, remaining);
    var head := lr.ReadConnectHead();
    if head.None? {
      return None;
    }
    var (flags, keepAlive, id) := head.value;
    var will := lr.ReadWill(flags);
    if will.None? {
      return None;
    }
    var username: Option<bytes> := None;
    if FlagSet(flags, 128) {
      username := lr.ReadUTF8String();
      if username.None? {
        return None;
      }
    }
    var password: Option<bytes> := None;
    if FlagSet(flags, 64) {
      password := lr.ReadBinaryData();
      if password.None? {
        return None;
      }
    }
    if lr.n != 0 {
      return None;
    }
    res := Some(ConnectPacket(FlagSet(flags, 2), keepAlive, id, will.value, username, password));
  }

  method DecodePublish(r: Reader, remaining: nat, qos: nat, dup: bool, retain: bool) returns (res: Option<Packet>)
    requires r.Valid()
    modifies r
    ensures r.Valid() && (res.Some? ==> r.pos == old(r.pos) + remaining)
    ensures Answers(old(r.Ahead()), remaining, ParsePublish(Cut(old(r.Ahead()), remaining), qos, dup, retain), res)
  {
    hide GetText, GetU16, Utf8.TopicName;
    var lr := new LimitedReader(r, remaining);
    var topic := lr.ReadUTF8String();
    if topic.None? || !Utf8.TopicName(topic.value) {
      return None;
    }
    var packetID := 0;
    if qos > 0 {
      var id := lr.ReadUint16();
      if id.None? || id.value == 0 {
        return None;
      }
      packetID := id.value;
    }
    ghost var rest := lr.Rest();
    assert lr.n == |rest| ==> rest[..lr.n] == rest;
    var payload := lr.ReadFull(lr.n);
    if payload.None? {
      return None;
    }
    res := Some(PublishPacket(Publish(topic.value, payload.value, retain, dup, qos, packetID)));
  }

  method DecodePubAck(r: Reader, remaining: nat) returns (res: Option<Packet>)
    requires r.Valid()
    modifies r
    ensures r.Valid() && (res.Some? ==> r.pos == old(r.pos) + remaining)
    ensures Answers(old(r.Ahead()), remaining, ParsePubAck(Cut(old(r.Ahead()), remaining)), res)
  {
    if remaining != 2 {
      return None;
    }
    var b := r.Take(2);
    if b.None? {
      return None;
    }
    var id := BigEndian(b.value);
    if id == 0 {
      return None;
    }
    res := Some(PubAckPacket(id));
  }

  /** What is left to read decides the answer, given what was read before. */
  ghost function Prepend<T>(done: seq<T>, rest: Option<seq<T>>): Option<seq<T>> {
    match rest
    case None => None
    case Some(more) => Some(done + more)
  }

  lemma PrependNothing<T>(rest: Option<seq<T>>)
    ensures Prepend([], rest) == rest
  {
    if rest.Some? {
      assert [] + rest.value == rest.value;
    }
  }

  lemma PrependOne<T>(done: seq<T>, x: T, rest: Option<seq<T>>)
    ensures Prepend(done + [x], rest) == Prepend(done, Prepend([x], rest))
  {
    if rest.Some? {
      assert done + [x] + rest.value == done + ([x] + rest.value);
    }
  }

  lemma TextShrinks(s: bytes)
    requires GetText(s).Got?
    ensures |GetText(s).rest| < |s|
  {
    hide Utf8.MqttString;
  }

  method DecodeSubscribe(r: Reader, remaining: nat) returns (res: Option<Packet>)
    requires r.Valid()
    modifies r
    ensures r.Valid() && (res.Some? ==> r.pos == old(r.pos) + remaining)
    ensures Answers(old(r.Ahead()), remaining, ParseSubscribe(Cut(old(r.Ahead()), remaining)), res)
  {
    hide GetRequest, GetU16;
    var lr := new LimitedReader(r, remaining);
    var packetID := lr.ReadUint16();
    if packetID.None? || packetID.value == 0 {
      return None;
    }
    ghost var all := ParseRequests(lr.Rest());
    PrependNothing(all);
    var subs: seq<TopicRequest> := [];
    while lr.n > 0
      invariant lr.Valid() && lr.Missing() == (if |old(r.Ahead())| < remaining then remaining - |old(r.Ahead())| else 0)
      invariant r.pos + lr.n == old(r.pos) + remaining
      invariant Prepend(subs, ParseRequests(lr.Rest())) == all
      decreases lr.n
    {
      ghost var rest := lr.Rest();
      var request := lr.ReadRequest();
      if request.None? {
        return None;
      }
      PrependOne(subs, request.value, ParseRequests(lr.Rest()));
      subs := subs + [request.value];
    }
    assert lr.Rest() == [] && subs + [] == subs;
    if |subs| == 0 {
      return None;
    }
    res := Some(SubscribePacket(packetID.value, subs));
  }

  method DecodeUnsubscribe(r: Reader, remaining: nat) returns (res: Option<Packet>)
    requires r.Valid()
    modifies r
    ensures r.Valid() && (res.Some? ==> r.pos == old(r.pos) + remaining)
    ensures Answers(old(r.Ahead()), remaining, ParseUnsubscribe(Cut(old(r.Ahead()), remaining)), res)
  {
    hide GetText, GetU16, Filter;
    var lr := new LimitedReader(r, remaining);
    var packetID := lr.ReadUint16();
    if packetID.None? || packetID.value == 0 {
      return None;
    }
    ghost var all := ParseFilters(lr.Rest());
    PrependNothing(all);
    var topics: seq<bytes> := [];
    while lr.n > 0
      invariant lr.Valid() && lr.Missing() == (if |old(r.Ahead())| < remaining then remaining - |old(r.Ahead())| else 0)
      invariant r.pos + lr.n == old(r.pos) + remaining
      invariant Prepend(topics, ParseFilters(lr.Rest())) == all
      decreases lr.n
    {
      ghost var rest := lr.Rest();
      var topic := lr.ReadUTF8String();
      if topic.None? {
        return None;
      }
      TextShrinks(rest);
      var filterOk := ValidateTopicFilter(topic.value);
      if !filterOk {
        return None;
      }
      PrependOne(topics, topic.value, ParseFilters(lr.Rest()));
      topics := topics + [topic.value];
    }
    assert lr.Rest() == [] && topics + [] == topics;
    if |topics| == 0 {
      return None;
    }
    res := Some(UnsubscribePacket(packetID.value, topics));
  }

  /** One packet from the stream, within the size limit. */
  method DecodeWithLimit(r: Reader, maxPacketSize: int) returns (res: Option<Packet>)
    requires r.Valid()
    modifies r
    ensures r.Valid()
    ensures !(0 < maxPacketSize <= MAX_PACKET_SIZE) ==> res.None?
    ensures 0 < maxPacketSize <= MAX_PACKET_SIZE ==>
      match Decode(old(r.Ahead()), maxPacketSize)
      case None => res.None?
      case Some((p, size)) => res == Some(p) && r.pos == old(r.pos) + size
  {
    hide ParseConnect, ParsePublish, ParsePubAck, ParseSubscribe, ParseUnsubscribe, LengthValue, FlagSet, FieldSize;
    if maxPacketSize <= 0 || maxPacketSize > MAX_PACKET_SIZE {
      return None;
    }
    ghost var s := r.Ahead();
    var first := r.Take(1);
    if first.None? {
      return None;
    }
    var b1: int := first.value[0];
    var packetType, flags := b1 / 16, b1 % 16;
    ghost var n := FieldSize(s[1..]);
    var length := DecodeRemainingLength(r);
    if length.None? {
      return None;
    }
    var (remainingLength, lengthBytes) := length.value;
    if 1 + lengthBytes + remainingLength > maxPacketSize {
      return None;
    }
    ghost var ahead := r.Ahead();
    assert ahead == s[1 + n..];
    assert remainingLength <= |ahead| ==> Cut(ahead, remainingLength) == s[1 + n..1 + n + remainingLength];
    if packetType == 1 {
      if flags != 0 {
        return None;
      }
      res := DecodeConnect(r, remainingLength);
    } else if packetType == 12 {
      if flags != 0 || remainingLength != 0 {
        return None;
      }
      res := Some(PingReqPacket);
    } else if packetType == 3 {
      var qos := (flags / 2) % 4;
      if qos == 3 {
        return None;
      }
      var dup := FlagSet(flags, 8);
      if qos == 0 && dup {
        return None;
      }
      res := DecodePublish(r, remainingLength, qos, dup, FlagSet(flags, 1));
    } else if packetType == 4 {
      if flags != 0 {
        return None;
      }
      res := DecodePubAck(r, remainingLength);
    } else if packetType == 8 {
      if flags != 2 {
        return None;
      }
      res := DecodeSubscribe(r, remainingLength);
    } else if packetType == 10 {
      if flags != 2 {
        return None;
      }
      res := DecodeUnsubscribe(r, remainingLength);
    } else if packetType == 14 {
      if flags != 0 || remainingLength != 0 {
        return None;
      }
      res := Some(DisconnectPacket);
    } else {
      res := None;
    }
  }

  /** Reading a stream to its end, as a connection does, yields the packets that were sent. */
  method ReadStream(r: Reader, maxPacketSize: nat) returns (packets: seq<Packet>)
    requires r.Valid() && 0 < maxPacketSize <= MAX_PACKET_SIZE
    modifies r
    ensures packets == DecodeAll(old(r.Ahead()), maxPacketSize).0
    ensures forall ps :: AllSendable(ps, maxPacketSize) && FrameAll(ps, maxPacketSize) == old(r.Ahead()) ==> packets == ps
  {
    hide Decode;
    packets := [];
    ghost var ahead := r.Ahead();
    while true
      invariant r.Valid()
      invariant packets + DecodeAll(r.Ahead(), maxPacketSize).0 == DecodeAll(ahead, maxPacketSize).0
      decreases |r.Ahead()|
    {
      ghost var before := r.Ahead();
      DecodeAdvances(before, maxPacketSize);
      var next := DecodeWithLimit(r, maxPacketSize);
      if next.None? {
        break;
      }
      assert r.Ahead() == before[Decode(before, maxPacketSize).value.1..];
      packets := packets + [next.value];
    }
    forall ps | AllSendable(ps, maxPacketSize) && FrameAll(ps, maxPacketSize) == ahead ensures packets == ps {
      StreamRoundTrip(ps, maxPacketSize);
    }
  }

  lemma DecodeAdvances(s: bytes, limit: nat)
    ensures Decode(s, limit).Some? ==> 0 < Decode(s, limit).value.1 <= |s|
  {
  }
}
