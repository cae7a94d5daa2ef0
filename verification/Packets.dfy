/** The packets a broker receives, their layout on the wire (chapter 3 of MQTT 3.1.1), and the
    grammar that reads them back. */
module Packets {
  import opened Bytes
  import opened Filters
  import Utf8

  datatype Publish = Publish(topic: bytes, payload: bytes, retain: bool, dup: bool, qos: nat, packetID: nat)

  datatype Will = Will(topic: bytes, payload: bytes, qos: nat, retain: bool)

  datatype TopicRequest = TopicRequest(filter: bytes, qos: nat)

  datatype Packet =
    | ConnectPacket(cleanSession: bool, keepAlive: nat, clientID: bytes,
                    will: Option<Will>, username: Option<bytes>, password: Option<bytes>)
    | PublishPacket(publish: Publish)
    | PubAckPacket(packetID: nat)
    | SubscribePacket(packetID: nat, requests: seq<TopicRequest>)
    | UnsubscribePacket(packetID: nat, filters: seq<bytes>)
    | PingReqPacket
    | DisconnectPacket

  const MQTT: bytes := [77, 81, 84, 84]

  ghost predicate WellFormedWill(w: Will) {
    Utf8.TopicName(w.topic) && |w.payload| <= MAX_UINT16 && w.qos <= 3
  }

  predicate WellFormedPublish(p: Publish) {
    && Utf8.TopicName(p.topic) && p.qos <= 2
    && (if p.qos == 0 then !p.dup && p.packetID == 0 else Identifier(p.packetID))
  }

  ghost predicate RequestsOk(rs: seq<TopicRequest>) {
    forall i :: 0 <= i < |rs| ==> Filter(rs[i].filter) && rs[i].qos <= 2
  }

  ghost predicate FiltersOk(fs: seq<bytes>) {
    forall i :: 0 <= i < |fs| ==> Filter(fs[i])
  }

  /** The packets that have a wire form. A Will may carry QoS 3: the decoder lets it pass. */
  ghost predicate WellFormed(p: Packet) {
    match p
    case ConnectPacket(clean, keepAlive, id, will, username, password) =>
      && keepAlive <= MAX_UINT16 && Utf8.MqttString(id) && (id == [] ==> clean)
      && (will.Some? ==> WellFormedWill(will.value))
      && (username.Some? ==> Utf8.MqttString(username.value))
      && (password.Some? ==> |password.value| <= MAX_UINT16 && username.Some?)
    case PublishPacket(publish) => WellFormedPublish(publish)
    case PubAckPacket(id) => Identifier(id)
    case SubscribePacket(id, requests) =>
      Identifier(id) && requests != [] && RequestsOk(requests)
    case UnsubscribePacket(id, filters) =>
      Identifier(id) && filters != [] && FiltersOk(filters)
    case PingReqPacket => true
    case DisconnectPacket => true
  }

  // ----- Layout

  function U16(n: nat): bytes
    requires n <= MAX_UINT16
  {
    [n / 256, n % 256]
  }

  /** A field prefixed with its length. */
  function Field(b: bytes): bytes
    requires |b| <= MAX_UINT16
  {
    U16(|b|) + b
  }

  ghost function ConnectFlags(p: Packet): byte
    requires p.ConnectPacket? && WellFormed(p)
  {
    2 * Bit(p.cleanSession) + 4 * Bit(p.will.Some?)
    + (if p.will.Some? then 8 * p.will.value.qos + 32 * Bit(p.will.value.retain) else 0)
    + 64 * Bit(p.password.Some?) + 128 * Bit(p.username.Some?)
  }

  ghost function WillFields(w: Option<Will>): bytes
    requires w.Some? ==> WellFormedWill(w.value)
  {
    if w.None? then [] else Field(w.value.topic) + Field(w.value.payload)
  }

  function OptionalField(b: Option<bytes>): bytes
    requires b.Some? ==> |b.value| <= MAX_UINT16
  {
    if b.None? then [] else Field(b.value)
  }

  ghost function RequestFields(rs: seq<TopicRequest>): bytes
    requires RequestsOk(rs)
  {
    if rs == [] then [] else Field(rs[0].filter) + [rs[0].qos] + RequestFields(rs[1..])
  }

  ghost function FilterFields(fs: seq<bytes>): bytes
    requires FiltersOk(fs)
  {
    if fs == [] then [] else Field(fs[0]) + FilterFields(fs[1..])
  }

  function PublishBody(p: Publish): bytes
    requires WellFormedPublish(p)
  {
    Field(p.topic) + (if p.qos > 0 then U16(p.packetID) else []) + p.payload
  }

  function PublishFirstByte(p: Publish): byte
    requires WellFormedPublish(p)
  {
    48 + 8 * Bit(p.dup) + 2 * p.qos + Bit(p.retain)
  }

  ghost function Body(p: Packet): bytes
    requires WellFormed(p)
  {
    match p
    case ConnectPacket(clean, keepAlive, id, will, username, password) =>
      Field(MQTT) + [4, ConnectFlags(p)] + U16(keepAlive) + Field(id)
      + WillFields(will) + OptionalField(username) + OptionalField(password)
    case PublishPacket(publish) => PublishBody(publish)
    case PubAckPacket(id) => U16(id)
    case SubscribePacket(id, requests) => U16(id) + RequestFields(requests)
    case UnsubscribePacket(id, filters) => U16(id) + FilterFields(filters)
    case PingReqPacket => []
    case DisconnectPacket => []
  }

  /** Packet type in the high half, flags in the low half. */
  ghost function FirstByte(p: Packet): byte
    requires WellFormed(p)
  {
    match p
    case ConnectPacket(_, _, _, _, _, _) => 16
    case PublishPacket(publish) => PublishFirstByte(publish)
    case PubAckPacket(_) => 64
    case SubscribePacket(_, _) => 130
    case UnsubscribePacket(_, _) => 162
    case PingReqPacket => 192
    case DisconnectPacket => 224
  }

  // ----- Reading back

  /** The first item of a body and what follows it. */
  datatype Parse<+T> = Bad | Got(value: T, rest: bytes) {
    predicate IsFailure() { Bad? }
    function PropagateFailure<U>(): Parse<U> requires Bad? { Bad }
    function Extract(): (T, bytes) requires Got? { (value, rest) }
  }

  function GetByte(s: bytes): Parse<byte> {
    if s == [] then Bad else Got(s[0], s[1..])
  }

  function BigEndian(b: bytes): nat
    requires |b| >= 2
  {
    var high: int, low: int := b[0], b[1];
    high * 256 + low
  }

  function GetU16(s: bytes): Parse<nat> {
    if |s| < 2 then Bad
    else Got(BigEndian(s), s[2..])
  }

  /** `readBinaryData` */
  function GetField(s: bytes): Parse<bytes> {
    var (n, t) :- GetU16(s);
    if |t| < n then Bad else Got(t[..n], t[n..])
  }

  /** `readUTF8String` */
  function GetText(s: bytes): Parse<bytes> {
    var (b, t) :- GetField(s);
    if Utf8.MqttString(b) then Got(b, t) else Bad
  }

  predicate FlagSet(flags: byte, weight: nat)
    requires weight > 0
  {
    (flags / weight) % 2 == 1
  }

  function WillQoS(flags: byte): nat {
    (flags / 8) % 4
  }

  /** `decodeConnectFlags` accepts */
  predicate ConnectFlagsOk(flags: byte) {
    && !FlagSet(flags, 1)
    && (!FlagSet(flags, 4) ==> WillQoS(flags) == 0 && !FlagSet(flags, 32))
    && (FlagSet(flags, 64) ==> FlagSet(flags, 128))
  }

  function GetWill(s: bytes, flags: byte): Parse<Option<Will>> {
    if !FlagSet(flags, 4) then Got(None, s)
    else
      var (topic, t) :- GetText(s);
      if !Utf8.TopicName(topic) then Bad
      else
        var (payload, u) :- GetField(t);
        Got(Some(Will(topic, payload, WillQoS(flags), FlagSet(flags, 32))), u)
  }

  function GetOptionalText(s: bytes, present: bool): Parse<Option<bytes>> {
    if !present then Got(None, s)
    else
      var (b, t) :- GetText(s);
      Got(Some(b), t)
  }

  function GetOptionalField(s: bytes, present: bool): Parse<Option<bytes>> {
    if !present then Got(None, s)
    else
      var (b, t) :- GetField(s);
      Got(Some(b), t)
  }

  function ParseConnect(s: bytes): Option<Packet> {
    match ConnectHead(s)
    case Bad => None
    case Got((flags, keepAlive, id), t) => ConnectTail(t, flags, keepAlive, id)
  }

  /** Up to and including the client identifier. */
  function ConnectHead(s: bytes): Parse<(byte, nat, bytes)> {
    var (name, s1) :- GetText(s);
    if name != MQTT then Bad
    else
      var (level, s2) :- GetByte(s1);
      if level != 4 then Bad
      else
        var (flags, s3) :- GetByte(s2);
        if !ConnectFlagsOk(flags) then Bad
        else
          var (keepAlive, s4) :- GetU16(s3);
          var (id, s5) :- GetText(s4);
          if id == [] && !FlagSet(flags, 2) then Bad else Got((flags, keepAlive, id), s5)
  }

  function ConnectTail(s: bytes, flags: byte, keepAlive: nat, id: bytes): Option<Packet> {
    match GetWill(s, flags)
    case Bad => None
    case Got(will, s1) =>
      match GetOptionalText(s1, FlagSet(flags, 128))
      case Bad => None
      case Got(username, s2) =>
        match GetOptionalField(s2, FlagSet(flags, 64))
        case Bad => None
        case Got(password, s3) =>
          if s3 == [] then Some(ConnectPacket(FlagSet(flags, 2), keepAlive, id, will, username, password)) else None
  }

  function ParsePublish(s: bytes, qos: nat, dup: bool, retain: bool): Option<Packet> {
    match GetText(s)
    case Bad => None
    case Got(topic, s1) =>
      if !Utf8.TopicName(topic) then None
      else if qos == 0 then Some(PublishPacket(Publish(topic, s1, retain, dup, qos, 0)))
      else
        match GetU16(s1)
        case Bad => None
        case Got(id, s2) => if id == 0 then None else Some(PublishPacket(Publish(topic, s2, retain, dup, qos, id)))
  }

  function ParsePubAck(s: bytes): Option<Packet> {
    if |s| != 2 || GetU16(s).value == 0 then None else Some(PubAckPacket(GetU16(s).value))
  }

  /** One filter of a SUBSCRIBE and the QoS asked for it. */
  ghost function GetRequest(s: bytes): (r: Parse<TopicRequest>)
    ensures r.Got? ==> |r.rest| < |s|
  {
    match GetText(s)
    case Bad => Bad
    case Got(f, t) => if !Filter(f) || t == [] || t[0] > 2 then Bad else Got(TopicRequest(f, t[0]), t[1..])
  }

  ghost function ParseRequests(s: bytes): Option<seq<TopicRequest>>
    decreases |s|
  {
    if s == [] then Some([])
    else
      match GetRequest(s)
      case Bad => None
      case Got(r, t) =>
        match ParseRequests(t)
        case None => None
        case Some(rs) => Some([r] + rs)
  }

  ghost function ParseFilters(s: bytes): Option<seq<bytes>>
    decreases |s|
  {
    if s == [] then Some([])
    else
      match GetText(s)
      case Bad => None
      case Got(f, t) =>
        if !Filter(f) then None
        else
          match ParseFilters(t)
          case None => None
          case Some(fs) => Some([f] + fs)
  }

  ghost function ParseSubscribe(s: bytes): Option<Packet> {
    match GetU16(s)
    case Bad => None
    case Got(id, t) =>
      match ParseRequests(t)
      case None => None
      case Some(rs) => if id == 0 || rs == [] then None else Some(SubscribePacket(id, rs))
  }

  ghost function ParseUnsubscribe(s: bytes): Option<Packet> {
    match GetU16(s)
    case Bad => None
    case Got(id, t) =>
      match ParseFilters(t)
      case None => None
      case Some(fs) => if id == 0 || fs == [] then None else Some(UnsubscribePacket(id, fs))
  }

  /** The body `s` under first byte `b`. */
  ghost function ParseBody(b: byte, s: bytes): Option<Packet> {
    var flags := b % 16;
    if b / 16 == 1 then
      if flags != 0 then None else ParseConnect(s)
    else if b / 16 == 3 then
      var qos := (flags / 2) % 4;
      if qos == 3 || (qos == 0 && FlagSet(flags, 8)) then None
      else ParsePublish(s, qos, FlagSet(flags, 8), FlagSet(flags, 1))
    else if b / 16 == 4 then
      if flags != 0 then None else ParsePubAck(s)
    else if b / 16 == 8 then
      if flags != 2 then None else ParseSubscribe(s)
    else if b / 16 == 10 then
      if flags != 2 then None else ParseUnsubscribe(s)
    else if b / 16 == 12 then
      if flags != 0 || s != [] then None else Some(PingReqPacket)
    else if b / 16 == 14 then
      if flags != 0 || s != [] then None else Some(DisconnectPacket)
    else None
  }
}
