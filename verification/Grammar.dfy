/** Layout and grammar are inverse: every well-formed packet is read back from its body, and every
    body that is read is the body of the packet read. */
module Grammar {
  import opened Bytes
  import opened Filters
  import opened Packets
  import Utf8

  lemma FieldForth(b: bytes, rest: bytes)
    requires |b| <= MAX_UINT16
    ensures GetField(Field(b) + rest) == Got(b, rest)
    ensures Utf8.MqttString(b) ==> GetText(Field(b) + rest) == Got(b, rest)
  {
    hide Utf8.Valid;
    var s := Field(b) + rest;
    assert s[2..] == b + rest;
    assert (b + rest)[..|b|] == b && (b + rest)[|b|..] == rest;
  }

  lemma U16Forth(n: nat, rest: bytes)
    requires n <= MAX_UINT16
    ensures GetU16(U16(n) + rest) == Got(n, rest)
  {
    assert (U16(n) + rest)[2..] == rest;
  }

  lemma U16Back(s: bytes)
    requires GetU16(s).Got?
    ensures GetU16(s).value <= MAX_UINT16 && s == U16(GetU16(s).value) + GetU16(s).rest
  {
  }

  lemma FieldBack(s: bytes)
    requires GetField(s).Got?
    ensures |GetField(s).value| <= MAX_UINT16 && s == Field(GetField(s).value) + GetField(s).rest
  {
    U16Back(s);
    var t := GetU16(s).rest;
    var n := GetU16(s).value;
    assert t == t[..n] + t[n..];
    assert U16(n) + (t[..n] + t[n..]) == (U16(n) + t[..n]) + t[n..];
  }

  // ----- Lists

  lemma RequestForth(r: TopicRequest, rest: bytes)
    requires Filter(r.filter) && r.qos <= 2
    ensures var s := Field(r.filter) + [r.qos] + rest; s != [] && GetRequest(s) == Got(r, rest)
  {
    hide GetText, Filter, Field;
    assert Utf8.MqttString(r.filter) by {
      FilterIsText(r.filter);
    }
    FieldForth(r.filter, [r.qos] + rest);
    assert Field(r.filter) + [r.qos] + rest == Field(r.filter) + ([r.qos] + rest);
    assert ([r.qos] + rest)[1..] == rest && [r.qos] + rest != [];
  }

  lemma FilterIsText(f: bytes)
    requires Filter(f)
    ensures Utf8.MqttString(f) && |f| <= MAX_UINT16
  {
    hide Utf8.Valid, FilterLevels;
  }

  lemma RequestBack(s: bytes)
    requires GetRequest(s).Got?
    ensures var r, t := GetRequest(s).value, GetRequest(s).rest;
            Filter(r.filter) && |r.filter| <= MAX_UINT16 && r.qos <= 2 && s == Field(r.filter) + [r.qos] + t
  {
    hide GetField, Field, Utf8.Valid, FilterLevels;
    FieldBack(s);
    var f, t := GetText(s).value, GetText(s).rest;
    assert t == [t[0]] + t[1..];
    assert Field(f) + ([t[0]] + t[1..]) == Field(f) + [t[0]] + t[1..];
  }

  lemma {:induction false} RequestsForth(rs: seq<TopicRequest>)
    requires RequestsOk(rs)
    ensures ParseRequests(RequestFields(rs)) == Some(rs)
  {
    if rs != [] {
      hide GetRequest, Filter, Field;
      RequestsForth(rs[1..]);
      RequestForth(rs[0], RequestFields(rs[1..]));
      assert [rs[0]] + rs[1..] == rs;
    }
  }

  lemma RequestsCons(r: TopicRequest, more: seq<TopicRequest>)
    requires Filter(r.filter) && r.qos <= 2 && RequestsOk(more)
    ensures RequestsOk([r] + more) && |r.filter| <= MAX_UINT16
    ensures RequestFields([r] + more) == Field(r.filter) + [r.qos] + RequestFields(more)
  {
    hide Filter, Field;
    FilterIsText(r.filter);
    var rs := [r] + more;
    assert rs[0] == r && rs[1..] == more;
  }

  lemma {:induction false} RequestsBack(s: bytes)
    requires ParseRequests(s).Some?
    ensures var rs := ParseRequests(s).value;
            RequestsOk(rs) && RequestFields(rs) == s
    decreases |s|
  {
    hide GetRequest, Filter, Field, RequestFields, RequestsOk;
    if s == [] {
      NoRequests();
    } else {
      RequestBack(s);
      RequestsBack(GetRequest(s).rest);
      RequestsCons(GetRequest(s).value, ParseRequests(GetRequest(s).rest).value);
    }
  }

  lemma NoRequests()
    ensures RequestsOk([]) && RequestFields([]) == []
  {
  }

  lemma {:induction false} FiltersForth(fs: seq<bytes>)
    requires FiltersOk(fs)
    ensures ParseFilters(FilterFields(fs)) == Some(fs)
  {
    if fs != [] {
      hide GetText, Utf8.Valid, FilterLevels;
      FiltersForth(fs[1..]);
      FieldForth(fs[0], FilterFields(fs[1..]));
      assert [fs[0]] + fs[1..] == fs;
    }
  }

  lemma {:induction false} FiltersBack(s: bytes)
    requires ParseFilters(s).Some?
    ensures var fs := ParseFilters(s).value; FiltersOk(fs) && FilterFields(fs) == s
    decreases |s|
  {
    if s != [] {
      hide GetField, Field, Utf8.Valid, FilterLevels;
      FieldBack(s);
      FiltersBack(GetText(s).rest);
      assert ParseFilters(s).value[1..] == ParseFilters(GetText(s).rest).value;
    }
  }

  // ----- CONNECT

  lemma FlagBits(clean: nat, will: nat, qos: nat, retain: nat, pass: nat, user: nat, b: nat)
    requires clean <= 1 && will <= 1 && qos <= 3 && retain <= 1 && pass <= 1 && user <= 1
    requires b == 2 * clean + 4 * will + 8 * qos + 32 * retain + 64 * pass + 128 * user
    ensures b % 2 == 0 && (b / 2) % 2 == clean && (b / 4) % 2 == will && (b / 8) % 4 == qos
    ensures (b / 32) % 2 == retain && (b / 64) % 2 == pass && (b / 128) % 2 == user && b < 256
  {
    assert b / 128 == user;
    assert b / 64 == pass + 2 * user;
    assert b / 32 == retain + 2 * (b / 64);
    assert b / 8 == qos + 4 * (b / 32);
    assert b / 4 == will + 2 * (b / 8);
    assert b / 2 == clean + 2 * (b / 4);
  }

  lemma FlagsForth(p: Packet)
    requires p.ConnectPacket? && WellFormed(p)
    ensures var b := ConnectFlags(p);
            && ConnectFlagsOk(b)
            && FlagSet(b, 2) == p.cleanSession && FlagSet(b, 4) == p.will.Some?
            && FlagSet(b, 64) == p.password.Some? && FlagSet(b, 128) == p.username.Some?
            && (p.will.Some? ==> WillQoS(b) == p.will.value.qos && FlagSet(b, 32) == p.will.value.retain)
  {
    hide Utf8.MqttString, Utf8.TopicName, ConnectFlags;
    AllFlags(p);
  }

  /** The places of the fields in the body of a CONNECT (section 3.1): protocol name and level, one byte of
      flags, keep-alive, client identifier, and what the flags announce. */
  ghost predicate InPlace(b: bytes, p: Packet)
    requires p.ConnectPacket? && WellFormed(p)
  {
    && |b| >= 12 + |p.clientID| && b[..7] == [0, 4, 77, 81, 84, 84, 4]
    && b[7] % 2 == 0 && (b[7] / 2) % 2 == Bit(p.cleanSession) && (b[7] / 4) % 2 == Bit(p.will.Some?)
    && (b[7] / 8) % 4 == (if p.will.Some? then p.will.value.qos else 0)
    && (b[7] / 32) % 2 == Bit(p.will.Some? && p.will.value.retain)
    && (b[7] / 64) % 2 == Bit(p.password.Some?) && (b[7] / 128) % 2 == Bit(p.username.Some?)
    && b[8] == p.keepAlive / 256 && b[9] == p.keepAlive % 256
    && b[10] == |p.clientID| / 256 && b[11] == |p.clientID| % 256 && b[12..12 + |p.clientID|] == p.clientID
    && b[12 + |p.clientID|..] == (if p.will.Some? then Field(p.will.value.topic) + Field(p.will.value.payload) else [])
                                 + (if p.username.Some? then Field(p.username.value) else [])
                                 + (if p.password.Some? then Field(p.password.value) else [])
  }

  lemma ConnectInPlace(p: Packet)
    requires p.ConnectPacket? && WellFormed(p)
    ensures InPlace(Body(p), p)
  {
    hide Utf8.Valid, Utf8.TopicName, ConnectFlags, Field, U16;
    var flags := ConnectFlags(p);
    AllFlags(p);
    var end := WillFields(p.will) + OptionalField(p.username) + OptionalField(p.password);
    HeadInPlace(flags, p.keepAlive, p.clientID, end);
    Regroup(Field(MQTT) + [4, flags] + U16(p.keepAlive) + Field(p.clientID), WillFields(p.will), OptionalField(p.username), OptionalField(p.password));
  }

  lemma Regroup(head: bytes, a: bytes, b: bytes, c: bytes)
    ensures head + a + b + c == head + (a + b + c)
  {
  }

  lemma HeadInPlace(flags: byte, keepAlive: nat, id: bytes, end: bytes)
    requires keepAlive <= MAX_UINT16 && |id| <= MAX_UINT16
    ensures var b := Field(MQTT) + [4, flags] + U16(keepAlive) + Field(id) + end;
            && |b| == 12 + |id| + |end| && b[..7] == [0, 4, 77, 81, 84, 84, 4] && b[7] == flags
            && b[8] == keepAlive / 256 && b[9] == keepAlive % 256
            && b[10] == |id| / 256 && b[11] == |id| % 256 && b[12..12 + |id|] == id && b[12 + |id|..] == end
  {
    var head: bytes := [0, 4, 77, 81, 84, 84, 4, flags, keepAlive / 256, keepAlive % 256, |id| / 256, |id| % 256];
    assert Field(MQTT) + [4, flags] + U16(keepAlive) + Field(id) + end == head + id + end;
  }

  lemma AllFlags(p: Packet)
    requires p.ConnectPacket? && WellFormed(p)
    ensures var b: nat := ConnectFlags(p);
            && b % 2 == 0 && (b / 2) % 2 == Bit(p.cleanSession) && (b / 4) % 2 == Bit(p.will.Some?)
            && (b / 8) % 4 == (if p.will.Some? then p.will.value.qos else 0)
            && (b / 32) % 2 == Bit(p.will.Some? && p.will.value.retain)
            && (b / 64) % 2 == Bit(p.password.Some?) && (b / 128) % 2 == Bit(p.username.Some?)
  {
    hide Utf8.MqttString, Utf8.TopicName;
    var qos, retain := if p.will.Some? then p.will.value.qos else 0, p.will.Some? && p.will.value.retain;
    FlagBits(Bit(p.cleanSession), Bit(p.will.Some?), qos, Bit(retain), Bit(p.password.Some?), Bit(p.username.Some?), ConnectFlags(p));
  }

  lemma ConnectForth(p: Packet)
    requires p.ConnectPacket? && WellFormed(p)
    ensures ParseConnect(Body(p)) == Some(p)
  {
    var b := ConnectFlags(p);
    FlagsForth(p);
    var s3 := OptionalField(p.password);
    var s2 := OptionalField(p.username) + s3;
    var s1 := WillFields(p.will) + s2;
    var head := Field(MQTT) + [4, b] + U16(p.keepAlive) + Field(p.clientID);
    assert Body(p) == head + s1;
    HeadForth(b, p.keepAlive, p.clientID, s1);
    TailForth(p, b, s1, s2, s3);
  }

  lemma NameIsText()
    ensures Utf8.MqttString(MQTT)
  {
    assert MQTT[1..][1..][1..][1..] == [];
  }

  lemma HeadForth(b: byte, keepAlive: nat, id: bytes, rest: bytes)
    requires ConnectFlagsOk(b) && keepAlive <= MAX_UINT16 && Utf8.MqttString(id) && (id == [] ==> FlagSet(b, 2))
    ensures ConnectHead(Field(MQTT) + [4, b] + U16(keepAlive) + Field(id) + rest) == Got((b, keepAlive, id), rest)
  {
    hide Utf8.Valid, GetText, GetU16, Field, U16, ConnectFlagsOk, FlagSet;
    var s4 := Field(id) + rest;
    var s3 := U16(keepAlive) + s4;
    var s1 := [4, b] + s3;
    assert Field(MQTT) + [4, b] + U16(keepAlive) + Field(id) + rest == Field(MQTT) + s1;
    NameIsText();
    FieldForth(MQTT, s1);
    assert s1[1..] == [b] + s3 && ([b] + s3)[1..] == s3;
    U16Forth(keepAlive, s4);
    FieldForth(id, rest);
  }

  lemma WillForth(w: Option<Will>, b: byte, rest: bytes)
    requires (w.Some? ==> WellFormedWill(w.value)) && FlagSet(b, 4) == w.Some?
    requires w.Some? ==> WillQoS(b) == w.value.qos && FlagSet(b, 32) == w.value.retain
    ensures GetWill(WillFields(w) + rest, b) == Got(w, rest)
  {
    hide GetText, GetField, Utf8.Valid, FlagSet, WillQoS;
    if w.Some? {
      var topic, payload := w.value.topic, w.value.payload;
      assert WillFields(w) + rest == Field(topic) + (Field(payload) + rest);
      FieldForth(topic, Field(payload) + rest);
      FieldForth(payload, rest);
    } else {
      assert WillFields(w) + rest == rest;
    }
  }

  lemma OptionalForth(b: Option<bytes>, rest: bytes)
    requires b.Some? ==> |b.value| <= MAX_UINT16
    ensures GetOptionalField(OptionalField(b) + rest, b.Some?) == Got(b, rest)
    ensures (b.Some? ==> Utf8.MqttString(b.value)) ==> GetOptionalText(OptionalField(b) + rest, b.Some?) == Got(b, rest)
  {
    hide Utf8.Valid;
    if b.Some? {
      FieldForth(b.value, rest);
    } else {
      assert OptionalField(b) + rest == rest;
    }
  }

  lemma TailForth(p: Packet, b: byte, s1: bytes, s2: bytes, s3: bytes)
    requires p.ConnectPacket? && WellFormed(p) && b == ConnectFlags(p)
    requires s3 == OptionalField(p.password) && s2 == OptionalField(p.username) + s3 && s1 == WillFields(p.will) + s2
    ensures ConnectTail(s1, b, p.keepAlive, p.clientID) == Some(p)
  {
    hide Utf8.Valid, FlagSet, WillQoS, ConnectFlags, ConnectFlagsOk, GetWill, GetOptionalText, GetOptionalField, Field;
    FlagsForth(p);
    WillForth(p.will, b, s2);
    OptionalForth(p.username, s3);
    OptionalForth(p.password, []);
    assert s3 + [] == s3;
  }

  lemma ConnectBack(s: bytes)
    requires ParseConnect(s).Some?
    ensures var p := ParseConnect(s).value; p.ConnectPacket? && WellFormed(p) && Body(p) == s
  {
    hide Utf8.Valid, FlagSet, ConnectFlagsOk, ConnectFlags, ConnectHead, ConnectTail, Field, U16, WillFields, OptionalField;
    var (flags, keepAlive, id) := ConnectHead(s).value;
    var t := ConnectHead(s).rest;
    HeadBack(s);
    TailBack(t, flags, keepAlive, id);
    var p := ParseConnect(s).value;
    var head := Field(MQTT) + [4, flags] + U16(keepAlive) + Field(id);
    var a, b, c := WillFields(p.will), OptionalField(p.username), OptionalField(p.password);
    assert head + (a + b + c) == head + a + b + c;
  }

  lemma HeadBack(s: bytes)
    requires ConnectHead(s).Got?
    ensures var (flags, keepAlive, id) := ConnectHead(s).value;
            && ConnectFlagsOk(flags) && keepAlive <= MAX_UINT16 && Utf8.MqttString(id) && (id == [] ==> FlagSet(flags, 2))
            && s == Field(MQTT) + [4, flags] + U16(keepAlive) + Field(id) + ConnectHead(s).rest
  {
    hide Utf8.MqttString, FlagSet, ConnectFlagsOk, GetField;
    FieldBack(s);
    var s1 := GetText(s).rest;
    var s3 := s1[1..][1..];
    assert s1 == [s1[0], s1[1]] + s3;
    U16Back(s3);
    FieldBack(GetU16(s3).rest);
  }

  lemma WillBack(s: bytes, flags: byte)
    requires GetWill(s, flags).Got?
    ensures var w := GetWill(s, flags).value;
            && w.Some? == FlagSet(flags, 4)
            && (w.Some? ==> WellFormedWill(w.value) && w.value.qos == WillQoS(flags) && w.value.retain == FlagSet(flags, 32))
            && s == WillFields(w) + GetWill(s, flags).rest
  {
    assert WillQoS(flags) <= 3;
    hide Utf8.Valid, FlagSet, WillQoS, Field, GetField;
    if FlagSet(flags, 4) {
      FieldBack(s);
      var topic, t := GetText(s).value, GetText(s).rest;
      FieldBack(t);
      var payload, u := GetField(t).value, GetField(t).rest;
      assert Field(topic) + (Field(payload) + u) == Field(topic) + Field(payload) + u;
    }
  }

  lemma OptionalBack(s: bytes, present: bool)
    ensures GetOptionalField(s, present).Got? ==>
      var b := GetOptionalField(s, present).value;
      b.Some? == present && (present ==> |b.value| <= MAX_UINT16) && s == OptionalField(b) + GetOptionalField(s, present).rest
    ensures GetOptionalText(s, present).Got? ==>
      var b := GetOptionalText(s, present).value;
      b.Some? == present && (present ==> Utf8.MqttString(b.value)) && s == OptionalField(b) + GetOptionalText(s, present).rest
  {
    hide Utf8.Valid;
    if present && GetField(s).Got? {
      FieldBack(s);
    }
  }

  lemma TailBack(t: bytes, flags: byte, keepAlive: nat, id: bytes)
    requires ConnectFlagsOk(flags) && keepAlive <= MAX_UINT16 && Utf8.MqttString(id) && (id == [] ==> FlagSet(flags, 2))
    requires ConnectTail(t, flags, keepAlive, id).Some?
    ensures var p := ConnectTail(t, flags, keepAlive, id).value;
            && p.ConnectPacket? && WellFormed(p) && ConnectFlags(p) == flags && p.keepAlive == keepAlive && p.clientID == id
            && t == WillFields(p.will) + OptionalField(p.username) + OptionalField(p.password)
  {
    hide Utf8.Valid, FlagSet, WillQoS, ConnectFlags, GetWill, GetOptionalText, GetOptionalField, Field;
    var p := ConnectTail(t, flags, keepAlive, id).value;
    WillBack(t, flags);
    var s1 := GetWill(t, flags).rest;
    OptionalBack(s1, FlagSet(flags, 128));
    var s2 := GetOptionalText(s1, FlagSet(flags, 128)).rest;
    OptionalBack(s2, FlagSet(flags, 64));
    FlagsBack(p, flags);
  }

  lemma FlagsBack(p: Packet, flags: byte)
    requires p.ConnectPacket? && WellFormed(p) && ConnectFlagsOk(flags)
    requires p.cleanSession == FlagSet(flags, 2) && p.will.Some? == FlagSet(flags, 4)
    requires p.username.Some? == FlagSet(flags, 128) && p.password.Some? == FlagSet(flags, 64)
    requires p.will.Some? ==> p.will.value.qos == WillQoS(flags) && p.will.value.retain == FlagSet(flags, 32)
    ensures ConnectFlags(p) == flags
  {
    hide Utf8.MqttString, Utf8.TopicName;
    FlagDigits(flags);
  }

  lemma FlagDigits(b: byte)
    ensures b == b % 2 + 2 * ((b / 2) % 2) + 4 * ((b / 4) % 2) + 8 * ((b / 8) % 4)
               + 32 * ((b / 32) % 2) + 64 * ((b / 64) % 2) + 128 * ((b / 128) % 2)
  {
    assert b / 64 == (b / 64) % 2 + 2 * (b / 128);
    assert b / 32 == (b / 32) % 2 + 2 * (b / 64);
    assert b / 8 == (b / 8) % 4 + 4 * (b / 32);
    assert b / 4 == (b / 4) % 2 + 2 * (b / 8);
    assert b / 2 == (b / 2) % 2 + 2 * (b / 4);
  }

  // ----- PUBLISH

  lemma PublishForth(p: Publish)
    requires WellFormedPublish(p)
    ensures ParsePublish(PublishBody(p), p.qos, p.dup, p.retain) == Some(PublishPacket(p))
  {
    var s1 := (if p.qos > 0 then U16(p.packetID) else []) + p.payload;
    assert PublishBody(p) == Field(p.topic) + s1;
    FieldForth(p.topic, s1);
    if p.qos > 0 {
      U16Forth(p.packetID, p.payload);
    }
  }

  lemma PublishBack(s: bytes, qos: nat, dup: bool, retain: bool)
    requires qos <= 2 && (qos == 0 ==> !dup) && ParsePublish(s, qos, dup, retain).Some?
    ensures var p := ParsePublish(s, qos, dup, retain).value;
            && p.PublishPacket? && WellFormed(p) && Body(p) == s
            && p.publish.qos == qos && p.publish.dup == dup && p.publish.retain == retain
  {
    hide Utf8.Valid, Utf8.TopicName, GetField, Field, U16, GetU16;
    FieldBack(s);
    var topic, s1 := GetText(s).value, GetText(s).rest;
    assert s == Field(topic) + s1;
    if qos > 0 {
      U16Back(s1);
      assert Field(topic) + (U16(GetU16(s1).value) + GetU16(s1).rest) == Field(topic) + U16(GetU16(s1).value) + GetU16(s1).rest;
    } else {
      assert Field(topic) + [] + s1 == s;
    }
  }

  // ----- All packets

  lemma PublishByteForth(p: Publish)
    requires WellFormedPublish(p)
    ensures var b := PublishFirstByte(p);
            && b / 16 == 3 && ((b % 16) / 2) % 4 == p.qos
            && FlagSet(b % 16, 8) == p.dup && FlagSet(b % 16, 1) == p.retain
  {
    hide Utf8.TopicName;
    var flags: nat := 8 * Bit(p.dup) + 2 * p.qos + Bit(p.retain);
    assert PublishFirstByte(p) % 16 == flags;
    assert flags / 2 == p.qos + 4 * Bit(p.dup);
    assert flags / 8 == Bit(p.dup);
  }

  lemma PublishByteBack(b: byte, p: Publish)
    requires WellFormedPublish(p) && b / 16 == 3 && ((b % 16) / 2) % 4 == p.qos
    requires FlagSet(b % 16, 8) == p.dup && FlagSet(b % 16, 1) == p.retain
    ensures PublishFirstByte(p) == b
  {
    hide Utf8.TopicName;
    var flags: nat := b % 16;
    assert flags / 2 == (flags / 2) % 4 + 4 * (flags / 8);
  }

  lemma SubscribeForth(id: nat, rs: seq<TopicRequest>)
    requires Identifier(id) && rs != [] && RequestsOk(rs)
    ensures ParseSubscribe(U16(id) + RequestFields(rs)) == Some(SubscribePacket(id, rs))
  {
    U16Forth(id, RequestFields(rs));
    hide U16, GetU16, RequestFields, ParseRequests, Filter;
    RequestsForth(rs);
  }

  lemma UnsubscribeForth(id: nat, fs: seq<bytes>)
    requires Identifier(id) && fs != [] && FiltersOk(fs)
    ensures ParseUnsubscribe(U16(id) + FilterFields(fs)) == Some(UnsubscribePacket(id, fs))
  {
    U16Forth(id, FilterFields(fs));
    hide U16, GetU16, FilterFields, ParseFilters, Filter;
    FiltersForth(fs);
  }

  /** Every well-formed packet is read back from its first byte and body. */
  lemma BodyForth(p: Packet)
    requires WellFormed(p)
    ensures ParseBody(FirstByte(p), Body(p)) == Some(p)
  {
    hide Utf8.MqttString, Utf8.TopicName, Filter, FlagSet, PublishFirstByte;
    hide ParseConnect, ParsePublish, ParseSubscribe, ParseUnsubscribe, PublishBody, RequestFields, FilterFields, Field, ConnectFlags;
    match p {
      case ConnectPacket(_, _, _, _, _, _) => ConnectForth(p);
      case PublishPacket(publish) =>
        PublishForth(publish);
        PublishByteForth(publish);
      case PubAckPacket(id) =>
        U16Forth(id, []);
        assert U16(id) + [] == U16(id);
      case SubscribePacket(id, requests) =>
        SubscribeForth(id, requests);
      case UnsubscribePacket(id, filters) =>
        UnsubscribeForth(id, filters);
      case PingReqPacket =>
      case DisconnectPacket =>
    }
  }

  /** Nothing else is read: the packet read is well formed and has this first byte and body. */
  lemma BodyBack(b: byte, s: bytes)
    requires ParseBody(b, s).Some?
    ensures var p := ParseBody(b, s).value; WellFormed(p) && FirstByte(p) == b && Body(p) == s
  {
    hide Utf8.MqttString, Utf8.TopicName, Filter, ParseConnect, ParsePublish, PublishBody, PublishFirstByte, Field, FlagSet;
    hide ConnectFlags;
    var flags := b % 16;
    if b / 16 == 1 {
      ConnectBack(s);
    } else if b / 16 == 3 {
      PublishBack(s, (flags / 2) % 4, FlagSet(flags, 8), FlagSet(flags, 1));
      PublishByteBack(b, ParseBody(b, s).value.publish);
    } else if b / 16 == 4 {
      U16Back(s);
    } else if b / 16 == 8 {
      U16Back(s);
      RequestsBack(GetU16(s).rest);
    } else if b / 16 == 10 {
      U16Back(s);
      FiltersBack(GetU16(s).rest);
    }
  }
}
