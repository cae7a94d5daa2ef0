/** Well-formed UTF-8 (table 3-7 of the Unicode standard), as `utf8.ValidString` decides it,
    and the MQTT string rules built on it. */
module Utf8 {
  import opened Bytes

  predicate Tail(s: bytes, i: nat) {
    i < |s| && 0x80 <= s[i] <= 0xBF
  }

  /** The length of the well-formed character that starts `s`, or 0 if there is none. */
  function RuneLength(s: bytes): nat {
    if s == [] then 0
    else if s[0] < 0x80 then 1
    else if 0xC2 <= s[0] <= 0xDF then
      if Tail(s, 1) then 2 else 0
    else if 0xE0 <= s[0] <= 0xEF then
      if Tail(s, 1) && Tail(s, 2) && (s[0] == 0xE0 ==> 0xA0 <= s[1]) && (s[0] == 0xED ==> s[1] <= 0x9F)
      then 3 else 0
    else if 0xF0 <= s[0] <= 0xF4 then
      if Tail(s, 1) && Tail(s, 2) && Tail(s, 3) && (s[0] == 0xF0 ==> 0x90 <= s[1]) && (s[0] == 0xF4 ==> s[1] <= 0x8F)
      then 4 else 0
    else 0
  }

  predicate Valid(s: bytes) {
    s == [] || (0 < RuneLength(s) <= |s| && Valid(s[RuneLength(s)..]))
  }

  /** `validateUTF8String` */
  predicate MqttString(s: bytes) {
    |s| <= MAX_UINT16 && Valid(s) && 0 !in s
  }

  /** `validateTopicName` */
  predicate TopicName(s: bytes) {
    MqttString(s) && s != [] && PLUS !in s && HASH !in s
  }

  /** An ASCII byte is a character of its own, so a string is well formed exactly when the
      parts on either side of one are. */
  lemma {:induction false} ValidAroundAscii(a: bytes, c: byte, b: bytes)
    requires c < 0x80
    ensures Valid(a + [c] + b) <==> Valid(a) && Valid(b)
  {
    var s := a + [c] + b;
    if a == [] {
      assert s[1..] == b;
    } else {
      var n := RuneLength(s);
      assert s[|a|] == c;
      if 0 < n {
        assert n <= |a|;
        assert RuneLength(a) == n;
        assert s[n..] == a[n..] + [c] + b;
        ValidAroundAscii(a[n..], c, b);
      } else {
        assert RuneLength(a) == 0;
      }
    }
  }

  // ----- Characters

  /** The Unicode scalar values: all code points but the surrogates. */
  predicate Scalar(c: nat) {
    c <= 0x10FFFF && !(0xD800 <= c <= 0xDFFF)
  }

  /** The UTF-8 encoding of a scalar value (table 3-6 of the Unicode standard). */
  function EncodeRune(c: nat): bytes
    requires Scalar(c)
  {
    if c < 0x80 then [c]
    else if c < 0x800 then [0xC0 + c / 64, 0x80 + c % 64]
    else if c < 0x10000 then [0xE0 + c / 4096, 0x80 + c / 64 % 64, 0x80 + c % 64]
    else [0xF0 + c / 262144, 0x80 + c / 4096 % 64, 0x80 + c / 64 % 64, 0x80 + c % 64]
  }

  ghost predicate Scalars(cs: seq<nat>) {
    forall i :: 0 <= i < |cs| ==> Scalar(cs[i])
  }

  ghost function EncodeText(cs: seq<nat>): bytes
    requires Scalars(cs)
  {
    if cs == [] then [] else EncodeRune(cs[0]) + EncodeText(cs[1..])
  }

  lemma RuneForth(c: nat, rest: bytes)
    requires Scalar(c)
    ensures RuneLength(EncodeRune(c) + rest) == |EncodeRune(c)|
  {
    hide RuneLength;
    if c < 0x800 {
      ShortForth(c, rest);
    } else if c < 0x10000 {
      ThreeForth(c, rest);
    } else {
      FourForth(c, rest);
    }
  }

  lemma ShortForth(c: nat, rest: bytes)
    requires c < 0x800
    ensures RuneLength(EncodeRune(c) + rest) == |EncodeRune(c)|
  {
    var s := EncodeRune(c) + rest;
    assert s[0] == EncodeRune(c)[0];
    assert c >= 0x80 ==> 2 <= c / 64 < 32 && s[1] == 0x80 + c % 64;
  }

  lemma ThreeForth(c: nat, rest: bytes)
    requires Scalar(c) && 0x800 <= c < 0x10000
    ensures RuneLength(EncodeRune(c) + rest) == 3
  {
    var s := EncodeRune(c) + rest;
    assert s[0] == 0xE0 + c / 4096 && s[1] == 0x80 + c / 64 % 64 && s[2] == 0x80 + c % 64;
    assert c / 64 == 64 * (c / 4096) + c / 64 % 64;
  }

  lemma FourForth(c: nat, rest: bytes)
    requires Scalar(c) && 0x10000 <= c
    ensures RuneLength(EncodeRune(c) + rest) == 4
  {
    var s := EncodeRune(c) + rest;
    assert s[0] == 0xF0 + c / 262144 && s[1] == 0x80 + c / 4096 % 64 && s[2] == 0x80 + c / 64 % 64 && s[3] == 0x80 + c % 64;
    assert c / 4096 == 64 * (c / 262144) + c / 4096 % 64;
  }

  lemma RuneBack(s: bytes) returns (c: nat)
    requires RuneLength(s) > 0
    ensures Scalar(c) && RuneLength(s) <= |s| && EncodeRune(c) == s[..RuneLength(s)]
  {
    var n := RuneLength(s);
    var a: int := s[0];
    if n == 1 {
      c := a;
    } else if n == 2 {
      var b: int := s[1];
      c := (a - 0xC0) * 64 + (b - 0x80);
      assert c / 64 == a - 0xC0;
    } else if n == 3 {
      c := ThreeBack(s);
    } else {
      c := FourBack(s);
    }
  }

  lemma ThreeBack(s: bytes) returns (c: nat)
    requires RuneLength(s) == 3
    ensures Scalar(c) && EncodeRune(c) == s[..3]
  {
    var x: int, y: int, z: int := s[0], s[1], s[2];
    var a, b, d := x - 0xE0, y - 0x80, z - 0x80;
    c := a * 4096 + b * 64 + d;
    assert c / 64 == a * 64 + b;
    assert c / 4096 == a;
  }

  lemma FourBack(s: bytes) returns (c: nat)
    requires RuneLength(s) == 4
    ensures Scalar(c) && EncodeRune(c) == s[..4]
  {
    var w: int, x: int, y: int, z: int := s[0], s[1], s[2], s[3];
    var a, b, d, e := w - 0xF0, x - 0x80, y - 0x80, z - 0x80;
    c := a * 262144 + b * 4096 + d * 64 + e;
    assert c / 64 == a * 4096 + b * 64 + d;
    assert c / 4096 == a * 64 + b;
    assert c / 262144 == a;
  }

  /** Every text is well formed. */
  lemma {:induction false} TextIsValid(cs: seq<nat>)
    requires Scalars(cs)
    ensures Valid(EncodeText(cs))
  {
    if cs != [] {
      hide RuneLength, EncodeRune;
      var e, rest := EncodeRune(cs[0]), EncodeText(cs[1..]);
      TextIsValid(cs[1..]);
      RuneForth(cs[0], rest);
      RuneIsNotEmpty(cs[0]);
      assert (e + rest)[|e|..] == rest;
    }
  }

  lemma RuneIsNotEmpty(c: nat)
    requires Scalar(c)
    ensures EncodeRune(c) != []
  {
  }

  /** Every well-formed string is a text: the bytes are valid exactly when they encode characters. */
  lemma {:induction false} ValidIsText(s: bytes) returns (cs: seq<nat>)
    requires Valid(s)
    ensures Scalars(cs) && EncodeText(cs) == s
  {
    hide RuneLength, EncodeRune;
    if s == [] {
      cs := [];
    } else {
      var n := RuneLength(s);
      var c := RuneBack(s);
      var rest := ValidIsText(s[n..]);
      cs := [c] + rest;
      assert cs[1..] == rest && s == s[..n] + s[n..];
    }
  }

  lemma ValidMeansText(s: bytes)
    ensures Valid(s) <==> exists cs :: Scalars(cs) && EncodeText(cs) == s
  {
    hide Valid, EncodeText;
    if Valid(s) {
      var cs := ValidIsText(s);
    }
    if cs :| Scalars(cs) && EncodeText(cs) == s {
      TextIsValid(cs);
    }
  }
}
