/** The variable-length Remaining Length field (section 2.2.3 of MQTT 3.1.1). */
module Lengths {
  import opened Bytes
  import opened Streams

  const MAX_REMAINING_LENGTH: nat := 268435455
  const MAX_PACKET_SIZE: nat := MAX_REMAINING_LENGTH + 5

  /** One to four bytes; every byte but the last has its high bit set. */
  ghost predicate LengthField(s: bytes) {
    1 <= |s| <= 4 && s[|s| - 1] < 128 && forall i :: 0 <= i < |s| - 1 ==> 128 <= s[i]
  }

  /** The value of a length field: seven bits a byte, least significant first. */
  function LengthValue(s: bytes): nat {
    if s == [] then 0 else s[0] % 128 + 128 * LengthValue(s[1..])
  }

  /** The digits by place, as section 2.2.3 weighs them. */
  lemma ValueByPlace(s: bytes)
    requires LengthField(s)
    ensures LengthValue(s) == Digit(s, 0) + 128 * Digit(s, 1) + 16384 * Digit(s, 2) + 2097152 * Digit(s, 3)
  {
    DigitsLeft(s, 0);
    DigitsLeft(s, 1);
    DigitsLeft(s, 2);
    DigitsLeft(s, 3);
    assert s[0..] == s && |s| <= 4;
  }

  function Digit(s: bytes, k: nat): nat {
    if k < |s| then s[k] % 128 else 0
  }

  lemma DigitsLeft(s: bytes, k: nat)
    requires |s| <= 4
    ensures k < |s| ==> LengthValue(s[k..]) == s[k] % 128 + 128 * LengthValue(s[k + 1..])
    ensures k + 1 == |s| ==> LengthValue(s[k + 1..]) == 0
  {
    if k < |s| {
      assert s[k..][1..] == s[k + 1..];
    }
  }

  function EncodeLength(n: nat): bytes {
    if n < 128 then [n] else [n % 128 + 128] + EncodeLength(n / 128)
  }

  lemma {:induction false} EncodeLengthSize(n: nat, k: nat)
    ensures k == 1 && n < 128 ==> |EncodeLength(n)| == 1
    ensures k == 2 && 128 <= n < 16384 ==> |EncodeLength(n)| == 2
    ensures k == 3 && 16384 <= n < 2097152 ==> |EncodeLength(n)| == 3
    ensures k == 4 && 2097152 <= n <= MAX_REMAINING_LENGTH ==> |EncodeLength(n)| == 4
    decreases k
  {
    if 1 < k <= 4 && 128 <= n {
      EncodeLengthSize(n / 128, k - 1);
    }
  }

  /** Encoding is a length field with the value that was encoded. */
  lemma {:induction false} EncodeLengthValue(n: nat)
    ensures LengthValue(EncodeLength(n)) == n
    ensures var s := EncodeLength(n); s[|s| - 1] < 128 && forall i :: 0 <= i < |s| - 1 ==> 128 <= s[i]
  {
    if 128 <= n {
      EncodeLengthValue(n / 128);
      assert EncodeLength(n)[1..] == EncodeLength(n / 128);
    }
  }

  lemma EncodeLengthIsField(n: nat)
    requires n <= MAX_REMAINING_LENGTH
    ensures LengthField(EncodeLength(n)) && LengthValue(EncodeLength(n)) == n
  {
    EncodeLengthValue(n);
    EncodeLengthSize(n, 1);
    EncodeLengthSize(n, 2);
    EncodeLengthSize(n, 3);
    EncodeLengthSize(n, 4);
  }

  /** No byte string with the same value is shorter. */
  lemma {:induction false} EncodeLengthIsShortest(n: nat, s: bytes)
    requires s != [] && LengthValue(s) == n
    ensures |EncodeLength(n)| <= |s|
  {
    if 128 <= n {
      assert LengthValue(s[1..]) == n / 128;
      EncodeLengthIsShortest(n / 128, s[1..]);
    }
  }

  /** No length field has a value above the maximum. */
  lemma LengthValueBound(s: bytes)
    requires |s| <= 4
    ensures LengthValue(s) <= MAX_REMAINING_LENGTH
  {
    ValueBelowPower(s);
    PowerMonotone(|s|, 4);
    assert Power128(4) == 128 * (128 * (128 * 128));
  }

  lemma {:induction false} PowerMonotone(j: nat, k: nat)
    requires j <= k
    ensures Power128(j) <= Power128(k)
  {
    if j < k {
      PowerMonotone(j, k - 1);
    }
  }

  function Power128(k: nat): nat {
    if k == 0 then 1 else 128 * Power128(k - 1)
  }

  lemma {:induction false} ValueBelowPower(s: bytes)
    ensures LengthValue(s) < Power128(|s|)
  {
    if s != [] {
      ValueBelowPower(s[1..]);
    }
  }

  lemma {:induction false} LengthValueSnoc(s: bytes, b: byte)
    ensures LengthValue(s + [b]) == LengthValue(s) + (b % 128) * Power128(|s|)
  {
    if s != [] {
      LengthValueSnoc(s[1..], b);
      assert (s + [b])[1..] == s[1..] + [b];
      var p := Power128(|s| - 1);
      assert 128 * ((b % 128) * p) == (b % 128) * (128 * p);
    }
  }

  /** `encodedLengthSize` */
  method EncodedLengthSize(length: nat) returns (size: nat)
    ensures size == |EncodeLength(length)|
  {
    size := 0;
    var rest := length;
    while true
      invariant size + |EncodeLength(rest)| == |EncodeLength(length)|
      decreases rest
    {
      size := size + 1;
      rest := rest / 128;
      if rest == 0 {
        return;
      }
    }
  }

  method EncodeRemainingLength(w: Writer, length: int) returns (ok: bool)
    modifies w
    ensures ok <==> 0 <= length <= MAX_REMAINING_LENGTH
    ensures w.written == old(w.written) + if ok then EncodeLength(length) else []
  {
    if length < 0 || length > MAX_REMAINING_LENGTH {
      return false;
    }
    var rest: nat := length;
    while true
      invariant w.written + EncodeLength(rest) == old(w.written) + EncodeLength(length)
      decreases rest
    {
      ghost var field, before := EncodeLength(rest), w.written;
      var encodedByte := rest % 128;
      rest := rest / 128;
      if rest > 0 {
        encodedByte := encodedByte + 128;
      }
      w.Write([encodedByte]);
      assert rest > 0 ==> field == [encodedByte] + EncodeLength(rest);
      assert before + ([encodedByte] + EncodeLength(rest)) == w.written + EncodeLength(rest);
      if rest == 0 {
        return true;
      }
    }
  }

  /** The size of the length field at the start of `s`, or 0 if there is none. */
  function FieldSize(s: bytes): (n: nat)
    ensures n <= |s| && n <= 4
  {
    if |s| > 0 && s[0] < 128 then 1
    else if |s| > 1 && s[1] < 128 then 2
    else if |s| > 2 && s[2] < 128 then 3
    else if |s| > 3 && s[3] < 128 then 4
    else 0
  }

  /** A stream starts with at most one length field, and `FieldSize` finds it. */
  lemma FieldSizeIsUnique(s: bytes, n: nat)
    requires n <= |s|
    ensures LengthField(s[..n]) <==> n == FieldSize(s) && n != 0
  {
    if LengthField(s[..n]) {
      assert s[..n][n - 1] == s[n - 1];
      forall i | 0 <= i < n - 1 ensures 128 <= s[i] {
        assert s[..n][i] == s[i];
      }
    }
  }

  /** One step of the decoding loop. */
  lemma OneMoreDigit(s: bytes, i: nat)
    requires i < |s|
    ensures LengthValue(s[..i + 1]) == LengthValue(s[..i]) + (s[i] % 128) * Power128(i) && Power128(i + 1) == Power128(i) * 128
  {
    LengthValueSnoc(s[..i], s[i]);
    assert s[..i + 1] == s[..i] + [s[i]];
  }

  lemma NothingRead(s: bytes)
    ensures LengthValue(s[..0]) == 0 && Power128(0) == 1
  {
  }

  /** The loop ends at the last byte of the field, or there is none. */
  lemma EndsHere(s: bytes, i: nat)
    requires i < |s| && i < 4 && s[i] < 128 && forall j :: 0 <= j < i ==> 128 <= s[j]
    ensures FieldSize(s) == i + 1 && LengthValue(s[..i + 1]) <= MAX_REMAINING_LENGTH
  {
    LengthValueBound(s[..i + 1]);
  }

  lemma NoEnd(s: bytes)
    requires forall j :: 0 <= j < |s| && j < 4 ==> 128 <= s[j]
    ensures FieldSize(s) == 0
  {
  }

  /** The value and size of the length field that starts the stream; nothing after it is read. */
  method DecodeRemainingLength(r: Reader) returns (res: Option<(nat, nat)>)
    requires r.Valid()
    modifies r
    ensures r.Valid()
    ensures var s := old(r.Ahead()); var n := FieldSize(s);
            if n == 0 then res.None?
            else res == Some((LengthValue(s[..n]), n)) && LengthValue(s[..n]) <= MAX_REMAINING_LENGTH && r.pos == old(r.pos) + n
  {
    hide LengthValue, Power128, FieldSize;
    ghost var s := r.Ahead();
    NothingRead(s);
    var multiplier: nat := 1;
    var value: nat := 0;
    for i := 0 to 4
      invariant r.Valid() && i <= |s| && r.Ahead() == s[i..] && r.pos == old(r.pos) + i
      invariant multiplier == Power128(i) && value == LengthValue(s[..i])
      invariant forall j :: 0 <= j < i ==> 128 <= s[j]
    {
      var encoded := r.Take(1);
      if encoded.None? {
        assert i == |s|;
        NoEnd(s);
        return None;
      }
      var digit: int := encoded.value[0];
      OneMoreDigit(s, i);
      value := value + (digit % 128) * multiplier;
      if digit < 128 {
        EndsHere(s, i);
        return Some((value, i + 1));
      }
      multiplier := multiplier * 128;
    }
    NoEnd(s);
    return None;
  }
}
