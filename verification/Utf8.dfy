/** UTF-8 as `TextEncoder` writes it and a fatal `TextDecoder` reads it (RFC 3629, section 3).
    The decoder also removes a leading byte order mark. */
module Utf8 {
  import opened Utf16
  import opened JsonScan
  import opened Options

  type Byte = b: int | 0 <= b < 0x100

  type Bytes = seq<Byte>

  const BOM: Bytes := [0xEF, 0xBB, 0xBF]

  const REPLACEMENT: CodeUnit := 0xFFFD

  /** How many code units the first character of `t` takes. */
  function FrontLength(t: Text): (n: nat)
    requires t != []
    ensures 1 <= n <= |t|
  {
    if StartsWithPair(t) then 2 else 1
  }

  function PairValue(high: CodeUnit, low: CodeUnit): (c: int)
    requires IsHigh(high) && IsLow(low)
    ensures 0x10000 <= c < 0x110000
  {
    0x10000 + (high - 0xD800) * 0x400 + (low - 0xDC00)
  }

  function EncodeUnit(u: CodeUnit): (b: Bytes)
    ensures b != []
  {
    if u < 0x80 then [u]
    else if u < 0x800 then [0xC0 + u / 64, 0x80 + u % 64]
    else [0xE0 + u / 4096, 0x80 + u / 64 % 64, 0x80 + u % 64]
  }

  /** The bytes of the first character; a surrogate outside a pair is replaced. */
  function EncodeFront(t: Text): (b: Bytes)
    requires t != []
    ensures b != []
  {
    if StartsWithPair(t) then
      var c := PairValue(t[0], t[1]);
      [0xF0 + c / 262144, 0x80 + c / 4096 % 64, 0x80 + c / 64 % 64, 0x80 + c % 64]
    else EncodeUnit(if IsSurrogate(t[0]) then REPLACEMENT else t[0])
  }

  function Encode(t: Text): (b: Bytes)
    ensures |t| <= |b|
  {
    if t == [] then [] else EncodeFront(t) + Encode(t[FrontLength(t)..])
  }

  predicate IsContinuation(b: Byte) { 0x80 <= b < 0xC0 }

  /** Six bits a digit. */
  function Value(x: int, y: int, z: int, w: int): int { ((x * 64 + y) * 64 + z) * 64 + w }

  datatype Front = Front(text: Text, length: nat)

  /** The first character of `b`, when `b` starts with a valid sequence. */
  function DecodeFront(b: Bytes): (r: Option<Front>)
    requires b != []
    ensures r.Some? ==> 1 <= r.value.length <= |b| && r.value.text != []
  {
    if b[0] < 0x80 then Some(Front([b[0]], 1))
    else if 0xC2 <= b[0] < 0xE0 && |b| >= 2 && IsContinuation(b[1]) then
      Some(Front([Value(0, 0, b[0] - 0xC0, b[1] - 0x80)], 2))
    else if 0xE0 <= b[0] < 0xF0 && |b| >= 3 && IsContinuation(b[1]) && IsContinuation(b[2]) then
      var u := Value(0, b[0] - 0xE0, b[1] - 0x80, b[2] - 0x80);
      if u < 0x800 || IsSurrogate(u) then None else Some(Front([u], 3))
    else if 0xF0 <= b[0] < 0xF5 && |b| >= 4 && IsContinuation(b[1]) && IsContinuation(b[2]) && IsContinuation(b[3]) then
      var c := Value(b[0] - 0xF0, b[1] - 0x80, b[2] - 0x80, b[3] - 0x80);
      if c < 0x10000 || c >= 0x110000 then None
      else Some(Front([0xD800 + (c - 0x10000) / 0x400, 0xDC00 + (c - 0x10000) % 0x400], 4))
    else None
  }

  function Decode(b: Bytes): Option<Text> {
    if b == [] then Some([])
    else
      var front := DecodeFront(b);
      if front.None? then None else
      var rest := Decode(b[front.value.length..]);
      if rest.None? then None else Some(front.value.text + rest.value)
  }

  /** `TextDecoder.decode` on one line: a leading byte order mark disappears. */
  function DecodeLine(b: Bytes): Option<Text> {
    Decode(if BOM <= b then b[3..] else b)
  }

  /** The bytes of one character by the table of RFC 3629, section 3: its number stands in the bits
      that the first byte and the following ones have left. */
  lemma {:induction false} BytesOfCharacter(t: Text)
    requires t != [] && (StartsWithPair(t) || !IsSurrogate(t[0]))
    ensures var high: int, low: int := t[0], if |t| > 1 then t[1] else 0;
            var c := if StartsWithPair(t) then 0x10000 + (high - 0xD800) * 1024 + (low - 0xDC00) else high;
            var b: seq<int> := EncodeFront(t);
            && (c < 0x80 ==> b == [c])
            && (0x80 <= c < 0x800 ==> |b| == 2 && 0xC2 <= b[0] < 0xE0 && 0x80 <= b[1] < 0xC0 && (b[0] - 0xC0) * 64 + (b[1] - 0x80) == c)
            && (0x800 <= c < 0x10000 ==> |b| == 3 && 0xE0 <= b[0] < 0xF0 && 0x80 <= b[1] < 0xC0 && 0x80 <= b[2] < 0xC0
                                         && (b[0] - 0xE0) * 4096 + (b[1] - 0x80) * 64 + (b[2] - 0x80) == c)
            && (0x10000 <= c ==> |b| == 4 && 0xF0 <= b[0] < 0xF5 && 0x80 <= b[1] < 0xC0 && 0x80 <= b[2] < 0xC0 && 0x80 <= b[3] < 0xC0
                                 && (b[0] - 0xF0) * 262144 + (b[1] - 0x80) * 4096 + (b[2] - 0x80) * 64 + (b[3] - 0x80) == c)
  {
    if StartsWithPair(t) { SplitDigits(PairValue(t[0], t[1])); }
  }

  lemma SplitDigits(c: nat)
    requires c < 0x110000
    ensures c / 262144 < 5 && c == Value(c / 262144, c / 4096 % 64, c / 64 % 64, c % 64)
  {
    assert c / 4096 == c / 262144 * 64 + c / 4096 % 64;
    assert c / 64 == c / 4096 * 64 + c / 64 % 64;
  }

  lemma Digits(c: nat, x: nat, y: nat, z: nat, w: nat)
    requires y < 64 && z < 64 && w < 64 && c == Value(x, y, z, w)
    ensures c / 262144 == x && c / 4096 % 64 == y && c / 64 % 64 == z && c % 64 == w && c / 4096 == x * 64 + y
  {
    Base64(x * 4096 + y * 64 + z, w);
    Base64(x * 64 + y, z);
    Base64(x, y);
  }

  lemma Base64(high: nat, low: nat)
    requires low < 64
    ensures (high * 64 + low) / 64 == high && (high * 64 + low) % 64 == low
  {
  }

  lemma PairRoundTrip(high: CodeUnit, low: CodeUnit)
    requires IsHigh(high) && IsLow(low)
    ensures var c := PairValue(high, low); (c - 0x10000) / 0x400 == high - 0xD800 && (c - 0x10000) % 0x400 == low - 0xDC00
  {
  }

  lemma TwoBytes(u: CodeUnit, rest: Bytes)
    requires 0x80 <= u < 0x800
    ensures DecodeFront([0xC0 + u / 64, 0x80 + u % 64] + rest) == Some(Front([u], 2))
  {
    var b := [0xC0 + u / 64, 0x80 + u % 64] + rest;
    assert b[0] == 0xC0 + u / 64 && b[1] == 0x80 + u % 64 && 2 <= u / 64 < 32;
  }

  lemma ThreeBytes(u: CodeUnit, rest: Bytes)
    requires 0x800 <= u && !IsSurrogate(u)
    ensures DecodeFront([0xE0 + u / 4096, 0x80 + u / 64 % 64, 0x80 + u % 64] + rest) == Some(Front([u], 3))
  {
    SplitDigits(u);
    var b := [0xE0 + u / 4096, 0x80 + u / 64 % 64, 0x80 + u % 64] + rest;
    assert b[0] == 0xE0 + u / 4096 && b[1] == 0x80 + u / 64 % 64 && b[2] == 0x80 + u % 64;
    assert 0 <= u / 4096 < 16 && u / 4096 % 64 == u / 4096 && u / 262144 == 0;
  }

  lemma UnitRoundTrip(u: CodeUnit, rest: Bytes)
    requires !IsSurrogate(u)
    ensures DecodeFront(EncodeUnit(u) + rest) == Some(Front([u], |EncodeUnit(u)|))
  {
    hide DecodeFront;
    if u < 0x80 {
      OneByte(u, rest);
    } else if u < 0x800 {
      TwoBytes(u, rest);
    } else {
      ThreeBytes(u, rest);
    }
  }

  lemma OneByte(u: CodeUnit, rest: Bytes)
    requires u < 0x80
    ensures DecodeFront([u] + rest) == Some(Front([u], 1))
  {
  }

  lemma {:induction false} FrontRoundTrip(t: Text, rest: Bytes)
    requires t != [] && WellFormed(t)
    ensures DecodeFront(EncodeFront(t) + rest) == Some(Front(t[..FrontLength(t)], |EncodeFront(t)|))
  {
    if StartsWithPair(t) {
      SplitDigits(PairValue(t[0], t[1]));
      PairRoundTrip(t[0], t[1]);
      assert t[..2] == [t[0], t[1]];
    } else {
      UnitRoundTrip(t[0], rest);
      assert t[..1] == [t[0]];
    }
  }

  lemma {:induction false} DecodeEncode(t: Text)
    requires WellFormed(t)
    ensures Decode(Encode(t)) == Some(t)
  {
    if t != [] {
      var n := FrontLength(t);
      FrontRoundTrip(t, Encode(t[n..]));
      DecodeEncode(t[n..]);
      assert Encode(t)[|EncodeFront(t)|..] == Encode(t[n..]);
      assert t == t[..n] + t[n..];
    }
  }

  lemma {:induction false} FrontSound(b: Bytes, k: Text)
    requires b != [] && DecodeFront(b).Some?
    ensures var f := DecodeFront(b).value;
            FrontLength(f.text + k) == |f.text| && EncodeFront(f.text + k) == b[..f.length]
            && (WellFormed(k) ==> WellFormed(f.text + k))
  {
    var f := DecodeFront(b).value;
    if f.length == 4 {
      FrontSound4(b, k);
    } else {
      assert (f.text + k)[..1] == f.text && (f.text + k)[1..] == k;
      FrontSoundUnit(b);
    }
  }

  lemma FrontSoundUnit(b: Bytes)
    requires b != [] && DecodeFront(b).Some? && DecodeFront(b).value.length < 4
    ensures var f := DecodeFront(b).value; |f.text| == 1 && !IsSurrogate(f.text[0]) && EncodeUnit(f.text[0]) == b[..f.length]
  {
    var f := DecodeFront(b).value;
    if f.length == 3 {
      Digits(f.text[0], 0, b[0] - 0xE0, b[1] - 0x80, b[2] - 0x80);
      assert b[..3] == [b[0], b[1], b[2]];
    } else if f.length == 2 {
      assert b[..2] == [b[0], b[1]];
    } else {
      assert b[..1] == [b[0]];
    }
  }

  lemma {:induction false} FrontSound4(b: Bytes, k: Text)
    requires b != [] && DecodeFront(b).Some? && DecodeFront(b).value.length == 4
    ensures var f := DecodeFront(b).value;
            FrontLength(f.text + k) == |f.text| && EncodeFront(f.text + k) == b[..4]
            && (WellFormed(k) ==> WellFormed(f.text + k))
  {
    var t := DecodeFront(b).value.text + k;
    assert t[2..] == k;
    var c := Value(b[0] - 0xF0, b[1] - 0x80, b[2] - 0x80, b[3] - 0x80);
    assert PairValue(t[0], t[1]) == c;
    Digits(c, b[0] - 0xF0, b[1] - 0x80, b[2] - 0x80, b[3] - 0x80);
    assert b[..4] == [b[0], b[1], b[2], b[3]];
  }

  lemma {:induction false} EncodeGlued(b: Bytes, f: Front, rest: Text)
    requires b != [] && DecodeFront(b) == Some(f) && WellFormed(rest) && Encode(rest) == b[f.length..]
    ensures WellFormed(f.text + rest) && Encode(f.text + rest) == b
  {
    hide DecodeFront, EncodeFront, FrontLength;
    FrontSound(b, rest);
    EncodePrepend(f.text, rest);
    assert b == b[..f.length] + b[f.length..];
  }

  /** The decoder accepts nothing but the encodings of well-formed texts. */
  lemma {:induction false} EncodeDecode(b: Bytes)
    requires Decode(b).Some?
    ensures WellFormed(Decode(b).value) && Encode(Decode(b).value) == b
  {
    if b != [] {
      var f := DecodeFront(b).value;
      EncodeDecode(b[f.length..]);
      EncodeGlued(b, f, Decode(b[f.length..]).value);
    }
  }

  lemma {:induction false} EncodePrepend(front: Text, rest: Text)
    requires front != [] && FrontLength(front + rest) == |front|
    ensures Encode(front + rest) == EncodeFront(front + rest) + Encode(rest)
  {
    assert (front + rest)[|front|..] == rest;
  }

  lemma {:induction false} EncodeConcat(a: Text, b: Text)
    requires WellFormed(a)
    ensures Encode(a + b) == Encode(a) + Encode(b)
  {
    if a == [] {
      assert a + b == b;
    } else {
      var n := FrontLength(a);
      var f, r := a[..n], a[n..];
      EncodeConcat(r, b);
      FrontSame(a, b);
      assert a == f + r;
      Assoc(f, r, b);
      EncodePrepend(f, r + b);
      BytesAssoc(EncodeFront(a), Encode(r), Encode(b));
    }
  }

  lemma {:induction false} FrontSame(a: Text, b: Text)
    requires a != [] && WellFormed(a)
    ensures FrontLength(a + b) == FrontLength(a) && EncodeFront(a + b) == EncodeFront(a)
  {
  }

  lemma BytesAssoc(a: Bytes, b: Bytes, c: Bytes)
    ensures (a + b) + c == a + (b + c)
  {
  }

  /** A byte that is an ASCII code appears in the encoding only where the text has that unit. */
  lemma {:induction false} AsciiOnlyWhereWritten(t: Text, c: Byte)
    requires c < 0x80 && forall i :: 0 <= i < |t| ==> t[i] != c
    ensures forall i :: 0 <= i < |Encode(t)| ==> Encode(t)[i] != c
  {
    if t != [] {
      var n := FrontLength(t);
      AsciiOnlyWhereWritten(t[n..], c);
      assert forall i :: 0 <= i < |EncodeFront(t)| ==> EncodeFront(t)[i] != c;
    }
  }

  lemma FrontOfBom(b: Bytes)
    requires b != []
    ensures BOM <= b ==> DecodeFront(b) == Some(Front([0xFEFF], 3))
  {
    if BOM <= b { assert b[..3] == BOM; }
  }

  /** Exactly two byte sequences decode to a given well-formed text that has no byte order mark
      of its own: its encoding, with or without a byte order mark in front. */
  lemma {:induction false} DecodeLineExact(b: Bytes, t: Text)
    requires WellFormed(t) && (t == [] || t[0] != 0xFEFF)
    ensures DecodeLine(b) == Some(t) <==> b == Encode(t) || b == BOM + Encode(t)
  {
    DecodeEncode(t);
    assert (BOM + Encode(t))[3..] == Encode(t);
    if t != [] {
      FrontRoundTrip(t, Encode(t[FrontLength(t)..]));
      FrontOfBom(Encode(t));
      assert t[..FrontLength(t)][0] == t[0];
    }
    if DecodeLine(b) == Some(t) {
      EncodeDecode(if BOM <= b then b[3..] else b);
      if BOM <= b { assert b == b[..3] + b[3..]; }
    }
  }
}
