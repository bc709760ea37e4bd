/** Valid text, in the terms of section 3 of RFC 3629: the encodings of Unicode's
    scalar values. */
module Utf8Codes {
  import opened Utf8

  /** A scalar value: up to U+10FFFF, and not a surrogate. */
  predicate Scalar(u: nat) {
    u < 0xD800 || 0xE000 <= u < 0x11_0000
  }

  /** The bits of `u` from bit `6 * k` on, six of them, in a continuation byte. */
  function Tail(u: nat, k: nat): byte {
    0x80 + (match k case 0 => u case 1 => u / 0x40 case _ => u / 0x1000) % 0x40
  }

  function Encode(u: nat): seq<byte>
    requires Scalar(u)
  {
    if u < 0x80 then [u]
    else if u < 0x800 then [0xC0 + u / 0x40, Tail(u, 0)]
    else if u < 0x1_0000 then [0xE0 + u / 0x1000, Tail(u, 1), Tail(u, 0)]
    else [0xF0 + u / 0x4_0000, Tail(u, 2), Tail(u, 1), Tail(u, 0)]
  }

  lemma {:induction false} EncodedIsCodePoint(u: nat)
    requires Scalar(u)
    ensures CodePoint(Encode(u))
  {
  }

  /** The value of a code point's bits, six to a continuation byte. */
  function Decode(s: seq<byte>): int {
    match |s|
    case 1 => s[0]
    case 2 => Shift(s[0] as int - 0xC0, s[1])
    case 3 => Shift(Shift(s[0] as int - 0xE0, s[1]), s[2])
    case 4 => Shift(Shift(Shift(s[0] as int - 0xF0, s[1]), s[2]), s[3])
    case _ => 0
  }

  function Shift(u: int, b: byte): int {
    0x40 * u + (b as int - 0x80)
  }

  lemma {:induction false} Shifted(u: int, b: byte)
    requires IsTail(b)
    ensures Shift(u, b) / 0x40 == u && Shift(u, b) % 0x40 == b as int - 0x80
  {
  }

  lemma {:induction false} HighBits(u: nat)
    ensures u / 0x1000 == u / 0x40 / 0x40 && u / 0x4_0000 == u / 0x40 / 0x40 / 0x40
  {
  }

  lemma {:induction false} CodePointIsEncoded(s: seq<byte>)
    requires CodePoint(s)
    ensures Decode(s) >= 0 && Scalar(Decode(s)) && Encode(Decode(s)) == s
  {
    match |s|
    case 1 =>
    case 2 => Shifted(s[0] as int - 0xC0, s[1]);
    case 3 => ThreeBytes(s);
    case 4 => FourBytes(s);
  }

  lemma {:induction false} ThreeBytes(s: seq<byte>)
    requires |s| == 3 && CodePoint(s)
    ensures Decode(s) >= 0 && Scalar(Decode(s)) && Encode(Decode(s)) == s
  {
    var u := Shift(s[0] as int - 0xE0, s[1]);
    Shifted(s[0] as int - 0xE0, s[1]);
    Shifted(u, s[2]);
    assert 0x20 <= u < 0x360 || 0x380 <= u < 0x400;
    HighBits(Decode(s));
  }

  lemma {:induction false} FourBytes(s: seq<byte>)
    requires |s| == 4 && CodePoint(s)
    ensures Decode(s) >= 0 && Scalar(Decode(s)) && Encode(Decode(s)) == s
  {
    var u := Shift(s[0] as int - 0xF0, s[1]);
    Shifted(s[0] as int - 0xF0, s[1]);
    Shifted(u, s[2]);
    Shifted(Shift(u, s[2]), s[3]);
    assert 0x10 <= u < 0x110;
    HighBits(Decode(s));
  }

  /** The byte sequences taken for one character are the encodings of the scalar
      values, and no others. */
  lemma {:induction false} CodePointsExactly(s: seq<byte>)
    ensures CodePoint(s) <==> exists u: nat :: Scalar(u) && Encode(u) == s
  {
    if CodePoint(s) { CodePointIsEncoded(s); }
    forall u: nat | Scalar(u) ensures CodePoint(Encode(u)) { EncodedIsCodePoint(u); }
  }

  ghost predicate AllScalar(us: seq<nat>) {
    forall u :: u in us ==> Scalar(u)
  }

  function EncodeAll(us: seq<nat>): seq<byte>
    requires AllScalar(us)
  {
    if us == [] then [] else Encode(us[0]) + EncodeAll(us[1..])
  }

  lemma {:induction false} EncodedIsValid(us: seq<nat>)
    requires AllScalar(us)
    ensures Valid(EncodeAll(us))
  {
    if us != [] {
      var first, rest := Encode(us[0]), EncodeAll(us[1..]);
      EncodedIsCodePoint(us[0]);
      EncodedIsValid(us[1..]);
      assert CharLen(first[0]) == |first|;
      assert (first + rest)[..|first|] == first && (first + rest)[|first|..] == rest;
    }
  }

  lemma {:induction false} ValidIsEncoded(s: seq<byte>) returns (us: seq<nat>)
    requires Valid(s)
    ensures AllScalar(us) && EncodeAll(us) == s
  {
    if s == [] {
      us := [];
    } else {
      var n := CharLen(s[0]);
      CodePointIsEncoded(s[..n]);
      var rest := ValidIsEncoded(s[n..]);
      us := [Decode(s[..n])] + rest;
      assert us[1..] == rest;
      Rejoined(s, n);
    }
  }

  lemma {:induction false} Rejoined(s: seq<byte>, n: nat)
    requires n <= |s|
    ensures s[..n] + s[n..] == s
  {
  }

  /** Valid text is what encodes a sequence of scalar values. */
  lemma {:induction false} ValidExactly(s: seq<byte>)
    ensures Valid(s) <==> exists us :: AllScalar(us) && EncodeAll(us) == s
  {
    if Valid(s) { var us := ValidIsEncoded(s); }
    forall us | AllScalar(us) ensures Valid(EncodeAll(us)) { EncodedIsValid(us); }
  }

  /** The table goes by the leading bits of a byte: 0, 10, 110, 1110 and 1111. */
  lemma {:induction false} LeadingBits(b: byte)
    ensures CharLen(b) == 1 <==> b / 0x80 == 0
    ensures CharLen(b) == 0 <==> b / 0x40 == 2
    ensures CharLen(b) == 2 <==> b / 0x20 == 6
    ensures CharLen(b) == 3 <==> b / 0x10 == 14
    ensures CharLen(b) == 4 <==> b / 0x10 == 15
  {
  }
}
