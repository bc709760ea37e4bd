/** UTF-8 as RFC 3629 defines it, and the lead-byte table the stream filter
    uses to keep code points whole. */
module Utf8 {

  type byte = b: int | 0 <= b < 0x100

  /** utf8_char_len: expected length of the sequence a lead byte starts,
      0 for a continuation byte. */
  function CharLen(b: byte): nat {
    if b < 0x80 then 1
    else if b >= 0xF0 then 4
    else if b >= 0xE0 then 3
    else if b >= 0xC0 then 2
    else 0
  }

  predicate IsTail(b: byte) {
    0x80 <= b <= 0xBF
  }

  /** One encoded character: the UTF8-char production of section 4 of RFC 3629,
      the byte form of the definition in its section 3. */
  predicate CodePoint(s: seq<byte>) {
    match |s|
    case 1 => s[0] <= 0x7F
    case 2 => 0xC2 <= s[0] <= 0xDF && IsTail(s[1])
    case 3 =>
      && IsTail(s[1]) && IsTail(s[2])
      && 0xE0 <= s[0] <= 0xEF
      && (s[0] == 0xE0 ==> 0xA0 <= s[1])
      && (s[0] == 0xED ==> s[1] <= 0x9F)
    case 4 =>
      && IsTail(s[1]) && IsTail(s[2]) && IsTail(s[3])
      && 0xF0 <= s[0] <= 0xF4
      && (s[0] == 0xF0 ==> 0x90 <= s[1])
      && (s[0] == 0xF4 ==> s[1] <= 0x8F)
    case _ => false
  }

  /** A whole number of code points. */
  predicate Valid(s: seq<byte>) {
    s == [] ||
    var n := CharLen(s[0]);
    1 <= n <= |s| && CodePoint(s[..n]) && Valid(s[n..])
  }

  /** What is left of `s` once every complete sequence is taken off its front. */
  function Rest(s: seq<byte>): seq<byte> {
    if s == [] then []
    else
      var n := CharLen(s[0]);
      if 1 <= n <= |s| then Rest(s[n..]) else s
  }

  /** The bytes of a code point that has started and not finished. */
  predicate Unfinished(r: seq<byte>) {
    r == [] ||
    (|r| < CharLen(r[0]) && forall k :: 1 <= k < |r| ==> CharLen(r[k]) == 0)
  }

  lemma {:induction false} ValidConcat(a: seq<byte>, b: seq<byte>)
    requires Valid(a)
    ensures Valid(a + b) <==> Valid(b)
  {
    if a == [] {
      assert a + b == b;
    } else {
      var n := CharLen(a[0]);
      assert (a + b)[..n] == a[..n];
      assert (a + b)[n..] == a[n..] + b;
      ValidConcat(a[n..], b);
    }
  }

  lemma {:induction false} RestConcat(a: seq<byte>, b: seq<byte>)
    requires Valid(a)
    ensures Rest(a + b) == Rest(b)
  {
    if a == [] {
      assert a + b == b;
    } else {
      var n := CharLen(a[0]);
      assert (a + b)[n..] == a[n..] + b;
      RestConcat(a[n..], b);
    }
  }

  lemma {:induction false} RestOfValid(s: seq<byte>)
    requires Valid(s)
    ensures Rest(s) == []
  {
    RestConcat(s, []);
    assert s + [] == s;
  }

  /** The lead byte fixes the length, and the rest are continuation bytes. */
  lemma {:induction false} CodePointShape(s: seq<byte>)
    requires CodePoint(s)
    ensures |s| == CharLen(s[0])
    ensures forall k :: 1 <= k < |s| ==> CharLen(s[k]) == 0
  {
  }

  lemma {:induction false} ValidCons(c: seq<byte>, v: seq<byte>)
    requires CodePoint(c) && Valid(v)
    ensures Valid(c + v)
  {
    CodePointShape(c);
    assert (c + v)[..|c|] == c && (c + v)[|c|..] == v;
  }

  /** Valid text that is not empty starts with a code point; taking it off
      leaves valid text. */
  lemma {:induction false} ValidHead(w: seq<byte>) returns (n: nat)
    requires Valid(w) && w != []
    ensures n == CharLen(w[0]) && 1 <= n <= |w|
    ensures CodePoint(w[..n]) && Valid(w[n..])
    ensures forall k :: 1 <= k < n ==> CharLen(w[k]) == 0
  {
    n := CharLen(w[0]);
    CodePointShape(w[..n]);
    assert forall k :: 1 <= k < n ==> w[..n][k] == w[k];
  }

  /** Where `s` divides into whole code points and an unfinished one. */
  function Whole(s: seq<byte>): seq<byte> {
    if s == [] then []
    else
      var n := CharLen(s[0]);
      if 1 <= n <= |s| then s[..n] + Whole(s[n..]) else []
  }

  lemma {:induction false} WholeAndRest(s: seq<byte>)
    ensures s == Whole(s) + Rest(s)
  {
    if s != [] {
      var n := CharLen(s[0]);
      if 1 <= n <= |s| {
        WholeAndRest(s[n..]);
        assert s == s[..n] + s[n..];
      }
    }
  }

  lemma {:induction false} PrefixWhole(s: seq<byte>, t: seq<byte>)
    requires Valid(s + t)
    ensures Valid(Whole(s))
  {
    if s != [] {
      var w := s + t;
      var n := ValidHead(w);
      if n <= |s| {
        assert w[..n] == s[..n] && w[n..] == s[n..] + t;
        PrefixWhole(s[n..], t);
        ValidCons(s[..n], Whole(s[n..]));
      }
    }
  }

  lemma {:induction false} PrefixRest(s: seq<byte>, t: seq<byte>)
    requires Valid(s + t)
    ensures Unfinished(Rest(s)) && Valid(Rest(s) + t)
  {
    if s != [] {
      var w := s + t;
      var n := ValidHead(w);
      if n <= |s| {
        assert w[n..] == s[n..] + t;
        PrefixRest(s[n..], t);
      }
    }
  }

  /** Every prefix of valid text is whole code points followed by an
      unfinished one. */
  lemma {:induction false} PrefixSplit(s: seq<byte>, t: seq<byte>)
    requires Valid(s + t)
    ensures s == Whole(s) + Rest(s)
    ensures Valid(Whole(s)) && Unfinished(Rest(s))
    ensures Valid(Rest(s) + t)
  {
    WholeAndRest(s);
    PrefixWhole(s, t);
    PrefixRest(s, t);
  }

  /** One byte after an unfinished code point: it is a continuation byte
      exactly when something was unfinished, and either completes or extends it. */
  lemma {:induction false} UnfinishedSnoc(r: seq<byte>, c: byte, t: seq<byte>)
    requires Unfinished(r) && Valid(r + [c] + t)
    ensures CharLen(c) != 0 <==> r == []
    ensures Unfinished(r + [c]) || Valid(r + [c])
  {
    var w := r + [c] + t;
    var n := ValidHead(w);
    assert w[|r|] == c;
    if |r| + 1 == n {
      assert w[..n] == r + [c];
      ValidCons(r + [c], []);
      assert r + [c] + [] == r + [c];
    }
  }

  /** Feeding one more byte of valid text. */
  lemma {:induction false} RestSnoc(s: seq<byte>, c: byte, t: seq<byte>)
    requires Valid(s + [c] + t)
    ensures CharLen(c) != 0 <==> Rest(s) == []
    ensures Rest(s + [c]) == Rest(Rest(s) + [c])
    ensures Valid(Rest(s) + [c] + t)
  {
    var r := Rest(s);
    Associative(s, [c], t);
    PrefixSplit(s, [c] + t);
    Associative(Whole(s), r, [c]);
    RestConcat(Whole(s), r + [c]);
    Associative(r, [c], t);
    UnfinishedSnoc(r, c, t);
  }

  lemma {:induction false} Associative(a: seq<byte>, b: seq<byte>, c: seq<byte>)
    ensures a + b + c == a + (b + c)
  {
  }

  /** Valid text ends in a code point. */
  lemma {:induction false} LastCodePoint(v: seq<byte>) returns (n: nat)
    requires Valid(v) && v != []
    ensures 1 <= n <= 4 && n <= |v|
    ensures CharLen(v[|v| - n]) == n
    ensures forall k :: |v| - n < k < |v| ==> CharLen(v[k]) == 0
  {
    var m := CharLen(v[0]);
    if m == |v| {
      n := m;
      assert v[..m] == v;
    } else {
      n := LastCodePoint(v[m..]);
    }
  }
}
