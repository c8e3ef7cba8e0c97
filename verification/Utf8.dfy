/** UTF-8 (section 3 of RFC 3629): the encoding is injective and its byte order is the code point order. */
module Utf8 {
  import opened Text

  type Byte = x: int | 0 <= x < 256

  function EncodeChar(c: char): (b: seq<Byte>)
    ensures 1 <= |b| <= 4
  {
    var code := c as int;
    if code < 0x80 then [code]
    else if code < 0x800 then [0xC0 + code / 64, 0x80 + code % 64]
    else if code < 0x10000 then [0xE0 + code / 64 / 64, 0x80 + code / 64 % 64, 0x80 + code % 64]
    else [0xF0 + code / 64 / 64 / 64, 0x80 + code / 64 / 64 % 64, 0x80 + code / 64 % 64, 0x80 + code % 64]
  }

  function Encode(s: string): seq<Byte> {
    if s == [] then [] else EncodeChar(s[0]) + Encode(s[1..])
  }

  /** The low bits of a lead or continuation byte. */
  function Bits(b: Byte, marker: int): int {
    b - marker
  }

  /** The code point and length of the character a byte sequence starts with, read off its lead byte. */
  function LeadCode(b: seq<Byte>): (int, nat) {
    if |b| >= 1 && b[0] < 0x80 then (b[0], 1)
    else if |b| >= 2 && 0xC0 <= b[0] < 0xE0 then (Bits(b[0], 0xC0) * 64 + Bits(b[1], 0x80), 2)
    else if |b| >= 3 && 0xE0 <= b[0] < 0xF0 then
      ((Bits(b[0], 0xE0) * 64 + Bits(b[1], 0x80)) * 64 + Bits(b[2], 0x80), 3)
    else if |b| >= 4 && 0xF0 <= b[0] then
      (((Bits(b[0], 0xF0) * 64 + Bits(b[1], 0x80)) * 64 + Bits(b[2], 0x80)) * 64 + Bits(b[3], 0x80), 4)
    else (-1, 0)
  }

  lemma LeadCodeOfChar(c: char, rest: seq<Byte>)
    ensures LeadCode(EncodeChar(c) + rest) == (c as int, |EncodeChar(c)|)
  {
  }

  lemma {:induction false} EncodeIsInjective(a: string, b: string)
    requires Encode(a) == Encode(b)
    ensures a == b
    decreases |a|
  {
    if a != [] && b != [] {
      LeadCodeOfChar(a[0], Encode(a[1..]));
      LeadCodeOfChar(b[0], Encode(b[1..]));
      assert a[0] as int == b[0] as int;
      var n := |EncodeChar(a[0])|;
      assert Encode(a)[n..] == Encode(a[1..]);
      assert Encode(b)[n..] == Encode(b[1..]);
      EncodeIsInjective(a[1..], b[1..]);
      assert a == [a[0]] + a[1..] && b == [b[0]] + b[1..];
    }
  }

  /** Lexicographic order of byte sequences. */
  predicate BytesLe(a: seq<Byte>, b: seq<Byte>) {
    a == [] || (b != [] && (a[0] < b[0] || (a[0] == b[0] && BytesLe(a[1..], b[1..]))))
  }

  lemma {:induction false} CommonPrefixLe(p: seq<Byte>, x: seq<Byte>, y: seq<Byte>)
    ensures BytesLe(p + x, p + y) <==> BytesLe(x, y)
    decreases |p|
  {
    if p == [] {
      assert p + x == x && p + y == y;
    } else {
      assert (p + x)[1..] == p[1..] + x && (p + y)[1..] == p[1..] + y;
      CommonPrefixLe(p[1..], x, y);
    }
  }

  /** Sequences that first differ at position i are ordered by that position. */
  lemma {:induction false} FirstDifferenceDecides(a: seq<Byte>, b: seq<Byte>, i: nat)
    requires i < |a| && i < |b| && a[i] < b[i] && a[..i] == b[..i]
    ensures BytesLe(a, b) && !BytesLe(b, a)
    decreases i
  {
    if i > 0 {
      assert a[0] == a[..i][0] && b[0] == b[..i][0];
      assert a[1..][..i - 1] == a[..i][1..] && b[1..][..i - 1] == b[..i][1..];
      FirstDifferenceDecides(a[1..], b[1..], i - 1);
    }
  }

  lemma HighBitsDecide(x: nat, y: nat)
    requires x < y
    ensures x / 64 < y / 64 || (x / 64 == y / 64 && x % 64 < y % 64)
  {
  }

  /** Characters of one encoded length differ first where their groups of six bits do. */
  lemma SameLengthDiffer(c: char, d: char) returns (i: nat)
    requires c < d && |EncodeChar(c)| == |EncodeChar(d)|
    ensures i < |EncodeChar(c)| && EncodeChar(c)[i] < EncodeChar(d)[i] && forall k :: 0 <= k < i ==> EncodeChar(c)[k] == EncodeChar(d)[k]
  {
    var x, y, n := c as int, d as int, |EncodeChar(c)|;
    i := n - 1;
    HighBitsDecide(x, y);
    if n > 1 && x / 64 != y / 64 {
      i := n - 2;
      HighBitsDecide(x / 64, y / 64);
      if n > 2 && x / 64 / 64 != y / 64 / 64 {
        i := n - 3;
        HighBitsDecide(x / 64 / 64, y / 64 / 64);
        if n > 3 && x / 64 / 64 / 64 != y / 64 / 64 / 64 {
          i := n - 4;
        }
      }
    }
  }

  lemma ShorterIsSmaller(c: char, d: char)
    requires c < d && |EncodeChar(c)| != |EncodeChar(d)|
    ensures EncodeChar(c)[0] < EncodeChar(d)[0]
  {
  }

  lemma CharsDiffer(c: char, d: char) returns (i: nat)
    requires c < d
    ensures i < |EncodeChar(c)| && i < |EncodeChar(d)|
    ensures EncodeChar(c)[..i] == EncodeChar(d)[..i] && EncodeChar(c)[i] < EncodeChar(d)[i]
  {
    i := 0;
    if |EncodeChar(c)| == |EncodeChar(d)| {
      i := SameLengthDiffer(c, d);
    } else {
      ShorterIsSmaller(c, d);
    }
  }

  /** Sorting strings by their UTF-8 bytes is sorting them by code point. */
  lemma {:induction false} ByteOrderIsCodePointOrder(a: string, b: string)
    ensures BytesLe(Encode(a), Encode(b)) <==> StrLe(a, b)
    decreases |a|
  {
    if a != [] && b != [] {
      if a[0] == b[0] {
        CommonPrefixLe(EncodeChar(a[0]), Encode(a[1..]), Encode(b[1..]));
        ByteOrderIsCodePointOrder(a[1..], b[1..]);
      } else if a[0] < b[0] {
        var i := CharsDiffer(a[0], b[0]);
        assert Encode(a)[..i] == EncodeChar(a[0])[..i] && Encode(b)[..i] == EncodeChar(b[0])[..i];
        FirstDifferenceDecides(Encode(a), Encode(b), i);
      } else {
        var i := CharsDiffer(b[0], a[0]);
        assert Encode(a)[..i] == EncodeChar(a[0])[..i] && Encode(b)[..i] == EncodeChar(b[0])[..i];
        FirstDifferenceDecides(Encode(b), Encode(a), i);
      }
    }
  }
}
