/**
 Advisory lock keys: the FNV-1a 64-bit hash of a call signature, read as a signed integer.
 Machine words are integers below 2^64 and the wrapping multiplication is written out.
 */
module LockKey {

  const OFFSET: Word := 14_695_981_039_346_656_037

  type Word = x: int | 0 <= x < 0x1_0000_0000_0000_0000

  type Byte = x: int | 0 <= x < 256

  /** Bitwise exclusive-or of two naturals. */
  function Xor(a: nat, b: nat): nat {
    if a == 0 && b == 0 then 0 else 2 * Xor(a / 2, b / 2) + (a % 2 + b % 2) % 2
  }

  function Pow2(n: nat): nat {
    if n == 0 then 1 else 2 * Pow2(n - 1)
  }

  lemma {:induction false} Pow2Sum(m: nat, n: nat)
    ensures Pow2(m + n) == Pow2(m) * Pow2(n)
  {
    if m != 0 {
      Pow2Sum(m - 1, n);
    }
  }

  lemma WordBits()
    ensures Pow2(64) == 0x1_0000_0000_0000_0000
  {
    Pow2Sum(4, 4);
    Pow2Sum(8, 8);
    Pow2Sum(16, 16);
    Pow2Sum(32, 32);
    assert Pow2(4) == 16;
  }

  lemma {:induction false} XorBound(a: nat, b: nat, n: nat)
    requires a < Pow2(n) && b < Pow2(n)
    ensures Xor(a, b) < Pow2(n)
  {
    if n != 0 && !(a == 0 && b == 0) {
      XorBound(a / 2, b / 2, n - 1);
    }
  }

  /** Exclusive-or of a word and a zero-extended byte. */
  function XorByte(h: Word, b: Byte): Word {
    WordBits();
    XorBound(h, b, 64);
    Xor(h, b)
  }

  /** Wrapping multiplication by the FNV prime. */
  function MulPrime(x: Word): Word {
    x * 1_099_511_628_211 % 0x1_0000_0000_0000_0000
  }

  /** Wrapping multiplication by the inverse of the prime, which exists because the prime is odd. */
  function DivPrime(x: Word): Word {
    x * 0xce96_5057_aff6_957b % 0x1_0000_0000_0000_0000
  }

  function Fold(h: Word, bytes: seq<Byte>): Word
    decreases |bytes|
  {
    if bytes == [] then h else Fold(MulPrime(XorByte(h, bytes[0])), bytes[1..])
  }

  /** Two's complement reading of the 64-bit hash. */
  function AsSigned(h: Word): int {
    if h < 0x8000_0000_0000_0000 then h else h - 0x1_0000_0000_0000_0000
  }

  function AdvisoryLockKey(signature: seq<Byte>): int {
    AsSigned(Fold(OFFSET, signature))
  }

  /** Undoes Fold from the last byte back: divide by the prime, then exclusive-or again. */
  function Unfold(h: Word, bytes: seq<Byte>): Word {
    if bytes == [] then h else XorByte(DivPrime(Unfold(h, bytes[1..])), bytes[0])
  }

  lemma XorHalves(a: nat, b: nat)
    ensures Xor(a, b) / 2 == Xor(a / 2, b / 2) && Xor(a, b) % 2 == (a % 2 + b % 2) % 2
  {
  }

  lemma BitsDetermine(a: nat, b: nat, x: nat, y: nat)
    requires x % 2 == (a % 2 + b % 2) % 2 && y % 2 == (x % 2 + b % 2) % 2 && y / 2 == a / 2
    ensures y == a
  {
  }

  lemma {:induction false} XorTwice(a: nat, b: nat)
    ensures Xor(Xor(a, b), b) == a
    decreases a + b
  {
    if !(a == 0 && b == 0) {
      var x := Xor(a, b);
      XorTwice(a / 2, b / 2);
      XorHalves(a, b);
      XorHalves(x, b);
      BitsDetermine(a, b, x, Xor(x, b));
    }
  }

  lemma {:induction false} XorCommutes(a: nat, b: nat)
    ensures Xor(a, b) == Xor(b, a)
  {
    if !(a == 0 && b == 0) {
      XorCommutes(a / 2, b / 2);
    }
  }

  lemma ModOfSum(x: Word, n: int)
    ensures (x + n * 0x1_0000_0000_0000_0000) % 0x1_0000_0000_0000_0000 == x
  {
  }

  lemma PrimeCancels(x: Word)
    ensures DivPrime(MulPrime(x)) == x
    ensures MulPrime(DivPrime(x)) == x
  {
    var q := x * 1_099_511_628_211 / 0x1_0000_0000_0000_0000;
    var p := x * 0xce96_5057_aff6_957b / 0x1_0000_0000_0000_0000;
    ModOfSum(x, 887285111055 * x - 0xce96_5057_aff6_957b * q);
    ModOfSum(x, 887285111055 * x - 1_099_511_628_211 * p);
  }

  /** For every fixed suffix, hashing it is a bijection on the 64-bit states, with Unfold as its inverse. */
  lemma {:induction false} FoldIsBijection(h: Word, bytes: seq<Byte>)
    ensures Unfold(Fold(h, bytes), bytes) == h
    ensures Fold(Unfold(h, bytes), bytes) == h
    decreases |bytes|
  {
    if bytes != [] {
      var b, rest := bytes[0], bytes[1..];
      FoldIsBijection(MulPrime(XorByte(h, b)), rest);
      PrimeCancels(XorByte(h, b));
      XorTwice(h, b);
      FoldIsBijection(h, rest);
      XorTwice(DivPrime(Unfold(h, rest)), b);
      PrimeCancels(Unfold(h, rest));
    }
  }

  lemma {:induction false} FoldConcat(h: Word, a: seq<Byte>, b: seq<Byte>)
    ensures Fold(h, a + b) == Fold(Fold(h, a), b)
    decreases |a|
  {
    if a == [] {
      assert a + b == b;
    } else {
      assert (a + b)[1..] == a[1..] + b;
      FoldConcat(MulPrime(XorByte(h, a[0])), a[1..], b);
    }
  }

  /** Between a common prefix and a common suffix, one byte decides the key. */
  lemma SharedEndsCollideOnlyIfEqual(prefix: seq<Byte>, x: Byte, y: Byte, suffix: seq<Byte>)
    ensures AdvisoryLockKey(prefix + [x] + suffix) == AdvisoryLockKey(prefix + [y] + suffix) <==> x == y
  {
    var h := Fold(OFFSET, prefix);
    var hx, hy := Fold(h, [x] + suffix), Fold(h, [y] + suffix);
    assert prefix + [x] + suffix == prefix + ([x] + suffix);
    assert prefix + [y] + suffix == prefix + ([y] + suffix);
    FoldConcat(OFFSET, prefix, [x] + suffix);
    FoldConcat(OFFSET, prefix, [y] + suffix);
    if hx == hy {
      assert ([x] + suffix)[1..] == suffix == ([y] + suffix)[1..];
      var gx, gy := XorByte(h, x), XorByte(h, y);
      FoldIsBijection(MulPrime(gx), suffix);
      FoldIsBijection(MulPrime(gy), suffix);
      PrimeCancels(gx);
      PrimeCancels(gy);
      XorCommutes(h, x);
      XorCommutes(h, y);
      XorTwice(x, h);
      XorTwice(y, h);
    }
  }

  /** Two signatures of one length that differ in exactly one byte always get different lock keys. */
  lemma OneByteApart(a: seq<Byte>, b: seq<Byte>, i: nat)
    requires |a| == |b| && i < |a| && a[i] != b[i]
    requires forall k :: 0 <= k < |a| && k != i ==> a[k] == b[k]
    ensures AdvisoryLockKey(a) != AdvisoryLockKey(b)
  {
    assert a == a[..i] + [a[i]] + a[i + 1..];
    assert b == a[..i] + [b[i]] + a[i + 1..];
    SharedEndsCollideOnlyIfEqual(a[..i], a[i], b[i], a[i + 1..]);
  }
}
