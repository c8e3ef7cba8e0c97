/**
 Doubles and the digits chosen for them. A double is a significand below 2^53 times a power of two; its
 digits are the fewest that round to it and, among those, the nearest to it. They need not denote it:
 from 2^55 on an integer that is a double may be printed with other digits than the double itself.
 */
module DoubleValue {
  import opened Text
  import opened NumberText
  import opened NumberIdentity

  const TWO53: int := 9007199254740992
  const TWO55: int := 36028797018963968

  // ── Doubles ───────────────────────────────────────────────────────────────

  /** x times two to the power e. */
  ghost function Scale(x: real, e: int): real
    decreases if e < 0 then -e else e
  {
    if e == 0 then x else if e > 0 then 2.0 * Scale(x, e - 1) else Scale(x, e + 1) / 2.0
  }

  ghost predicate IsScaled(x: real, m: nat, e: int) {
    m < TWO53 && -1074 <= e <= 971 && x == Scale(m as real, e)
  }

  /** A finite double of IEEE 754, without its sign. */
  ghost predicate IsDouble(x: real) {
    exists m, e :: IsScaled(x, m, e)
  }

  ghost function Dist(x: real, y: real): real {
    if x < y then y - x else x - y
  }

  /** No double is nearer to y. */
  ghost predicate Nearest(y: real, x: real) {
    IsDouble(x) && forall z :: IsDouble(z) ==> Dist(x, y) <= Dist(z, y)
  }

  /** Every other double is farther from y. */
  ghost predicate OnlyNearest(y: real, x: real) {
    IsDouble(x) && forall z :: IsDouble(z) && z != x ==> Dist(x, y) < Dist(z, y)
  }

  ghost predicate InRange(y: real) {
    exists z :: IsDouble(z) && y <= z
  }

  /** `rounds` says which decimal numbers are read as which double, and `digits` is what is printed for a positive one. */
  datatype Format = Format(rounds: (real, real) -> bool, digits: real -> (string, int))

  /** Reading rounds to a nearest double; how ties are broken is left open. */
  ghost predicate RoundsToNearest(p: Format) {
    && (forall y, x :: p.rounds(y, x) ==> Nearest(y, x))
    && (forall y, x :: OnlyNearest(y, x) && InRange(y) ==> p.rounds(y, x))
    && (forall y, x, z :: p.rounds(y, x) && p.rounds(y, z) ==> x == z)
  }

  /** The digits are read back as the double; none that are have fewer digits, or as many and are nearer. */
  ghost predicate IsShortest(p: Format, x: real) {
    var (d, n) := p.digits(x);
    && ValidDigits(d) && p.rounds(Abs(d, n), x)
    && forall e, m :: IsDecimal(e) && p.rounds(Abs(e, m), x) ==>
         |d| <= |e| && (|e| == |d| ==> Dist(Abs(d, n), x) <= Dist(Abs(e, m), x))
  }

  ghost predicate PrintsShortest(p: Format) {
    RoundsToNearest(p) && forall x :: IsDouble(x) && x > 0.0 ==> IsShortest(p, x)
  }

  /** The text of a double with its sign; both zeros print as 0. */
  ghost function FloatOf(p: Format, neg: bool, x: real): Float {
    if x == 0.0 then Zero(neg) else Finite(neg, p.digits(x).0, p.digits(x).1)
  }

  lemma FloatIsValid(p: Format, neg: bool, x: real)
    requires PrintsShortest(p) && IsDouble(x) && x >= 0.0
    ensures Valid(FloatOf(p, neg, x)) && Printable(Floating(FloatOf(p, neg, x)))
  {
    if x > 0.0 {
      assert IsShortest(p, x);
    }
  }

  ghost function DoubleText(p: Format, neg: bool, x: real): string
    requires PrintsShortest(p) && IsDouble(x) && x >= 0.0
  {
    FloatIsValid(p, neg, x);
    TextOf(Floating(FloatOf(p, neg, x)))
  }

  // ── Which numbers are doubles ─────────────────────────────────────────────

  lemma ScaledIsDouble(x: real, m: nat, e: int)
    requires IsScaled(x, m, e)
    ensures IsDouble(x)
  {
  }

  lemma SmallIsDouble(k: nat)
    requires k <= TWO53
    ensures IsDouble(k as real)
  {
    if k < TWO53 {
      assert IsScaled(k as real, k, 0);
    } else {
      assert Scale(4503599627370496.0, 1) == 9007199254740992.0;
      assert IsScaled(k as real, 4503599627370496, 1);
    }
  }

  lemma {:induction false} ScaleIsWhole(m: nat, e: nat) returns (q: nat)
    ensures Scale(m as real, e) == q as real
    decreases e
  {
    if e == 0 {
      q := m;
    } else {
      var h := ScaleIsWhole(m, e - 1);
      q := 2 * h;
    }
  }

  lemma {:induction false} ScaleGrows(x: real, d: int, e: int)
    requires x >= 0.0 && d <= e
    ensures 0.0 <= Scale(x, d) <= Scale(x, e)
    decreases e - d
  {
    if d < e {
      ScaleGrows(x, d, e - 1);
      ScaleStep(x, e - 1);
    } else {
      ScaleKeepsSign(x, d);
    }
  }

  lemma {:induction false} ScaleStep(x: real, e: int)
    ensures Scale(x, e + 1) == 2.0 * Scale(x, e)
  {
  }

  lemma {:induction false} ScaleKeepsSign(x: real, e: int)
    requires x >= 0.0
    ensures Scale(x, e) >= 0.0
    decreases if e < 0 then -e else e
  {
    if e > 0 {
      ScaleKeepsSign(x, e - 1);
    } else if e < 0 {
      ScaleKeepsSign(x, e + 1);
    }
  }

  // ── Rounding ──────────────────────────────────────────────────────────────

  lemma DoubleRoundsToItself(p: Format, x: real)
    requires RoundsToNearest(p) && IsDouble(x)
    ensures p.rounds(x, x)
  {
    assert OnlyNearest(x, x);
    assert InRange(x);
  }

  /** A double that is nearer excludes rounding. */
  lemma NotFarther(p: Format, y: real, x: real, z: real)
    requires RoundsToNearest(p) && p.rounds(y, x) && IsDouble(z)
    ensures Dist(x, y) <= Dist(z, y)
  {
    assert Nearest(y, x);
  }

  // ── Doubles among themselves ──────────────────────────────────────────────

  /** Two doubles print alike exactly if they are the same number. */
  lemma DoublesPrintAlikeIff(p: Format, neg: bool, x: real, neg2: bool, z: real)
    requires PrintsShortest(p) && IsDouble(x) && x >= 0.0 && IsDouble(z) && z >= 0.0
    ensures DoubleText(p, neg, x) == DoubleText(p, neg2, z) <==> Signed(neg, x) == Signed(neg2, z)
  {
    FloatIsValid(p, neg, x);
    FloatIsValid(p, neg2, z);
    var f, g := FloatOf(p, neg, x), FloatOf(p, neg2, z);
    if x == 0.0 {
      ZeroAlikeIff(Floating(g));
      NotZero(p, neg2, z);
    } else if z == 0.0 {
      ZeroAlikeIff(Floating(f));
      NotZero(p, neg, x);
    } else if DoubleText(p, neg, x) == DoubleText(p, neg2, z) {
      SameFloatText(f, g);
      SameDigitsSameDouble(p, x, z);
    }
  }

  lemma NotZero(p: Format, neg: bool, x: real)
    requires PrintsShortest(p) && IsDouble(x) && x >= 0.0 && Printable(Floating(FloatOf(p, neg, x)))
    ensures Denoted(Floating(FloatOf(p, neg, x))) == 0.0 <==> x == 0.0
  {
    if x > 0.0 {
      assert IsShortest(p, x);
      AbsPositive(p.digits(x).0, p.digits(x).1);
    }
  }

  lemma SameDigitsSameDouble(p: Format, x: real, z: real)
    requires PrintsShortest(p) && IsDouble(x) && x > 0.0 && IsDouble(z) && z > 0.0 && p.digits(x) == p.digits(z)
    ensures x == z
  {
    assert IsShortest(p, x) && IsShortest(p, z);
  }

  // ── Integers and doubles ──────────────────────────────────────────────────

  /** What the digits of a double denote. */
  ghost function DenotedBy(p: Format, neg: bool, x: real): real
    requires PrintsShortest(p) && IsDouble(x) && x >= 0.0
  {
    FloatIsValid(p, neg, x);
    Denoted(Floating(FloatOf(p, neg, x)))
  }

  /** An integer and a double print alike exactly if the double's digits denote the integer, below 1e21. */
  lemma IntegerPrintsLikeDoubleIff(p: Format, k: int, neg: bool, x: real)
    requires PrintsShortest(p) && IsDouble(x) && x >= 0.0
    ensures DoubleText(p, neg, x) == IntText(k) <==> DenotedBy(p, neg, x) == k as real && Below(k as real, Pow10(21))
  {
    FloatIsValid(p, neg, x);
    NumbersPrintAlikeIff(Floating(FloatOf(p, neg, x)), Whole(k));
  }

  /** The digits of a positive integer without its trailing zeros. */
  function Significant(m: nat): string {
    NatTextRoundTrip(m);
    Stripped(NatText(m))
  }

  lemma {:induction false} StrippedIs(s: string)
    requires s != [] && AllDigits(s) && s[0] != '0'
    ensures IsDecimal(Stripped(s)) && s == Stripped(s) + Zeros(|s| - |Stripped(s)|)
    decreases |s|
  {
    var k := |s| - 1;
    if s[k] == '0' {
      assert k > 0 && s[..k][0] == s[0];
      StrippedIs(s[..k]);
      ZerosSnoc(k - |Stripped(s[..k])|);
      assert s == s[..k] + "0";
    } else {
      assert Zeros(0) == [] && s + [] == s;
    }
  }

  lemma {:induction false} ZerosSnoc(n: nat)
    ensures Zeros(n) + "0" == Zeros(n + 1)
  {
    assert forall i :: 0 <= i < n + 1 ==> (Zeros(n) + "0")[i] == '0';
  }

  /** The significant digits of an integer denote it. */
  lemma SignificantIs(m: nat)
    requires m > 0
    ensures IsDecimal(Significant(m)) && |Significant(m)| <= |NatText(m)| && Abs(Significant(m), |NatText(m)|) == m as real
  {
    NatTextRoundTrip(m);
    StrippedIs(NatText(m));
    PlainValue(Significant(m), |NatText(m)|);
  }

  /** Digits that denote one number are the same digits. */
  lemma SameNumberSameDigits(d: string, n: int, e: string, m: int)
    requires IsDecimal(d) && IsDecimal(e) && Abs(d, n) == Abs(e, m)
    ensures d == e && n == m
  {
    SamePoint(d, n, e, m);
    if |d| <= |e| {
      SameMagnitude(d, e, n);
    } else {
      SameMagnitude(e, d, n);
    }
  }

  /** No decimal with fewer digits than the integer's own is read as the double. */
  ghost predicate NoneShorter(p: Format, m: nat, x: real) {
    forall e, n :: IsDecimal(e) && p.rounds(Abs(e, n), x) ==> |Significant(m)| <= |e|
  }

  /** The exact digits are chosen exactly if none shorter would do. */
  lemma ExactDigitsIff(p: Format, m: nat, x: real)
    requires PrintsShortest(p) && IsDouble(x) && m > 0 && x == m as real
    ensures Abs(p.digits(x).0, p.digits(x).1) == x <==> NoneShorter(p, m, x)
  {
    var (d, n) := p.digits(x);
    assert IsShortest(p, x);
    SignificantIs(m);
    DoubleRoundsToItself(p, x);
    if Abs(d, n) == x {
      SameNumberSameDigits(d, n, Significant(m), |NatText(m)|);
    }
    if NoneShorter(p, m, x) {
      assert Abs(Significant(m), |NatText(m)|) == x;
    }
  }

  lemma SignedMatches(neg: bool, x: real, k: int)
    requires x > 0.0 && Signed(neg, x) == k as real
    ensures k != 0 && neg == (k < 0) && x == (if k < 0 then -k else k) as real
  {
  }

  /**
   An integer and a double that are equal print alike exactly if they are below 1e21 and no decimal with
   fewer significant digits than the integer is read as the double.
   */
  lemma EqualPrintAlikeIff(p: Format, k: int, neg: bool, x: real)
    requires PrintsShortest(p) && IsDouble(x) && x > 0.0 && Signed(neg, x) == k as real
    ensures DoubleText(p, neg, x) == IntText(k) <==>
            Below(k as real, Pow10(21)) && NoneShorter(p, if k < 0 then -k else k, x)
  {
    SignedMatches(neg, x, k);
    IntegerPrintsLikeDoubleIff(p, k, neg, x);
    ExactDigitsIff(p, if k < 0 then -k else k, x);
    assert IsShortest(p, x);
  }

  // ── Up to 2^53 ────────────────────────────────────────────────────────────

  lemma TensAreWhole(j: nat)
    ensures Pow10(j) == TimesTen(1, j) as real
  {
    ShiftUp(1, j);
  }

  /** The text of a positive integer has as many digits as its decade. */
  lemma LengthBounds(m: nat)
    requires m > 0
    ensures Pow10(|NatText(m)| - 1) <= m as real < Pow10(|NatText(m)|)
  {
    NatTextRoundTrip(m);
    var p := DigitsBound(NatText(m));
  }

  /** A fraction below an integer, with fewer digits than it, is not read as it. */
  lemma FractionIsFar(p: Format, m: nat, e: string, n: int)
    requires RoundsToNearest(p) && 0 < m <= TWO53 && IsDecimal(e) && n < |e| < |NatText(m)|
    ensures !p.rounds(Abs(e, n), m as real)
  {
    var j := |e| - 1;
    AbsBounds(e, n);
    Pow10Monotone(n, j);
    LengthBounds(m);
    Pow10Monotone(j + 1, |NatText(m)| - 1);
    Pow10Step(j);
    Pow10Positive(j);
    TensAreWhole(j);
    SmallIsDouble(TimesTen(1, j));
    if p.rounds(Abs(e, n), m as real) {
      NotFarther(p, Abs(e, n), m as real, Pow10(j));
    }
  }

  lemma WholeIs(e: string, n: int) returns (q: nat)
    requires IsDecimal(e) && |e| <= n
    ensures q == TimesTen(NatValue(e), n - |e|) && Abs(e, n) == q as real
  {
    q := TimesTen(NatValue(e), n - |e|);
    ShiftUp(NatValue(e), n - |e|);
  }

  /** Beyond 2^53, only 2^53 + 1 could be read as an integer up to 2^53, and it has too many digits. */
  lemma BeyondIsFar(p: Format, m: nat, e: string, n: int)
    requires RoundsToNearest(p) && 0 < m <= TWO53 && IsDecimal(e) && |e| <= n && p.rounds(Abs(e, n), m as real)
    requires Abs(e, n) > TWO53 as real
    ensures |e| >= 16
  {
    var q := WholeIs(e, n);
    assert n > |e| ==> q == 10 * TimesTen(NatValue(e), n - |e| - 1);
    SmallIsDouble(TWO53);
    NotFarther(p, q as real, m as real, TWO53 as real);
    assert Scale(4503599627370497.0, 1) == 9007199254740994.0;
    ScaledIsDouble(9007199254740994.0, 4503599627370497, 1);
    NotFarther(p, q as real, m as real, 9007199254740994.0);
    assert q == TWO53 + 1;
    var b := DigitsBound(e);
    FifteenDigits(|e|);
  }

  lemma FourTens(e: nat)
    ensures Pow10(e + 4) == 10000.0 * Pow10(e)
  {
    Pow10Step(e);
    Pow10Step(e + 1);
    Pow10Step(e + 2);
    Pow10Step(e + 3);
  }

  lemma FifteenDigits(j: nat)
    ensures j <= 15 ==> Pow10(j) <= 1000000000000000.0
    ensures Pow10(16) == 10000000000000000.0
  {
    assert Pow10(0) == 1.0;
    FourTens(0);
    FourTens(4);
    FourTens(8);
    FourTens(12);
    Pow10Step(15);
    if j <= 15 {
      Pow10Monotone(j, 15);
    }
  }

  lemma SixteenAtMost(m: nat)
    requires 0 < m <= TWO53
    ensures |NatText(m)| <= 16
  {
    LengthBounds(m);
    FifteenDigits(0);
    if |NatText(m)| > 16 {
      Pow10Monotone(16, |NatText(m)| - 1);
    }
  }

  lemma SmallHasNoneShorter(p: Format, m: nat, e: string, n: int)
    requires RoundsToNearest(p) && 0 < m <= TWO53 && IsDecimal(e) && p.rounds(Abs(e, n), m as real)
    ensures |Significant(m)| <= |e|
  {
    SignificantIs(m);
    if |e| < |Significant(m)| {
      if n < |e| {
        FractionIsFar(p, m, e, n);
      } else if Abs(e, n) > TWO53 as real {
        BeyondIsFar(p, m, e, n);
        SixteenAtMost(m);
      } else {
        var q := WholeIs(e, n);
        SmallIsDouble(q);
        DoubleRoundsToItself(p, q as real);
        SameNumberSameDigits(e, n, Significant(m), |NatText(m)|);
      }
    }
  }

  lemma SmallBelow(m: int)
    requires -TWO53 <= m <= TWO53
    ensures Below(m as real, Pow10(21))
  {
    FifteenDigits(0);
    Pow10Monotone(16, 21);
  }

  /** Up to 2^53 in magnitude, an integer and a double print alike exactly if they are equal. */
  lemma SmallPrintAlikeIff(p: Format, k: int, neg: bool, x: real)
    requires PrintsShortest(p) && IsDouble(x) && x >= 0.0 && -TWO53 <= k <= TWO53
    ensures DoubleText(p, neg, x) == IntText(k) <==> Signed(neg, x) == k as real
  {
    IntegerPrintsLikeDoubleIff(p, k, neg, x);
    SmallBelow(k);
    FloatIsValid(p, neg, x);
    NotZero(p, neg, x);
    if x > 0.0 {
      assert IsShortest(p, x);
      var m: nat := if k < 0 then -k else k;
      if DenotedBy(p, neg, x) == k as real {
        SmallIsDouble(m);
        DoubleRoundsToItself(p, m as real);
        AbsPositive(p.digits(x).0, p.digits(x).1);
        SignedMatches(neg, Abs(p.digits(x).0, p.digits(x).1), k);
      }
      if Signed(neg, x) == k as real {
        SignedMatches(neg, x, k);
        forall e, n | IsDecimal(e) && p.rounds(Abs(e, n), x)
          ensures |Significant(m)| <= |e|
        {
          SmallHasNoneShorter(p, m, e, n);
        }
        EqualPrintAlikeIff(p, k, neg, x);
      }
    }
  }

  // ── 2^55 ──────────────────────────────────────────────────────────────────

  /** The doubles next to 2^55 are four below and eight above. */
  lemma DoublesAround(z: real)
    requires IsDouble(z)
    ensures z == 36028797018963968.0 || z <= 36028797018963964.0 || z >= 36028797018963976.0
  {
    var m, e :| IsScaled(z, m, e);
    if e >= 3 {
      var q := ScaleIsWhole(m, e - 3);
      ScaleStep(m as real, e - 3);
      ScaleStep(m as real, e - 2);
      ScaleStep(m as real, e - 1);
      assert z == (8 * q) as real;
    } else {
      ScaleGrows(m as real, e, 2);
      assert Scale(m as real, 2) == 4.0 * (m as real);
    }
  }

  lemma NeighboursAreDoubles()
    ensures IsDouble(36028797018963968.0) && IsDouble(36028797018963964.0) && IsDouble(36028797018963976.0)
  {
    assert Scale(4503599627370496.0, 3) == 36028797018963968.0 by {
      ScaleThree(4503599627370496.0);
    }
    ScaledIsDouble(36028797018963968.0, 4503599627370496, 3);
    assert Scale(9007199254740991.0, 2) == 36028797018963964.0;
    ScaledIsDouble(36028797018963964.0, 9007199254740991, 2);
    assert Scale(4503599627370497.0, 3) == 36028797018963976.0 by {
      ScaleThree(4503599627370497.0);
    }
    ScaledIsDouble(36028797018963976.0, 4503599627370497, 3);
  }

  lemma ScaleThree(x: real)
    ensures Scale(x, 3) == 8.0 * x
  {
    ScaleStep(x, 0);
    ScaleStep(x, 1);
    ScaleStep(x, 2);
  }

  lemma {:induction false} LastDigitOf(v: nat)
    requires v > 0 && v % 10 != 0
    ensures IsDecimal(NatText(v)) && NatValue(NatText(v)) == v
  {
    NatTextRoundTrip(v);
    var d := NatText(v);
    assert d[|d| - 1] == DigitChar(v % 10);
  }

  lemma SixteenLong(v: nat)
    requires 1000000000000000 <= v < 10000000000000000
    ensures |NatText(v)| == 16
  {
    var j := |NatText(v)|;
    LengthBounds(v);
    FifteenDigits(j);
    if j > 16 {
      Pow10Monotone(16, j - 1);
    }
  }

  lemma SixteenDigits(v: nat)
    requires 1000000000000000 <= v < 10000000000000000 && v % 10 != 0
    ensures IsDecimal(NatText(v)) && |NatText(v)| == 16 && Abs(NatText(v), 17) == (10 * v) as real
  {
    LastDigitOf(v);
    SixteenLong(v);
    var q := WholeIs(NatText(v), 17);
    assert TimesTen(v, 1) == 10 * TimesTen(v, 0);
  }

  lemma NearestIsTwo55(p: Format)
    requires RoundsToNearest(p)
    ensures p.rounds(36028797018963970.0, 36028797018963968.0)
  {
    NeighboursAreDoubles();
    var x, y := 36028797018963968.0, 36028797018963970.0;
    forall z | IsDouble(z) && z != x
      ensures Dist(x, y) < Dist(z, y)
    {
      DoublesAround(z);
    }
    assert OnlyNearest(y, x);
    assert InRange(y);
  }

  /** What is read as 2^55 lies no more than half way to its neighbours. */
  lemma ReadAsTwo55(p: Format, y: real)
    requires RoundsToNearest(p) && p.rounds(y, 36028797018963968.0)
    ensures 36028797018963966.0 <= y <= 36028797018963972.0
  {
    NeighboursAreDoubles();
    NotFarther(p, y, 36028797018963968.0, 36028797018963964.0);
    NotFarther(p, y, 36028797018963968.0, 36028797018963976.0);
  }

  lemma MultipleOfTen(q: nat, r: nat)
    requires q == 10 * r && 36028797018963966 <= q <= 36028797018963972
    ensures q == 36028797018963970
  {
  }

  /** Up to sixteen digits, only 36028797018963970 is read as 2^55. */
  lemma SixteenDigitsDenote(p: Format, e: string, n: int)
    requires RoundsToNearest(p) && IsDecimal(e) && |e| <= 16 && p.rounds(Abs(e, n), 36028797018963968.0)
    ensures Abs(e, n) == 36028797018963970.0
  {
    ReadAsTwo55(p, Abs(e, n));
    PointIsSeventeen(e, n);
    SeventeenLong(e);
  }

  lemma SeventeenLong(e: string)
    requires IsDecimal(e) && |e| <= 16 && 36028797018963966.0 <= Abs(e, 17) <= 36028797018963972.0
    ensures Abs(e, 17) == 36028797018963970.0
  {
    var q := WholeIs(e, 17);
    var r := TimesTen(NatValue(e), 17 - |e| - 1);
    assert q == 10 * r;
    MultipleOfTen(q, r);
  }

  lemma PointIsSeventeen(e: string, n: int)
    requires IsDecimal(e) && 36028797018963966.0 <= Abs(e, n) <= 36028797018963972.0
    ensures n == 17
  {
    AbsBounds(e, n);
    FifteenDigits(0);
    Pow10Step(16);
    if n < 17 {
      Pow10Monotone(n, 16);
    } else if n > 17 {
      Pow10Monotone(17, n - 1);
    }
  }

  lemma DigitsOfTwo55(p: Format)
    requires PrintsShortest(p)
    ensures IsDouble(36028797018963968.0)
    ensures p.digits(36028797018963968.0) == (NatText(3602879701896397), 17)
  {
    NeighboursAreDoubles();
    var x := 36028797018963968.0;
    var (d, n) := p.digits(x);
    assert IsShortest(p, x);
    SixteenDigits(3602879701896397);
    NearestIsTwo55(p);
    SixteenDigitsDenote(p, d, n);
    SameNumberSameDigits(d, n, NatText(3602879701896397), 17);
  }

  /** The double 2^55 and the integer 2^55 are equal and print differently; an integer greater by two prints like the double. */
  lemma Two55PrintsOtherwise(p: Format)
    requires PrintsShortest(p)
    ensures IsDouble(36028797018963968.0) && Signed(false, 36028797018963968.0) == TWO55 as real
    ensures DoubleText(p, false, 36028797018963968.0) != IntText(TWO55)
    ensures DoubleText(p, false, 36028797018963968.0) == IntText(36028797018963970)
  {
    DigitsOfTwo55(p);
    SixteenDigits(3602879701896397);
    var x := 36028797018963968.0;
    FloatIsValid(p, false, x);
    IntegerPrintsLikeDoubleIff(p, TWO55, false, x);
    IntegerPrintsLikeDoubleIff(p, 36028797018963970, false, x);
    FifteenDigits(0);
    Pow10Step(16);
    Pow10Monotone(17, 21);
  }

  // ── The choice of notation ────────────────────────────────────────────────

  lemma SixteenTimes(x: real, e: int)
    ensures Scale(x, e + 4) == 16.0 * Scale(x, e)
  {
    ScaleStep(x, e);
    ScaleStep(x, e + 1);
    ScaleStep(x, e + 2);
    ScaleStep(x, e + 3);
  }

  /** A double just below 1e-6. */
  lemma TwoToMinus20()
    ensures IsDouble(1.0 / 1048576.0)
  {
    SixteenTimes(1.0, -20);
    SixteenTimes(1.0, -16);
    SixteenTimes(1.0, -12);
    SixteenTimes(1.0, -8);
    SixteenTimes(1.0, -4);
    assert Scale(1.0, 0) == 1.0;
    ScaledIsDouble(1.0 / 1048576.0, 1, -20);
  }

  lemma TenToMinus6()
    ensures Pow10(-6) == 1.0 / 1000000.0 && Pow10(-7) == 1.0 / 10000000.0
  {
    Pow10Step(-7);
    Pow10Step(-6);
    Pow10Step(-5);
    Pow10Step(-4);
    Pow10Step(-3);
    Pow10Step(-2);
    Pow10Step(-1);
    assert Pow10(0) == 1.0;
  }

  lemma TenTo21()
    ensures Pow10(21) == 1000000000000000000000.0 && IsDouble(Pow10(21))
  {
    FifteenDigits(0);
    FourTens(16);
    Pow10Step(20);
    var x := 476837158203125.0;
    SixteenTimes(x, 0);
    SixteenTimes(x, 4);
    SixteenTimes(x, 8);
    SixteenTimes(x, 12);
    SixteenTimes(x, 16);
    ScaleStep(x, 20);
    assert Scale(x, 0) == x;
    ScaledIsDouble(Pow10(21), 476837158203125, 21);
  }

  /** Rounding to nearest keeps the order. */
  lemma RoundingIsMonotone(p: Format, y: real, x: real, t: real, c: real)
    requires RoundsToNearest(p) && p.rounds(y, x) && p.rounds(t, c)
    ensures x < c ==> y < t
  {
    if x < c {
      assert Nearest(y, x) && Nearest(t, c);
      NotFarther(p, y, x, c);
      NotFarther(p, t, c, x);
    }
  }

  /** The digits of a double that one digit denotes, or is read as, are one digit. */
  lemma OneDigitIsEnough(p: Format, x: real, n: int)
    requires PrintsShortest(p) && IsDouble(x) && x > 0.0 && p.rounds(Pow10(n - 1), x)
    ensures |p.digits(x).0| == 1 && Dist(Abs(p.digits(x).0, p.digits(x).1), x) <= Dist(Pow10(n - 1), x)
  {
    assert IsShortest(p, x);
    OneIsDecimal(n);
  }

  lemma {:induction false} OneIsDecimal(n: int)
    ensures IsDecimal("1") && Abs("1", n) == Pow10(n - 1)
  {
    assert NatValue("1") == 1;
  }

  lemma {:induction false} OneDigitBound(d: string, n: int)
    requires IsDecimal(d) && |d| == 1 && Abs(d, n) < Pow10(-6)
    ensures Abs(d, n) <= 9.0 * Pow10(-7)
  {
    AbsBounds(d, n);
    if n > -6 {
      Pow10Monotone(-6, n - 1);
    }
    assert NatValue(d) <= 9;
    Pow10Monotone(n - 1, -7);
    ShiftOfDigit(NatValue(d), n - 1);
    Pow10Positive(n - 1);
  }

  lemma {:induction false} ShiftOfDigit(v: nat, e: int)
    requires v <= 9
    ensures Shift(v as real, e) <= 9.0 * Pow10(e)
    decreases if e < 0 then -e else e
  {
    ShiftKeepsOrder(9.0, v as real, e);
    NineTimes(e);
  }

  lemma {:induction false} NineTimes(e: int)
    ensures Shift(9.0, e) == 9.0 * Pow10(e)
    decreases if e < 0 then -e else e
  {
    if e > 0 {
      NineTimes(e - 1);
      ShiftStep(9.0, e - 1);
      ShiftScales(9.0, e - 1);
      Pow10Step(e - 1);
    } else if e < 0 {
      NineTimes(e + 1);
      ShiftStep(9.0, e);
      ShiftScales(9.0, e);
      Pow10Step(e);
    }
  }

  /** The double that 1e-6 is read as has digits no smaller than 1e-6. */
  lemma DigitsOfMillionth(p: Format, c: real)
    requires PrintsShortest(p) && p.rounds(Pow10(-6), c)
    ensures c > 0.0 && IsDouble(c) && Abs(p.digits(c).0, p.digits(c).1) >= Pow10(-6)
  {
    TwoToMinus20();
    TenToMinus6();
    assert Nearest(Pow10(-6), c);
    NotFarther(p, Pow10(-6), c, 1.0 / 1048576.0);
    assert c > 0.0;
    OneDigitIsEnough(p, c, -5);
    assert IsShortest(p, c);
    if Abs(p.digits(c).0, p.digits(c).1) < Pow10(-6) {
      OneDigitBound(p.digits(c).0, p.digits(c).1);
    }
  }

  lemma DigitsOfTenTo21(p: Format)
    requires PrintsShortest(p)
    ensures IsDouble(Pow10(21)) && IsShortest(p, Pow10(21)) && Abs(p.digits(Pow10(21)).0, p.digits(Pow10(21)).1) == Pow10(21)
  {
    TenTo21();
    DoubleRoundsToItself(p, Pow10(21));
    OneDigitIsEnough(p, Pow10(21), 22);
  }

  /**
   Comparing a double with the doubles that 1e-6 and 1e21 are read as is comparing the number its digits
   denote with 1e-6 and 1e21.
   */
  lemma NotationByValue(p: Format, c: real, x: real)
    requires PrintsShortest(p) && p.rounds(Pow10(-6), c) && IsDouble(x) && x > 0.0
    ensures var y := Abs(p.digits(x).0, p.digits(x).1);
            (c <= x <==> Pow10(-6) <= y) && (x < Pow10(21) <==> y < Pow10(21))
  {
    assert IsShortest(p, x);
    var y := Abs(p.digits(x).0, p.digits(x).1);
    DigitsOfMillionth(p, c);
    RoundingIsMonotone(p, y, x, Pow10(-6), c);
    RoundingIsMonotone(p, Pow10(-6), c, y, x);
    DigitsOfTenTo21(p);
    DoubleRoundsToItself(p, Pow10(21));
    RoundingIsMonotone(p, y, x, Pow10(21), Pow10(21));
    RoundingIsMonotone(p, Pow10(21), Pow10(21), y, x);
  }
}
