/**
 Which number texts canonical JSON tells apart. An integer prints as its digits, a float as the
 ECMAScript text of the digits chosen for it. Two floats print alike exactly if their digits denote the
 same number, and an integer and a float print alike exactly if the float's digits denote that integer,
 below 1e21 in magnitude. What the digits have to do with the value of a double is in DoubleValue.
 */
module NumberIdentity {
  import opened Text
  import opened NumberText

  datatype Number = Whole(n: int) | Floating(f: Float)

  /** A number that can be printed. */
  ghost predicate Printable(x: Number) {
    x.Floating? ==> Valid(x.f) && !x.f.NonFinite?
  }

  ghost function TextOf(x: Number): string
    requires Printable(x)
  {
    match x
    case Whole(n) => IntText(n)
    case Floating(f) => FloatText(f)
  }

  ghost function Signed(neg: bool, x: real): real {
    if neg then -x else x
  }

  /** The number that the digits of the text denote. */
  ghost function Denoted(x: Number): real
    requires Printable(x)
  {
    match x
    case Whole(n) => n as real
    case Floating(Zero(_)) => 0.0
    case Floating(Finite(neg, d, n)) => Signed(neg, Abs(d, n))
  }

  ghost predicate Below(x: real, bound: real) {
    -bound < x < bound
  }

  // ── Digits and their values ───────────────────────────────────────────────

  lemma DigitIsText(c: char)
    requires IsDigit(c)
    ensures NatText(DigitValue(c)) == [c]
  {
  }

  lemma {:induction false} AppendDigit(q: nat, c: char)
    requires q > 0 && IsDigit(c)
    ensures NatText(q * 10 + DigitValue(c)) == NatText(q) + [c]
  {
    var n := q * 10 + DigitValue(c);
    assert n / 10 == q && n % 10 == DigitValue(c);
  }

  lemma {:induction false} PartsAreText(s: string, n: nat, q: nat)
    requires |s| > 1 && IsDigit(s[|s| - 1]) && q > 0 && NatText(q) == s[..|s| - 1] && n == q * 10 + DigitValue(s[|s| - 1])
    ensures n > 0 && NatText(n) == s
  {
    AppendDigit(q, s[|s| - 1]);
    assert s == s[..|s| - 1] + [s[|s| - 1]];
  }

  lemma {:induction false} OneDigitIsText(s: string)
    requires |s| == 1 && IsDigit(s[0]) && s[0] != '0'
    ensures NatValue(s) > 0 && NatText(NatValue(s)) == s
  {
    DigitIsText(s[0]);
    assert s[..0] == [] && s == [s[0]];
  }

  /** Without a leading zero, digits are the text of their value. */
  lemma {:induction false} DigitsAreText(s: string)
    requires s != [] && AllDigits(s) && s[0] != '0'
    ensures NatValue(s) > 0 && NatText(NatValue(s)) == s
    decreases |s|
  {
    if |s| == 1 {
      OneDigitIsText(s);
    } else {
      var p := s[..|s| - 1];
      assert p[0] == s[0];
      DigitsAreText(p);
      PartsAreText(s, NatValue(s), NatValue(p));
    }
  }

  lemma {:induction false} SameValueSameDigits(a: string, b: string)
    requires AllDigits(a) && AllDigits(b) && |a| == |b| && NatValue(a) == NatValue(b)
    ensures a == b
    decreases |a|
  {
    if a != [] {
      var k := |a| - 1;
      SameValueSameDigits(a[..k], b[..k]);
      assert a == a[..k] + [a[k]] && b == b[..k] + [b[k]];
    }
  }

  function TimesTen(m: nat, j: nat): nat {
    if j == 0 then m else 10 * TimesTen(m, j - 1)
  }

  lemma {:induction false} ShiftUp(m: nat, j: nat)
    ensures Shift(m as real, j) == TimesTen(m, j) as real
    decreases j
  {
    if j > 0 {
      ShiftUp(m, j - 1);
      ShiftStep(m as real, j - 1);
      ShiftScales(m as real, j - 1);
    }
  }

  lemma {:induction false} ShiftBack(x: real, e: int)
    ensures Shift(Shift(x, e), -e) == x
    decreases if e < 0 then -e else e
  {
    if e > 0 {
      ShiftTwice(x, e, -e);
    } else if e < 0 {
      ShiftBack(x / 10.0, e + 1);
      ShiftStep(Shift(x, e), -e - 1);
      ShiftScales(Shift(x, e), -e - 1);
    }
  }

  lemma {:induction false} ZerosAreTens(d: string, j: nat)
    requires AllDigits(d)
    ensures AllDigits(d + Zeros(j)) && NatValue(d + Zeros(j)) == TimesTen(NatValue(d), j)
    decreases j
  {
    if j == 0 {
      assert d + Zeros(0) == d;
    } else {
      ZerosAreTens(d, j - 1);
      var s := d + Zeros(j);
      assert s[..|s| - 1] == d + Zeros(j - 1);
    }
  }

  lemma {:induction false} LastDigitCounts(d: string, m: nat)
    requires IsDecimal(d)
    ensures NatValue(d) != 10 * m
  {
    assert NatValue(d) == NatValue(d[..|d| - 1]) * 10 + DigitValue(d[|d| - 1]);
  }

  /** Digits without trailing zeros. */
  function Stripped(s: string): (d: string)
    requires AllDigits(s)
    ensures AllDigits(d) && |d| <= |s| && d == s[..|d|]
    decreases |s|
  {
    if s != [] && s[|s| - 1] == '0' then Stripped(s[..|s| - 1]) else s
  }

  // ── Floats: one value, one representation ─────────────────────────────────

  lemma SamePoint(d: string, n: int, e: string, m: int)
    requires IsDecimal(d) && IsDecimal(e) && Abs(d, n) == Abs(e, m)
    ensures n == m
  {
    AbsBounds(d, n);
    AbsBounds(e, m);
    if n < m {
      Pow10Monotone(n, m - 1);
    } else if m < n {
      Pow10Monotone(m, n - 1);
    }
  }

  lemma SameMagnitude(d: string, e: string, n: int)
    requires IsDecimal(d) && IsDecimal(e) && |d| <= |e| && Abs(d, n) == Abs(e, n)
    ensures d == e
  {
    var j := |e| - |d|;
    ShiftBack(NatValue(e) as real, n - |e|);
    ShiftDown(NatValue(d) as real, n - |d|, j);
    ShiftUp(NatValue(d), j);
    if j > 0 {
      LastDigitCounts(e, TimesTen(NatValue(d), j - 1));
    } else {
      SameValueSameDigits(d, e);
    }
  }

  /** Shifting by e, then by j - e, is shifting by j. */
  lemma {:induction false} ShiftDown(x: real, e: int, j: nat)
    ensures Shift(Shift(x, e), j - e) == Shift(x, j)
    decreases j
  {
    if j == 0 {
      ShiftBack(x, e);
    } else {
      ShiftDown(x, e, j - 1);
      ShiftStep(Shift(x, e), j - 1 - e);
      ShiftScales(Shift(x, e), j - 1 - e);
      ShiftStep(x, j - 1);
      ShiftScales(x, j - 1);
    }
  }

  lemma AbsPositive(d: string, n: int)
    requires IsDecimal(d)
    ensures Abs(d, n) > 0.0
  {
    AbsBounds(d, n);
    Pow10Positive(n - 1);
  }

  lemma SameFloatDenoted(f: Float, g: Float)
    requires Valid(f) && Valid(g) && f.Finite? && g.Finite? && Denoted(Floating(f)) == Denoted(Floating(g))
    ensures f == g
  {
    AbsPositive(f.digits, f.point);
    AbsPositive(g.digits, g.point);
    SamePoint(f.digits, f.point, g.digits, g.point);
    if |f.digits| <= |g.digits| {
      SameMagnitude(f.digits, g.digits, f.point);
    } else {
      SameMagnitude(g.digits, f.digits, f.point);
    }
  }

  // ── Texts ─────────────────────────────────────────────────────────────────

  datatype Shape = Plain | Pointed | Small | Exponential

  function ShapeOf(d: string, n: int): Shape {
    if |d| <= n <= 21 then Plain else if 0 < n <= 21 then Pointed else if -6 < n <= 0 then Small else Exponential
  }

  /** The shape of a text can be read off it. */
  lemma ShapeShows(d: string, n: int)
    requires ValidDigits(d)
    ensures var b := EsBody(d, n); var shape := ShapeOf(d, n);
            && b != [] && b[0] != '-'
            && ('e' in b <==> shape.Exponential?)
            && (!shape.Exponential? ==> ('.' in b <==> !shape.Plain?))
            && (!shape.Exponential? ==> (b[0] == '0' <==> shape.Small?))
  {
    var b := EsBody(d, n);
    assert forall i :: 0 <= i < |d| ==> IsDigit(d[i]);
    match ShapeOf(d, n)
    case Plain => assert b[0] == d[0];
    case Pointed => PointedShows(d, n);
    case Small => SmallShows(d, n);
    case Exponential => ExponentialShows(d, n);
  }

  lemma PointedShows(d: string, n: int)
    requires ValidDigits(d) && 0 < n < |d|
    ensures var b := d[..n] + "." + d[n..]; b != [] && b[0] == d[0] && 'e' !in b && '.' in b
  {
    var b := d[..n] + "." + d[n..];
    assert b[n] == '.';
    assert forall i :: 0 <= i < |d| ==> IsDigit(d[i]);
  }

  lemma SmallShows(d: string, n: int)
    requires ValidDigits(d) && n <= 0
    ensures var b := "0." + Zeros(-n) + d; b != [] && b[0] == '0' && 'e' !in b && '.' in b
  {
    var b := "0." + Zeros(-n) + d;
    assert b[1] == '.';
    assert forall i :: 0 <= i < |d| ==> IsDigit(d[i]);
  }

  lemma ExponentialShows(d: string, n: int)
    requires ValidDigits(d)
    ensures var b := Mantissa(d) + "e" + ExponentSign(n - 1) + NatText(Magnitude(n - 1)); b != [] && b[0] == d[0] && 'e' in b
  {
    var b := Mantissa(d) + "e" + ExponentSign(n - 1) + NatText(Magnitude(n - 1));
    assert b[|Mantissa(d)|] == 'e';
    assert IsDigit(d[0]);
  }

  lemma PlainInjective(d: string, n: int, e: string, m: int)
    requires ValidDigits(d) && ValidDigits(e) && ShapeOf(d, n).Plain? && ShapeOf(e, m).Plain? && EsBody(d, n) == EsBody(e, m)
    ensures d == e && n == m
  {
    var s := d + Zeros(n - |d|);
    assert |s| == n == m;
    assert forall i :: |d| <= i < |s| ==> s[i] == '0';
    assert forall i :: |e| <= i < |s| ==> s[i] == '0';
    assert s[|d| - 1] != '0' && s[|e| - 1] != '0';
    assert d == s[..|d|] && e == s[..|e|];
  }

  lemma PointedInjective(d: string, n: int, e: string, m: int)
    requires ValidDigits(d) && ValidDigits(e) && ShapeOf(d, n).Pointed? && ShapeOf(e, m).Pointed? && EsBody(d, n) == EsBody(e, m)
    ensures d == e && n == m
  {
    assert forall i :: 0 <= i < |d| ==> IsDigit(d[i]);
    assert forall i :: 0 <= i < |e| ==> IsDigit(e[i]);
    SplitAt(d[..n], '.', d[n..]);
    SplitAt(e[..m], '.', e[m..]);
    assert d[..n] + "." + d[n..] == d[..n] + ['.'] + d[n..] && e[..m] + "." + e[m..] == e[..m] + ['.'] + e[m..];
    assert d == d[..n] + d[n..] && e == e[..m] + e[m..];
  }

  lemma SmallInjective(d: string, n: int, e: string, m: int)
    requires ValidDigits(d) && ValidDigits(e) && ShapeOf(d, n).Small? && ShapeOf(e, m).Small? && EsBody(d, n) == EsBody(e, m)
    ensures d == e && n == m
  {
    var s := "0." + Zeros(-n) + d;
    assert forall i :: 2 <= i < 2 - n ==> s[i] == '0';
    assert forall i :: 2 <= i < 2 - m ==> s[i] == '0';
    assert s[2 - n] != '0' && s[2 - m] != '0';
    assert d == s[2 - n..] && e == s[2 - m..];
  }

  lemma MantissaInjective(d: string, e: string)
    requires ValidDigits(d) && ValidDigits(e) && Mantissa(d) == Mantissa(e)
    ensures d == e
  {
    assert |d| == 1 <==> |e| == 1;
    if |d| > 1 {
      assert Mantissa(d)[2..] == d[1..] && Mantissa(e)[2..] == e[1..];
      assert Mantissa(d)[..1] == d[..1] && Mantissa(e)[..1] == e[..1];
      assert d == d[..1] + d[1..] && e == e[..1] + e[1..];
    }
  }

  lemma ExponentInjective(x: int, y: int)
    requires ExponentSign(x) + NatText(Magnitude(x)) == ExponentSign(y) + NatText(Magnitude(y))
    ensures x == y
  {
    var s, t := ExponentSign(x) + NatText(Magnitude(x)), ExponentSign(y) + NatText(Magnitude(y));
    assert s[0] == ExponentSign(x)[0] && t[0] == ExponentSign(y)[0];
    assert s[1..] == NatText(Magnitude(x)) && t[1..] == NatText(Magnitude(y));
    NatTextRoundTrip(Magnitude(x));
    NatTextRoundTrip(Magnitude(y));
  }

  lemma ExponentialSplits(d: string, x: int)
    requires ValidDigits(d)
    ensures var b, m := Mantissa(d) + "e" + ExponentSign(x) + NatText(Magnitude(x)), Mantissa(d);
            Find(b, 'e') == |m| <= |b| && b[..|m|] == m && b[|m|..][1..] == ExponentSign(x) + NatText(Magnitude(x))
  {
    MantissaParts(d);
    ExponentFollows(Mantissa(d), ExponentSign(x), NatText(Magnitude(x)));
    assert ("e" + ExponentSign(x) + NatText(Magnitude(x)))[1..] == ExponentSign(x) + NatText(Magnitude(x));
  }

  lemma ExponentialInjective(d: string, n: int, e: string, m: int)
    requires ValidDigits(d) && ValidDigits(e) && ShapeOf(d, n).Exponential? && ShapeOf(e, m).Exponential? && EsBody(d, n) == EsBody(e, m)
    ensures d == e && n == m
  {
    ExponentialSplits(d, n - 1);
    ExponentialSplits(e, m - 1);
    MantissaInjective(d, e);
    ExponentInjective(n - 1, m - 1);
  }

  lemma SameBodySameShape(d: string, n: int, e: string, m: int)
    requires ValidDigits(d) && ValidDigits(e) && EsBody(d, n) == EsBody(e, m)
    ensures ShapeOf(d, n) == ShapeOf(e, m)
  {
    ShapeShows(d, n);
    ShapeShows(e, m);
  }

  lemma BodyInjective(d: string, n: int, e: string, m: int)
    requires ValidDigits(d) && ValidDigits(e) && EsBody(d, n) == EsBody(e, m)
    ensures d == e && n == m
  {
    SameBodySameShape(d, n, e, m);
    var shape := ShapeOf(d, n);
    if shape.Plain? {
      PlainInjective(d, n, e, m);
    } else if shape.Pointed? {
      PointedInjective(d, n, e, m);
    } else if shape.Small? {
      SmallInjective(d, n, e, m);
    } else {
      ExponentialInjective(d, n, e, m);
    }
  }

  lemma SignSplits(neg: bool, b: string)
    requires b != [] && b[0] != '-'
    ensures Sign(neg) + b != [] && ((Sign(neg) + b)[0] == '-' <==> neg)
    ensures (if neg then (Sign(neg) + b)[1..] else Sign(neg) + b) == b
  {
  }

  lemma SameFloatText(f: Float, g: Float)
    requires Valid(f) && Valid(g) && f.Finite? && g.Finite? && TextOf(Floating(f)) == TextOf(Floating(g))
    ensures f == g
  {
    ShapeShows(f.digits, f.point);
    ShapeShows(g.digits, g.point);
    SignSplits(f.neg, EsBody(f.digits, f.point));
    SignSplits(g.neg, EsBody(g.digits, g.point));
    BodyInjective(f.digits, f.point, g.digits, g.point);
  }

  // ── Integers and floats ───────────────────────────────────────────────────

  lemma {:induction false} PlainValue(d: string, n: int)
    requires IsDecimal(d) && |d| <= n
    ensures var s := d + Zeros(n - |d|); s != [] && AllDigits(s) && s[0] != '0' && Abs(d, n) == NatValue(s) as real
  {
    ZerosAreTens(d, n - |d|);
    ShiftUp(NatValue(d), n - |d|);
    assert (d + Zeros(n - |d|))[0] == d[0];
  }

  /** The integer of digits with the point behind them. */
  function PlainInt(neg: bool, d: string, n: int): int
    requires AllDigits(d) && |d| <= n
  {
    var m := NatValue(d + Zeros(n - |d|));
    if neg then -(m as int) else m
  }

  lemma {:induction false} PlainText(neg: bool, d: string, n: int)
    requires IsDecimal(d) && |d| <= n <= 21
    ensures EsText(neg, d, n) == IntText(PlainInt(neg, d, n))
  {
    var s := d + Zeros(n - |d|);
    assert s[0] == d[0];
    DigitsAreText(s);
    assert EsBody(d, n) == s;
  }

  /** Digits that denote an integer below 1e21 have a plain text. */
  lemma IntegralIsPlain(d: string, n: int, m: nat)
    requires IsDecimal(d) && Abs(d, n) == m as real && Abs(d, n) < Pow10(21)
    ensures |d| <= n <= 21
  {
    AbsBounds(d, n);
    if n > 21 {
      Pow10Monotone(21, n - 1);
    }
    if n < |d| {
      var j := |d| - n;
      ShiftBack(NatValue(d) as real, n - |d|);
      ShiftUp(m, j);
      LastDigitCounts(d, TimesTen(m, j - 1));
    }
  }

  lemma PlainBelow(d: string, n: int)
    requires ValidDigits(d) && n <= 21
    ensures Abs(d, n) < Pow10(21)
  {
    AbsBounds(d, n);
    Pow10Monotone(n, 21);
  }

  lemma IntTextShape(k: int)
    ensures var t := IntText(k); t != [] && (t[0] == '-' <==> k < 0) && 'e' !in t && '.' !in t
    ensures var t := IntText(k); var m: nat := if k < 0 then -k else k; (if k < 0 then t[1..] else t) == NatText(m)
  {
    var m: nat := if k < 0 then -k else k;
    NatTextRoundTrip(m);
    assert forall i :: 0 <= i < |NatText(m)| ==> IsDigit(NatText(m)[i]);
  }

  /** The text of a float is the text of an integer exactly if its digits denote that integer, below 1e21. */
  lemma MixedAlikeIff(k: int, f: Float)
    requires Valid(f) && f.Finite?
    ensures TextOf(Floating(f)) == IntText(k) <==> Denoted(Floating(f)) == k as real && Below(k as real, Pow10(21))
  {
    var d, n := f.digits, f.point;
    ShapeShows(d, n);
    SignSplits(f.neg, EsBody(d, n));
    IntTextShape(k);
    AbsPositive(d, n);
    var m: nat := if k < 0 then -k else k;
    if TextOf(Floating(f)) == IntText(k) {
      TextGivesValue(d, n, m);
    }
    if Denoted(Floating(f)) == k as real && Below(k as real, Pow10(21)) {
      ValueGivesText(d, n, m);
    }
  }

  lemma TextGivesValue(d: string, n: int, m: nat)
    requires ValidDigits(d) && EsBody(d, n) == NatText(m)
    ensures Abs(d, n) == m as real && Abs(d, n) < Pow10(21)
  {
    ShapeShows(d, n);
    NatTextRoundTrip(m);
    assert forall i :: 0 <= i < |NatText(m)| ==> IsDigit(NatText(m)[i]);
    assert ShapeOf(d, n).Plain?;
    PlainValue(d, n);
    PlainBelow(d, n);
  }

  lemma ValueGivesText(d: string, n: int, m: nat)
    requires ValidDigits(d) && Abs(d, n) == m as real && Abs(d, n) < Pow10(21)
    ensures EsBody(d, n) == NatText(m)
  {
    IntegralIsPlain(d, n, m);
    PlainValue(d, n);
    DigitsAreText(d + Zeros(n - |d|));
  }

  lemma IntTextInjective(k: int, l: int)
    requires IntText(k) == IntText(l)
    ensures k == l
  {
    IntTextShape(k);
    IntTextShape(l);
    NatTextRoundTrip(if k < 0 then -k else k);
    NatTextRoundTrip(if l < 0 then -l else l);
  }

  /** A zero prints as the integer 0, whatever its sign, and as nothing else does. */
  lemma ZeroAlikeIff(y: Number)
    requires Printable(y)
    ensures TextOf(y) == "0" <==> Denoted(y) == 0.0
  {
    assert IntText(0) == "0";
    match y
    case Whole(n) =>
      if IntText(n) == "0" {
        IntTextInjective(n, 0);
      }
    case Floating(f) =>
      if f.Finite? {
        MixedAlikeIff(0, f);
        AbsPositive(f.digits, f.point);
      }
  }

  /**
   Two numbers print alike exactly if their digits denote the same number and, when one is an integer and
   the other a float, one below 1e21 in magnitude.
   */
  lemma NumbersPrintAlikeIff(x: Number, y: Number)
    requires Printable(x) && Printable(y)
    ensures TextOf(x) == TextOf(y) <==> Denoted(x) == Denoted(y) && ((x.Whole? <==> y.Whole?) || Below(Denoted(x), Pow10(21)))
  {
    Pow10Positive(21);
    if x.Floating? && x.f.Zero? {
      ZeroAlikeIff(y);
    } else if y.Floating? && y.f.Zero? {
      ZeroAlikeIff(x);
    } else if x.Whole? && y.Whole? {
      if TextOf(x) == TextOf(y) {
        IntTextInjective(x.n, y.n);
      }
    } else if x.Whole? {
      MixedAlikeIff(x.n, y.f);
    } else if y.Whole? {
      MixedAlikeIff(y.n, x.f);
    } else {
      FloatsPrintAlikeIff(x.f, y.f);
    }
  }

  lemma FloatsPrintAlikeIff(f: Float, g: Float)
    requires Valid(f) && Valid(g) && f.Finite? && g.Finite?
    ensures TextOf(Floating(f)) == TextOf(Floating(g)) <==> Denoted(Floating(f)) == Denoted(Floating(g))
  {
    if TextOf(Floating(f)) == TextOf(Floating(g)) {
      SameFloatText(f, g);
    }
    if Denoted(Floating(f)) == Denoted(Floating(g)) {
      SameFloatDenoted(f, g);
    }
  }

  /** The integer 10 to the 21 and the float with the digits of 1e21 denote the same number and print differently. */
  lemma LargeIntegerPrintsOtherwise() returns (k: int)
    ensures Denoted(Whole(k)) == Denoted(Floating(Finite(false, "1", 22)))
    ensures TextOf(Whole(k)) != TextOf(Floating(Finite(false, "1", 22)))
  {
    k := TimesTen(1, 21);
    ShiftUp(1, 21);
    assert NatValue("1") == 1;
    assert Abs("1", 22) == Shift(1.0, 21);
    NumbersPrintAlikeIff(Whole(k), Floating(Finite(false, "1", 22)));
  }
}
