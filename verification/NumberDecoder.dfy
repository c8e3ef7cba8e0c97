/**
 A decoder for number text: sign, digits, fraction and exponent are read back into the integer or the
 float whose text it is.
 */
module NumberDecoder {
  import opened Types
  import opened Text
  import opened NumberText
  import opened NumberIdentity
  import opened CanonicalJson

  predicate IsNumberChar(c: char) {
    IsDigit(c) || c == '.' || c == 'e' || c == '+' || c == '-'
  }

  predicate NumberChars(s: string) {
    forall i :: 0 <= i < |s| ==> IsNumberChar(s[i])
  }

  /** How many leading characters can be part of a number. */
  function NumberRun(s: string): (k: nat)
    ensures k <= |s|
  {
    if s == [] || !IsNumberChar(s[0]) then 0 else 1 + NumberRun(s[1..])
  }

  function ReadExponent(s: string): Option<int> {
    if |s| >= 2 && (s[0] == '+' || s[0] == '-') && AllDigits(s[1..]) then Some(SignedValue(s)) else None
  }

  /** The number of digits with a point, without superfluous zeros at either end. */
  function Decimal(neg: bool, digits: string, point: int): Option<Json>
    requires AllDigits(digits)
    decreases |digits|
  {
    if digits != [] && digits[0] == '0' then Decimal(neg, digits[1..], point - 1)
    else
      var d := Stripped(digits);
      if d == [] then Some(Int(0))
      else if |d| <= 17 && d[|d| - 1] != '0' then Some(Num(Finite(neg, d, point)))
      else None
  }

  function ReadFloat(neg: bool, body: string): Option<Json> {
    var q := Find(body, 'e');
    var m := if q < 0 then body else body[..q];
    var exponent := if q < 0 then Some(0) else ReadExponent(body[q + 1..]);
    var p := Find(m, '.');
    var first, last := if p < 0 then m else m[..p], if p < 0 then "" else m[p + 1..];
    if exponent.None? || !AllDigits(first + last) then None
    else Decimal(neg, first + last, |first| + exponent.value)
  }

  function ReadNumber(t: string): Option<Json> {
    var neg := t != [] && t[0] == '-';
    var body := if neg then t[1..] else t;
    if body == [] then None
    else if AllDigits(body) then
      var m := NatValue(body);
      Some(Int(if neg then -(m as int) else m))
    else ReadFloat(neg, body)
  }

  function ParseNumber(s: string): (r: Option<(Json, string)>)
    ensures r.Some? ==> |r.value.1| < |s|
  {
    var k := NumberRun(s);
    match ReadNumber(s[..k])
    case None => None
    case Some(v) => if k == 0 then None else Some((v, s[k..]))
  }

  // ── The run of a number ───────────────────────────────────────────────────

  lemma {:induction false} RunStops(t: string, rest: string)
    requires NumberChars(t) && (rest == [] || !IsNumberChar(rest[0]))
    ensures NumberRun(t + rest) == |t|
    decreases |t|
  {
    if t == [] {
      assert t + rest == rest;
    } else {
      assert (t + rest)[1..] == t[1..] + rest;
      RunStops(t[1..], rest);
    }
  }

  lemma {:induction false} RunGoesOn(t: string, rest: string)
    requires NumberChars(t) && rest != [] && IsNumberChar(rest[0])
    ensures NumberRun(t + rest) > |t|
    decreases |t|
  {
    if t == [] {
      assert t + rest == rest;
    } else {
      assert (t + rest)[1..] == t[1..] + rest;
      RunGoesOn(t[1..], rest);
    }
  }

  // ── Reading back ──────────────────────────────────────────────────────────

  lemma {:induction false} LeadingZero(neg: bool, s: string, point: int)
    requires AllDigits(s)
    ensures AllDigits("0" + s) && Decimal(neg, "0" + s, point) == Decimal(neg, s, point - 1)
  {
    assert ("0" + s)[1..] == s;
  }

  lemma {:induction false} LeadingZeros(neg: bool, k: nat, d: string, point: int)
    requires AllDigits(d)
    ensures AllDigits(Zeros(k) + d) && Decimal(neg, Zeros(k) + d, point) == Decimal(neg, d, point - k)
    decreases k
  {
    if k == 0 {
      assert Zeros(0) + d == d;
    } else {
      LeadingZeros(neg, k - 1, d, point - 1);
      LeadingZero(neg, Zeros(k - 1) + d, point);
      assert Zeros(k) + d == "0" + (Zeros(k - 1) + d);
    }
  }

  lemma DecimalIs(neg: bool, d: string, point: int)
    requires ValidDigits(d)
    ensures Decimal(neg, d, point) == Some(Num(Finite(neg, d, point)))
  {
  }

  /** A body split at its exponent and its point. */
  lemma BodyReads(neg: bool, body: string, m: string, exponent: string, e: int, first: string, last: string)
    requires 'e' !in m && AllDigits(first + last)
    requires if exponent == "" then body == m && e == 0 else body == m + "e" + exponent && ReadExponent(exponent) == Some(e)
    requires if last == "" then m == first && '.' !in m else m == first + "." + last && '.' !in first
    ensures ReadFloat(neg, body) == Decimal(neg, first + last, |first| + e)
  {
    ExponentCut(body, m, exponent);
    PointCut(m, first, last);
  }

  lemma ExponentCut(body: string, m: string, exponent: string)
    requires 'e' !in m && body == if exponent == "" then m else m + "e" + exponent
    ensures if exponent == "" then Find(body, 'e') == -1
            else Find(body, 'e') == |m| && body[..|m|] == m && body[|m| + 1..] == exponent
  {
    if exponent == "" {
      FindNone(m, 'e');
    } else {
      assert m + "e" + exponent == m + ['e'] + exponent;
      SplitAt(m, 'e', exponent);
    }
  }

  lemma PointCut(m: string, first: string, last: string)
    requires if last == "" then m == first && '.' !in m else m == first + "." + last && '.' !in first
    ensures if last == "" then Find(m, '.') == -1 else Find(m, '.') == |first| && m[..|first|] == first && m[|first| + 1..] == last
  {
    if last == "" {
      FindNone(m, '.');
    } else {
      assert first + "." + last == first + ['.'] + last;
      SplitAt(first, '.', last);
    }
  }

  lemma DigitsHaveNoMarks(d: string)
    requires AllDigits(d)
    ensures 'e' !in d && '.' !in d && '-' !in d && '+' !in d
  {
  }

  lemma PointReads(neg: bool, first: string, last: string)
    requires AllDigits(first) && AllDigits(last) && last != ""
    ensures AllDigits(first + last) && ReadFloat(neg, first + "." + last) == Decimal(neg, first + last, |first|)
  {
    DigitsHaveNoMarks(first);
    DigitsHaveNoMarks(last);
    BodyReads(neg, first + "." + last, first + "." + last, "", 0, first, last);
  }

  lemma PointedReads(neg: bool, d: string, n: int)
    requires ValidDigits(d) && ShapeOf(d, n).Pointed?
    ensures ReadFloat(neg, EsBody(d, n)) == Some(Num(Finite(neg, d, n)))
  {
    assert d[..n] + d[n..] == d;
    PointReads(neg, d[..n], d[n..]);
    DecimalIs(neg, d, n);
  }

  lemma SmallReads(neg: bool, d: string, n: int)
    requires ValidDigits(d) && ShapeOf(d, n).Small?
    ensures ReadFloat(neg, EsBody(d, n)) == Some(Num(Finite(neg, d, n)))
  {
    var last := Zeros(-n) + d;
    assert EsBody(d, n) == "0" + "." + last by {
      ConcatAssociates("0.", Zeros(-n), d);
      assert "0" + "." == "0.";
    }
    assert "0" + last == Zeros(1 - n) + d by {
      assert Zeros(1 - n) == "0" + Zeros(-n);
      ConcatAssociates("0", Zeros(-n), d);
    }
    LeadingZeros(neg, 1 - n, d, 1);
    PointReads(neg, "0", last);
    DecimalIs(neg, d, n);
  }

  lemma ExponentReads(e: int)
    ensures ReadExponent(ExponentSign(e) + NatText(Magnitude(e))) == Some(e)
  {
    var s := ExponentSign(e) + NatText(Magnitude(e));
    NatTextRoundTrip(Magnitude(e));
    assert s[1..] == NatText(Magnitude(e));
  }

  lemma MantissaSplitsAtPoint(d: string)
    requires IsDecimal(d)
    ensures var m, first, last := Mantissa(d), d[..1], d[1..];
            && 'e' !in m && first + last == d && '.' !in first
            && (if last == "" then m == first && '.' !in m else m == first + "." + last)
  {
    DigitsHaveNoMarks(d);
  }

  lemma ExponentialBody(d: string, n: int)
    requires IsDecimal(d) && ShapeOf(d, n).Exponential?
    ensures EsBody(d, n) == Mantissa(d) + "e" + (ExponentSign(n - 1) + NatText(Magnitude(n - 1)))
  {
    ConcatAssociates(Mantissa(d) + "e", ExponentSign(n - 1), NatText(Magnitude(n - 1)));
  }

  lemma ExponentialReads(neg: bool, d: string, n: int)
    requires ValidDigits(d) && ShapeOf(d, n).Exponential?
    ensures ReadFloat(neg, EsBody(d, n)) == Some(Num(Finite(neg, d, n)))
  {
    MantissaSplitsAtPoint(d);
    ExponentialBody(d, n);
    ExponentReads(n - 1);
    MantissaReads(neg, d, ExponentSign(n - 1) + NatText(Magnitude(n - 1)), n - 1);
    DecimalIs(neg, d, n);
  }

  lemma MantissaReads(neg: bool, d: string, exponent: string, e: int)
    requires IsDecimal(d) && exponent != "" && ReadExponent(exponent) == Some(e)
    ensures ReadFloat(neg, Mantissa(d) + "e" + exponent) == Decimal(neg, d, 1 + e)
  {
    MantissaSplitsAtPoint(d);
    BodyReads(neg, Mantissa(d) + "e" + exponent, Mantissa(d), exponent, e, d[..1], d[1..]);
  }

  lemma FloatReads(neg: bool, d: string, n: int)
    requires ValidDigits(d) && !ShapeOf(d, n).Plain?
    ensures ReadNumber(EsText(neg, d, n)) == Some(Num(Finite(neg, d, n)))
  {
    var b := EsBody(d, n);
    ShapeShows(d, n);
    SignSplits(neg, b);
    assert !AllDigits(b) by {
      DigitsHaveNoMarksIn(b);
    }
    var shape := ShapeOf(d, n);
    if shape.Pointed? {
      PointedReads(neg, d, n);
    } else if shape.Small? {
      SmallReads(neg, d, n);
    } else {
      ExponentialReads(neg, d, n);
    }
  }

  lemma DigitsHaveNoMarksIn(b: string)
    ensures 'e' in b || '.' in b ==> !AllDigits(b)
  {
  }

  lemma IntReads(k: int)
    ensures ReadNumber(IntText(k)) == Some(Int(k))
  {
    var m: nat := if k < 0 then -k else k;
    IntTextShape(k);
    NatTextRoundTrip(m);
  }

  // ── Normal numbers ────────────────────────────────────────────────────────

  /** A finite number in the form its text has. */
  predicate NormalNumber(v: Json)
    requires IsNumber(v)
  {
    v.Int? || (v.f.Finite? && !(|v.f.digits| <= v.f.point <= 21))
  }

  /** The text of a normal number reads back as that number. */
  lemma NumberReadsBack(v: Json)
    requires IsNumber(v) && NormalNumber(v)
    ensures ReadNumber(Render(v)) == Some(v)
  {
    if v.Int? {
      IntReads(v.n);
    } else {
      FloatReads(v.f.neg, v.f.digits, v.f.point);
    }
  }

  lemma CharsJoin(a: string, b: string)
    requires NumberChars(a) && NumberChars(b)
    ensures NumberChars(a + b)
  {
  }

  lemma ExponentialChars(d: string, e: int)
    requires IsDecimal(d)
    ensures NumberChars(Mantissa(d) + "e" + ExponentSign(e) + NatText(Magnitude(e)))
  {
    NatTextRoundTrip(Magnitude(e));
    assert NumberChars(Mantissa(d));
    CharsJoin(Mantissa(d), "e");
    CharsJoin(Mantissa(d) + "e", ExponentSign(e));
    CharsJoin(Mantissa(d) + "e" + ExponentSign(e), NatText(Magnitude(e)));
  }

  lemma DigitsAreChars(d: string)
    requires AllDigits(d)
    ensures NumberChars(d)
  {
  }

  lemma PointChars(a: string, b: string)
    requires AllDigits(a) && AllDigits(b)
    ensures NumberChars(a + "." + b)
  {
    DigitsAreChars(a);
    DigitsAreChars(b);
    CharsJoin(a, ".");
    CharsJoin(a + ".", b);
  }

  lemma SmallChars(d: string, k: nat)
    requires AllDigits(d)
    ensures NumberChars("0." + Zeros(k) + d)
  {
    DigitsAreChars(d);
    DigitsAreChars(Zeros(k));
    CharsJoin("0.", Zeros(k));
    CharsJoin("0." + Zeros(k), d);
  }

  lemma PlainChars(d: string, n: int)
    requires IsDecimal(d) && ShapeOf(d, n).Plain?
    ensures NumberChars(EsBody(d, n))
  {
    DigitsAreChars(d + Zeros(n - |d|));
  }

  lemma PointedChars(d: string, n: int)
    requires IsDecimal(d) && ShapeOf(d, n).Pointed?
    ensures NumberChars(EsBody(d, n))
  {
    PointChars(d[..n], d[n..]);
  }

  lemma SmallBodyChars(d: string, n: int)
    requires IsDecimal(d) && ShapeOf(d, n).Small?
    ensures NumberChars(EsBody(d, n))
  {
    SmallChars(d, -n);
  }

  lemma ExponentialBodyChars(d: string, n: int)
    requires IsDecimal(d) && ShapeOf(d, n).Exponential?
    ensures NumberChars(EsBody(d, n))
  {
    ExponentialChars(d, n - 1);
  }

  lemma EsBodyChars(d: string, n: int)
    requires IsDecimal(d)
    ensures NumberChars(EsBody(d, n))
  {
    var shape := ShapeOf(d, n);
    if shape.Plain? {
      PlainChars(d, n);
    } else if shape.Pointed? {
      PointedChars(d, n);
    } else if shape.Small? {
      SmallBodyChars(d, n);
    } else {
      ExponentialBodyChars(d, n);
    }
  }

  lemma EsBodyStart(d: string, n: int)
    requires IsDecimal(d)
    ensures EsBody(d, n) != [] && IsDigit(EsBody(d, n)[0])
  {
    assert EsBody(d, n)[0] == d[0] || EsBody(d, n)[0] == '0';
  }

  /** A number's text is of number characters, and starts with a digit or a minus sign. */
  lemma NumberTextChars(v: Json)
    requires IsNumber(v) && NormalNumber(v)
    ensures var t := Render(v); t != [] && NumberChars(t) && (t[0] == '-' || IsDigit(t[0]))
  {
    if v.Int? {
      NatTextRoundTrip(if v.n < 0 then -v.n else v.n);
    } else {
      EsBodyChars(v.f.digits, v.f.point);
      EsBodyStart(v.f.digits, v.f.point);
      CharsJoin(Sign(v.f.neg), EsBody(v.f.digits, v.f.point));
    }
  }

  lemma NumberRoundTrip(v: Json, rest: string)
    requires IsNumber(v) && NormalNumber(v) && (rest == [] || !IsNumberChar(rest[0]))
    ensures ParseNumber(Render(v) + rest) == Some((v, rest))
  {
    var t := Render(v);
    NumberTextChars(v);
    NumberReadsBack(v);
    RunStops(t, rest);
    assert (t + rest)[..|t|] == t && (t + rest)[|t|..] == rest;
  }

  /** A number character right after a number is read as part of it. */
  lemma NumberExtends(v: Json, rest: string)
    requires IsNumber(v) && NormalNumber(v) && rest != [] && IsNumberChar(rest[0])
    ensures ParseNumber(Render(v) + rest) != Some((v, rest))
  {
    NumberTextChars(v);
    RunGoesOn(Render(v), rest);
  }
}
