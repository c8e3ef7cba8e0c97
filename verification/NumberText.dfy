/**
 The text of a floating-point number. A finite non-zero double is given by its sign, the digits that
 Python's repr and Rust's formatters emit for it, and the position of the decimal point: the digits
 denote 0.d1d2...dk times ten to the power `point`. Which digits these are is the matter of
 NumberIdentity.
 */
module NumberText {
  import opened Types
  import opened Text

  datatype Float = NonFinite | Zero(neg: bool) | Finite(neg: bool, digits: string, point: int)

  /** Significant digits: none of them superfluous at either end. */
  ghost predicate IsDecimal(d: string) {
    d != [] && AllDigits(d) && d[0] != '0' && d[|d| - 1] != '0'
  }

  /** No double needs more than 17 of them. */
  ghost predicate ValidDigits(d: string) {
    IsDecimal(d) && |d| <= 17
  }

  ghost predicate Valid(f: Float) {
    f.Finite? ==> ValidDigits(f.digits)
  }

  function Zeros(n: nat): (s: string)
    ensures |s| == n && forall i :: 0 <= i < n ==> s[i] == '0'
  {
    if n == 0 then [] else "0" + Zeros(n - 1)
  }

  function Sign(neg: bool): string {
    if neg then "-" else ""
  }

  /** One digit, or one digit, a point and the rest. */
  function Mantissa(d: string): string
    requires d != []
  {
    if |d| == 1 then d else d[..1] + "." + d[1..]
  }

  function ExponentSign(e: int): string {
    if e < 0 then "-" else "+"
  }

  function Magnitude(e: int): nat {
    if e < 0 then -e else e
  }

  // ── The ECMAScript text (section 3.2.2.3 of RFC 8785) ─────────────────────

  function EsText(neg: bool, d: string, n: int): string
    requires d != []
  {
    Sign(neg) + EsBody(d, n)
  }

  function EsBody(d: string, n: int): string
    requires d != []
  {
    if |d| <= n <= 21 then d + Zeros(n - |d|)
    else if 0 < n <= 21 then d[..n] + "." + d[n..]
    else if -6 < n <= 0 then "0." + Zeros(-n) + d
    else Mantissa(d) + "e" + ExponentSign(n - 1) + NatText(Magnitude(n - 1))
  }

  /** Both zeros print as 0; a non-finite float has no text. */
  function FloatText(f: Float): string {
    match f
    case NonFinite => ""
    case Zero(_) => "0"
    case Finite(neg, d, n) => if d == [] then "" else EsText(neg, d, n)
  }

  // ── Python ────────────────────────────────────────────────────────────────

  /** At least two exponent digits. */
  function Pad2(e: nat): string {
    if e < 10 then "0" + NatText(e) else NatText(e)
  }

  /** repr of a positive double: fixed notation while the point lies in -3..16, exponent notation outside. */
  function PyRepr(d: string, n: int): string
    requires d != []
  {
    if -4 < n <= 16 then
      if n <= 0 then "0." + Zeros(-n) + d
      else if |d| <= n then d + Zeros(n - |d|) + ".0"
      else d[..n] + "." + d[n..]
    else Mantissa(d) + "e" + ExponentSign(n - 1) + Pad2(Magnitude(n - 1))
  }

  /** Index of the first occurrence, or -1. */
  function Find(s: string, c: char): (i: int)
    ensures -1 <= i < |s|
  {
    if s == [] then -1
    else if s[0] == c then 0
    else var i := Find(s[1..], c); if i < 0 then -1 else i + 1
  }

  lemma {:induction false} FindNone(s: string, c: char)
    requires c !in s
    ensures Find(s, c) == -1
    decreases |s|
  {
    if s != [] {
      FindNone(s[1..], c);
    }
  }

  lemma {:induction false} FindFirst(a: string, c: char, b: string)
    requires c !in a
    ensures Find(a + [c] + b, c) == |a|
    decreases |a|
  {
    if a == [] {
      assert (a + [c] + b)[0] == c;
    } else {
      assert (a + [c] + b)[1..] == a[1..] + [c] + b;
      FindFirst(a[1..], c, b);
    }
  }

  /** The signed decimal integer of an exponent suffix. */
  function SignedValue(s: string): int
    requires s != [] && AllDigits(s[1..])
  {
    if s[0] == '-' then -(NatValue(s[1..]) as int) else NatValue(s[1..])
  }

  /** The exponent part of a repr text with its leading zero dropped, and its value. */
  lemma ExponentPart(e: int)
    requires e != 0
    ensures var s := "e" + ExponentSign(e) + Pad2(Magnitude(e)); var t := "e" + ExponentSign(e) + NatText(Magnitude(e));
            && (if s[2..3] == "0" then s[..2] + s[3..] else s) == t
            && AllDigits(t[1..][1..]) && SignedValue(t[1..]) == e
  {
    var m := Magnitude(e);
    var s := "e" + ExponentSign(e) + Pad2(m);
    var t := "e" + ExponentSign(e) + NatText(m);
    NatTextRoundTrip(m);
    assert t[1..][1..] == NatText(m);
    if m < 10 {
      assert s[..2] + s[3..] == t;
    } else {
      assert s[2..3] == [NatText(m)[0]];
    }
  }

  lemma MantissaParts(d: string)
    requires ValidDigits(d)
    ensures 'e' !in Mantissa(d)
    ensures Find(Mantissa(d), '.') == (if |d| == 1 then -1 else 1)
    ensures |d| > 1 ==> d[1..] != "0"
  {
    assert forall i :: 0 <= i < |d| ==> IsDigit(d[i]);
    if |d| == 1 {
      FindNone(d, '.');
    } else {
      FindFirst(d[..1], '.', d[1..]);
      assert d[1..][|d| - 2] == d[|d| - 1];
    }
  }

  /** The pieces of a repr text: what stands before the exponent, split at the point, and the exponent. */
  datatype Pieces = Pieces(first: string, dot: string, last: string, expStr: string, expVal: int)

  predicate Scientific(n: int) {
    !(-4 < n <= 16)
  }

  /** The pieces once a padded exponent and a bare ".0" are cleaned up. */
  function CleanPieces(d: string, n: int): Pieces
    requires d != []
  {
    if Scientific(n) then
      Pieces(d[..1], if |d| == 1 then "" else ".", d[1..], "e" + ExponentSign(n - 1) + NatText(Magnitude(n - 1)), n - 1)
    else if n <= 0 then Pieces("0", ".", Zeros(-n) + d, "", 0)
    else if |d| <= n then Pieces(d + Zeros(n - |d|), "", "", "", 0)
    else Pieces(d[..n], ".", d[n..], "", 0)
  }

  lemma NoExponent(a: string, b: string)
    requires 'e' !in a && 'e' !in b
    ensures Find(a + b, 'e') == -1
  {
    FindNone(a + b, 'e');
  }

  lemma FixedFind(d: string, n: int)
    requires ValidDigits(d) && !Scientific(n)
    ensures Find(PyRepr(d, n), 'e') == -1
  {
    assert 'e' !in d;
    if n <= 0 {
      NoExponent("0." + Zeros(-n), d);
    } else if |d| <= n {
      NoExponent(d + Zeros(n - |d|), ".0");
    } else {
      NoExponent(d[..n] + ".", d[n..]);
    }
  }

  lemma ScientificFind(d: string, n: int)
    requires ValidDigits(d) && Scientific(n)
    ensures var text, m := PyRepr(d, n), Mantissa(d);
            Find(text, 'e') == |m| && |m| <= |text| && text[..|m|] == m && text[|m|..] == "e" + ExponentSign(n - 1) + Pad2(Magnitude(n - 1))
  {
    MantissaParts(d);
    ExponentFollows(Mantissa(d), ExponentSign(n - 1), Pad2(Magnitude(n - 1)));
  }

  lemma ExponentFollows(m: string, sign: string, exponent: string)
    requires 'e' !in m
    ensures var text := m + "e" + sign + exponent;
            Find(text, 'e') == |m| && text[..|m|] == m && text[|m|..] == "e" + sign + exponent
  {
    FindFirst(m, 'e', sign + exponent);
    assert m + "e" + sign + exponent == m + ['e'] + (sign + exponent);
  }

  /** Cuts a repr text at its exponent. */
  method CutExponent(repr: string, ghost d: string, ghost n: int) returns (text: string, expStr: string, expVal: int)
    requires ValidDigits(d) && repr == PyRepr(d, n)
    ensures text == if Scientific(n) then Mantissa(d) else PyRepr(d, n)
    ensures expStr == CleanPieces(d, n).expStr && expVal == CleanPieces(d, n).expVal
  {
    text, expStr, expVal := repr, "", 0;
    if Scientific(n) {
      ScientificFind(d, n);
    } else {
      FixedFind(d, n);
    }
    var q := Find(text, 'e');
    if q > 0 {
      expStr, expVal := CleanExponent(text[q..], n - 1);
      text := text[..q];
    }
  }

  /** Drops the zero that pads a one-digit exponent, and reads the exponent. */
  method CleanExponent(part: string, ghost e: int) returns (expStr: string, expVal: int)
    requires e != 0 && part == "e" + ExponentSign(e) + Pad2(Magnitude(e))
    ensures expStr == "e" + ExponentSign(e) + NatText(Magnitude(e)) && expVal == e
  {
    ExponentPart(e);
    expStr := part;
    if expStr[2..3] == "0" {
      expStr := expStr[..2] + expStr[3..];
    }
    expVal := SignedValue(expStr[1..]);
  }

  lemma SplitAt(a: string, c: char, b: string)
    requires c !in a
    ensures var text := a + [c] + b; Find(text, c) == |a| && text[..|a|] == a && text[|a| + 1..] == b
  {
    FindFirst(a, c, b);
  }

  lemma EndsInDigit(s: string, d: string)
    requires ValidDigits(d) && |s| >= 1 && s[|s| - 1] == d[|d| - 1]
    ensures s != "0"
  {
  }

  /** Splits the text before the exponent at its point, and drops a fraction of a single zero. */
  method SplitPoint(text: string, ghost d: string, ghost n: int) returns (first: string, dot: string, last: string)
    requires ValidDigits(d) && text == if Scientific(n) then Mantissa(d) else PyRepr(d, n)
    ensures first == CleanPieces(d, n).first && dot == CleanPieces(d, n).dot && last == CleanPieces(d, n).last
  {
    ReprSplits(d, n);
    var p := Find(text, '.');
    first, dot, last := text, "", "";
    if p >= 0 {
      first, dot, last := text[..p], ".", text[p + 1..];
    }
    if last == "0" {
      dot, last := "", "";
    }
  }

  /** How a text splits at its point once a bare ".0" is dropped. */
  predicate Splits(text: string, first: string, dot: string, last: string) {
    var p := Find(text, '.');
    if p < 0 then text == first && dot == "" && last == ""
    else text[..p] == first &&
         if text[p + 1..] == "0" then dot == "" && last == "" else dot == "." && text[p + 1..] == last
  }

  lemma MantissaSplits(d: string)
    requires ValidDigits(d)
    ensures Splits(Mantissa(d), d[..1], if |d| == 1 then "" else ".", d[1..])
  {
    assert forall i :: 0 <= i < |d| ==> d[i] != '.';
    if |d| == 1 {
      FindNone(d, '.');
    } else {
      SplitAt(d[..1], '.', d[1..]);
      EndsInDigit(d[1..], d);
    }
  }

  lemma SmallSplits(d: string, n: int)
    requires ValidDigits(d) && -4 < n <= 0
    ensures Splits(PyRepr(d, n), "0", ".", Zeros(-n) + d)
  {
    SplitAt("0", '.', Zeros(-n) + d);
    ConcatAssociates("0.", Zeros(-n), d);
    assert "0" + ['.'] == "0.";
    EndsInDigit(Zeros(-n) + d, d);
  }

  lemma WholeSplits(d: string, n: int)
    requires ValidDigits(d) && |d| <= n <= 16
    ensures Splits(PyRepr(d, n), d + Zeros(n - |d|), "", "")
  {
    assert forall i :: 0 <= i < |d| ==> d[i] != '.';
    SplitAt(d + Zeros(n - |d|), '.', "0");
    assert PyRepr(d, n) == (d + Zeros(n - |d|)) + ['.'] + "0";
  }

  lemma FractionSplits(d: string, n: int)
    requires ValidDigits(d) && 0 < n <= 16 && n < |d|
    ensures Splits(PyRepr(d, n), d[..n], ".", d[n..])
  {
    assert forall i :: 0 <= i < |d| ==> d[i] != '.';
    SplitAt(d[..n], '.', d[n..]);
    EndsInDigit(d[n..], d);
  }

  lemma ReprSplits(d: string, n: int)
    requires ValidDigits(d)
    ensures var c := CleanPieces(d, n);
            Splits(if Scientific(n) then Mantissa(d) else PyRepr(d, n), c.first, c.dot, c.last)
  {
    if Scientific(n) {
      MantissaSplits(d);
    } else if n <= 0 {
      SmallSplits(d, n);
    } else if |d| <= n {
      WholeSplits(d, n);
    } else {
      FractionSplits(d, n);
    }
  }

  /** The digits before padding, the pieces with the point moved, or the pieces as they are. */
  function Placed(p: Pieces): string {
    var digits := p.first + p.last;
    if 0 < p.expVal < 21 then digits + (if p.expVal + 1 - |digits| > 0 then Zeros(p.expVal + 1 - |digits|) else "")
    else if -7 < p.expVal < 0 then "0." + (Zeros(-p.expVal - 1) + digits)
    else p.first + p.dot + p.last + p.expStr
  }

  /** Moves the point for the exponents that ECMAScript writes in fixed notation, and joins the pieces. */
  method PlacePoint(pieces: Pieces) returns (r: string)
    ensures r == Placed(pieces)
  {
    var first, dot, last, expStr := pieces.first, pieces.dot, pieces.last, pieces.expStr;
    var expVal := pieces.expVal;
    if 0 < expVal < 21 {
      first := first + last;
      last, dot, expStr := "", "", "";
      var pad := expVal + 1 - |first|;
      if pad > 0 {
        first := first + Zeros(pad);
      }
    } else if -7 < expVal < 0 {
      last := first + last;
      first, dot, expStr := "0", ".", "";
      var pad := -expVal - 1;
      if pad > 0 {
        last := Zeros(pad) + last;
      }
    }
    r := first + dot + last + expStr;
  }

  lemma DigitsRejoin(d: string)
    requires d != []
    ensures d[..1] + d[1..] == d && d + "" == d
  {
  }

  lemma PlacedLarge(d: string, n: int)
    requires ValidDigits(d) && Scientific(n) && 0 < n - 1 < 21
    ensures Placed(CleanPieces(d, n)) == EsBody(d, n)
  {
    DigitsRejoin(d);
  }

  lemma PlacedTiny(d: string, n: int)
    requires ValidDigits(d) && Scientific(n) && -7 < n - 1 < 0
    ensures Placed(CleanPieces(d, n)) == EsBody(d, n)
  {
    DigitsRejoin(d);
    ConcatAssociates("0.", Zeros(-n), d);
  }

  lemma PlacedScientific(d: string, n: int)
    requires ValidDigits(d) && Scientific(n)
    ensures Placed(CleanPieces(d, n)) == EsBody(d, n)
  {
    if 0 < n - 1 < 21 {
      PlacedLarge(d, n);
    } else if -7 < n - 1 < 0 {
      PlacedTiny(d, n);
    } else {
      PlacedExponent(d[..1], d[1..], "e" + ExponentSign(n - 1), NatText(Magnitude(n - 1)));
    }
  }

  lemma PlacedExponent(first: string, last: string, e: string, digits: string)
    ensures first + (if |last| == 0 then "" else ".") + last + (e + digits)
            == (if |last| == 0 then first else first + "." + last) + e + digits
  {
    if last == [] {
      assert first + "" + last == first;
    }
    var m := first + (if |last| == 0 then "" else ".") + last;
    ConcatAssociates(m, e, digits);
  }

  lemma PlacedFixed(d: string, n: int)
    requires ValidDigits(d) && !Scientific(n)
    ensures Placed(CleanPieces(d, n)) == EsBody(d, n)
  {
    if n <= 0 {
      ConcatAssociates("0.", Zeros(-n), d);
      assert "0" + "." == "0.";
    }
  }

  /** Whatever the notation of the repr text, the placed pieces are the ECMAScript text. */
  lemma PlacedIsEsBody(d: string, n: int)
    requires ValidDigits(d)
    ensures Placed(CleanPieces(d, n)) == EsBody(d, n)
  {
    if Scientific(n) {
      PlacedScientific(d, n);
    } else {
      PlacedFixed(d, n);
    }
  }

  lemma StripSign(neg: bool, d: string, n: int)
    requires ValidDigits(d)
    ensures var text := Sign(neg) + PyRepr(d, n);
            && PyRepr(d, n) != [] && (text[0] == '-' <==> neg)
            && (if neg then text[1..] else text) == PyRepr(d, n)
  {
    assert IsDigit(d[0]);
    assert PyRepr(d, n)[0] == '0' || PyRepr(d, n)[0] == d[0];
  }

  /** The Python SDK's float text: an error for a non-finite float, 0 for both zeros, ECMAScript text otherwise. */
  method PythonFloat(f: Float) returns (r: Result<string>)
    requires Valid(f)
    ensures r == if f.NonFinite? then Err("Invalid JSON number") else Ok(FloatText(f))
  {
    if f.NonFinite? {
      return Err("Invalid JSON number");
    }
    if f.Zero? {
      return Ok("0");
    }
    var text := Sign(f.neg) + PyRepr(f.digits, f.point);
    StripSign(f.neg, f.digits, f.point);
    var sign := if text[0] == '-' then "-" else "";
    if sign != "" {
      text := text[1..];
    }
    var expStr, expVal;
    text, expStr, expVal := CutExponent(text, f.digits, f.point);
    var first, dot, last := SplitPoint(text, f.digits, f.point);
    var body := PlacePoint(Pieces(first, dot, last, expStr, expVal));
    PlacedIsEsBody(f.digits, f.point);
    r := Ok(sign + body);
  }

  // ── Rust ──────────────────────────────────────────────────────────────────

  /** Rust's Display of a magnitude: always fixed notation. */
  function RustDisplay(d: string, n: int): string
    requires d != []
  {
    if n <= 0 then "0." + Zeros(-n) + d
    else if |d| <= n then d + Zeros(n - |d|)
    else d[..n] + "." + d[n..]
  }

  /** Rust's lower-exponential form: no plus sign and no padding. */
  function RustLowerExp(d: string, n: int): string
    requires d != []
  {
    Mantissa(d) + "e" + ExpTail(n)
  }

  /** x times ten to the power e. */
  function Shift(x: real, e: int): real
    decreases if e < 0 then -e else e
  {
    if e == 0 then x else if e > 0 then Shift(10.0 * x, e - 1) else Shift(x / 10.0, e + 1)
  }

  function Pow10(e: int): real {
    Shift(1.0, e)
  }

  /** The number that digits and point denote. */
  function Abs(d: string, n: int): real
    requires AllDigits(d)
  {
    Shift(NatValue(d) as real, n - |d|)
  }

  /** The engine's float text, with the notation chosen by comparing the magnitude with 1e-6 and 1e21. */
  function RustFloat(neg: bool, d: string, n: int): string
    requires d != [] && AllDigits(d)
  {
    if Pow10(-6) <= Abs(d, n) < Pow10(21) then Sign(neg) + RustDisplay(d, n)
    else WithPlus(Sign(neg) + RustLowerExp(d, n))
  }

  function RustFloatText(f: Float): string {
    match f
    case NonFinite => ""
    case Zero(_) => "0"
    case Finite(neg, d, n) => if d == [] || !AllDigits(d) then "" else RustFloat(neg, d, n)
  }

  /** Puts a plus sign after the exponent letter unless a minus sign stands there. */
  function WithPlus(s: string): string {
    var i := Find(s, 'e');
    if 0 <= i < |s| - 1 && s[i + 1] != '-' then s[..i] + "e+" + s[i + 1..] else s
  }

  lemma ShiftStep(x: real, e: int)
    ensures Shift(x, e + 1) == Shift(10.0 * x, e)
  {
  }

  lemma {:induction false} ShiftScales(x: real, e: int)
    ensures Shift(10.0 * x, e) == 10.0 * Shift(x, e)
    decreases if e < 0 then -e else e
  {
    if e > 0 {
      ShiftScales(10.0 * x, e - 1);
    } else if e < 0 {
      ShiftScales(x / 10.0, e + 1);
    }
  }

  lemma {:induction false} ShiftKeepsOrder(x: real, y: real, e: int)
    ensures x < y <==> Shift(x, e) < Shift(y, e)
    decreases if e < 0 then -e else e
  {
    if e > 0 {
      ShiftKeepsOrder(10.0 * x, 10.0 * y, e - 1);
    } else if e < 0 {
      ShiftKeepsOrder(x / 10.0, y / 10.0, e + 1);
    }
  }

  lemma {:induction false} ShiftTwice(x: real, k: nat, e: int)
    ensures Shift(Shift(x, k), e) == Shift(x, k + e)
    decreases k
  {
    if k > 0 {
      ShiftTwice(10.0 * x, k - 1, e);
      ShiftStep(x, k + e - 1);
    }
  }

  lemma {:induction false} Pow10Positive(e: int)
    ensures 0.0 < Pow10(e)
  {
    ShiftKeepsOrder(0.0, 1.0, e);
    ShiftZero(e);
  }

  lemma {:induction false} ShiftZero(e: int)
    ensures Shift(0.0, e) == 0.0
    decreases if e < 0 then -e else e
  {
    if e > 0 {
      ShiftZero(e - 1);
    } else if e < 0 {
      ShiftZero(e + 1);
    }
  }

  lemma Pow10Step(e: int)
    ensures Pow10(e + 1) == 10.0 * Pow10(e)
  {
    ShiftStep(1.0, e);
    ShiftScales(1.0, e);
  }

  lemma {:induction false} Pow10Monotone(a: int, b: int)
    requires a <= b
    ensures Pow10(a) <= Pow10(b)
    decreases b - a
  {
    if a < b {
      Pow10Monotone(a, b - 1);
      Pow10Step(b - 1);
      Pow10Positive(b - 1);
    }
  }

  /** k digits denote a number below ten to the k, and at least ten to the k-1 if the first digit is not zero. */
  lemma {:induction false} DigitsBound(d: string) returns (p: nat)
    requires AllDigits(d)
    ensures Pow10(|d|) == p as real && NatValue(d) < p
    ensures d != [] && d[0] != '0' ==> Pow10(|d| - 1) <= NatValue(d) as real
    decreases |d|
  {
    if d == [] {
      p := 1;
    } else {
      var k := |d| - 1;
      var q := DigitsBound(d[..k]);
      Pow10Step(k);
      p := 10 * q;
      assert NatValue(d) == NatValue(d[..k]) * 10 + DigitValue(d[k]);
      if d[0] != '0' {
        if k > 0 {
          assert d[..k][0] == d[0];
          Pow10Step(k - 1);
          assert NatValue(d) as real >= NatValue(d[..k]) as real * 10.0;
        }
      }
    }
  }

  /** The number denoted lies between ten to the n-1 and ten to the n. */
  lemma AbsBounds(d: string, n: int)
    requires IsDecimal(d)
    ensures Pow10(n - 1) <= Abs(d, n) < Pow10(n)
  {
    var k := |d|;
    var p := DigitsBound(d);
    ShiftTwice(1.0, k, n - k);
    ShiftTwice(1.0, k - 1, n - k);
    ShiftKeepsOrder(NatValue(d) as real, Pow10(k), n - k);
    ShiftKeepsOrder(NatValue(d) as real, Pow10(k - 1), n - k);
  }

  /** Comparing the magnitude with 1e-6 and 1e21 is comparing the point position with -6 and 21. */
  lemma FixedRange(d: string, n: int)
    requires ValidDigits(d)
    ensures Pow10(-6) <= Abs(d, n) < Pow10(21) <==> -6 < n <= 21
  {
    AbsBounds(d, n);
    if n <= -6 {
      Pow10Monotone(n, -6);
    } else {
      Pow10Monotone(-6, n - 1);
    }
    if n <= 21 {
      Pow10Monotone(n, 21);
    } else {
      Pow10Monotone(21, n - 1);
    }
  }

  function ExpTail(n: int): string {
    (if n - 1 < 0 then "-" else "") + NatText(Magnitude(n - 1))
  }

  lemma ExpTailStart(n: int)
    ensures ExpTail(n) != [] && (ExpTail(n)[0] == '-' <==> n - 1 < 0)
  {
    NatTextRoundTrip(Magnitude(n - 1));
  }

  lemma LowerExpFind(neg: bool, d: string, n: int)
    requires ValidDigits(d)
    ensures var s := Sign(neg) + RustLowerExp(d, n); var head := Sign(neg) + Mantissa(d);
            Find(s, 'e') == |head| && s[..|head|] == head && s[|head| + 1..] == ExpTail(n)
  {
    var head := Sign(neg) + Mantissa(d);
    MantissaParts(d);
    SplitAt(head, 'e', ExpTail(n));
    assert Sign(neg) + RustLowerExp(d, n) == head + ['e'] + ExpTail(n);
  }

  /** The engine's text is the ECMAScript text, and so the SDK's. */
  lemma RustFloatIsEsText(neg: bool, d: string, n: int)
    requires ValidDigits(d)
    ensures RustFloat(neg, d, n) == EsText(neg, d, n)
  {
    FixedRange(d, n);
    if -6 < n <= 21 {
      assert RustFloat(neg, d, n) == Sign(neg) + RustDisplay(d, n);
    } else {
      ExponentialIsEsText(neg, d, n);
    }
  }

  lemma RustFloatTextIsFloatText(f: Float)
    requires Valid(f)
    ensures RustFloatText(f) == FloatText(f)
  {
    if f.Finite? {
      RustFloatIsEsText(f.neg, f.digits, f.point);
    }
  }

  lemma WithPlusSplits(head: string, tail: string)
    requires Find(head + ['e'] + tail, 'e') == |head| && tail != []
    ensures WithPlus(head + ['e'] + tail) == head + (if tail[0] == '-' then "e" else "e+") + tail
  {
    var s := head + ['e'] + tail;
    assert s[..|head|] == head && s[|head| + 1..] == tail;
  }

  lemma Regroup(sign: string, m: string, plus: string, tail: string)
    ensures sign + m + ("e" + plus) + tail == sign + (m + "e" + plus + tail)
    ensures sign + m + "e" + (plus + tail) == sign + (m + "e" + plus + tail)
  {
  }

  lemma LowerExpSplits(neg: bool, d: string, n: int)
    requires ValidDigits(d)
    ensures Sign(neg) + RustLowerExp(d, n) == Sign(neg) + Mantissa(d) + ['e'] + ExpTail(n)
  {
  }

  /** The exponential text with its sign made explicit, for any pieces. */
  lemma PlusPlaced(sign: string, m: string, negative: bool, digits: string)
    requires var tail := (if negative then "-" else "") + digits;
             Find(sign + m + ['e'] + tail, 'e') == |sign + m| && tail != [] && (tail[0] == '-' <==> negative)
    ensures WithPlus(sign + m + ['e'] + ((if negative then "-" else "") + digits))
            == sign + (m + "e" + (if negative then "-" else "+") + digits)
  {
    var tail := (if negative then "-" else "") + digits;
    WithPlusSplits(sign + m, tail);
    Regroup(sign, m, if negative then "-" else "+", digits);
    assert negative || tail == digits;
  }

  lemma ExponentialIsEsText(neg: bool, d: string, n: int)
    requires ValidDigits(d) && !(-6 < n <= 21)
    ensures WithPlus(Sign(neg) + RustLowerExp(d, n)) == EsText(neg, d, n)
  {
    LowerExpFind(neg, d, n);
    LowerExpSplits(neg, d, n);
    ExpTailStart(n);
    PlusPlaced(Sign(neg), Mantissa(d), n - 1 < 0, NatText(Magnitude(n - 1)));
  }
}
