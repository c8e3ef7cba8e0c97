/**
 Monthly partitions of the effect log: their names, the window that is ensured ahead of time, and the
 retention cut-off, with the machine integers of the arithmetic written out.
 */
module Partitions {
  import opened Types
  import opened Text

  // ── Months and dates ──────────────────────────────────────────────────────

  datatype Month = Month(year: int, month: int)

  /** Months counted through from year zero. */
  function Index(m: Month): int {
    m.year * 12 + m.month - 1
  }

  function FromIndex(i: int): Month {
    Month(i / 12, i % 12 + 1)
  }

  lemma IndexRoundTrip(m: Month)
    requires 1 <= m.month <= 12
    ensures FromIndex(Index(m)) == m
  {
  }

  lemma FromIndexRoundTrip(i: int)
    ensures Index(FromIndex(i)) == i && 1 <= FromIndex(i).month <= 12
  {
  }

  const MIN_YEAR := -262143
  const MAX_YEAR := 262142

  /** The calendar has a first day of this month. */
  predicate IsDate(m: Month) {
    MIN_YEAR <= m.year <= MAX_YEAR && 1 <= m.month <= 12
  }

  function NextMonth(m: Month): Month {
    if m.month == 12 then Month(m.year + 1, 1) else Month(m.year, m.month + 1)
  }

  lemma NextMonthIndex(m: Month)
    requires 1 <= m.month <= 12
    ensures Index(NextMonth(m)) == Index(m) + 1 && NextMonth(m) == FromIndex(Index(m) + 1)
  {
    assert Index(NextMonth(m)) == Index(m) + 1;
    IndexRoundTrip(NextMonth(m));
  }

  /** The order of dates, on firsts of months. */
  predicate Before(a: Month, b: Month) {
    a.year < b.year || (a.year == b.year && a.month < b.month)
  }

  lemma BeforeIffIndex(a: Month, b: Month)
    requires 1 <= a.month <= 12 && 1 <= b.month <= 12
    ensures Before(a, b) <==> Index(a) < Index(b)
  {
  }

  /** A partition covers a month: from its first day to the first day of the next. */
  predicate IsPartition(m: Month) {
    IsDate(m) && IsDate(NextMonth(m))
  }

  // ── Names ─────────────────────────────────────────────────────────────────

  const PREFIX := "undolog_effect_log_"

  function TwoDigits(n: nat): string {
    if n < 10 then "0" + NatText(n) else NatText(n)
  }

  function Name(m: Month): string
    requires 0 <= m.month
  {
    PREFIX + (IntText(m.year) + ("_" + TwoDigits(m.month)))
  }

  function SplitOn(s: string, c: char): seq<string> {
    if s == [] then [[]]
    else
      var rest := SplitOn(s[1..], c);
      if s[0] == c then [[]] + rest else if rest == [] then [] else [[s[0]] + rest[0]] + rest[1..]
  }

  function Digits(s: string): Option<nat> {
    if s != [] && AllDigits(s) then Some(NatValue(s)) else None
  }

  /** A signed 32-bit integer: optional sign, digits, in range. */
  function ParseI32(s: string): Option<int> {
    var negative := s != [] && s[0] == '-';
    match Digits(if s != [] && (s[0] == '-' || s[0] == '+') then s[1..] else s)
    case None => None
    case Some(n) =>
      var v: int := if negative then 0 - n else n;
      if -0x8000_0000 <= v < 0x8000_0000 then Some(v) else None
  }

  function ParseU32(s: string): Option<nat> {
    match Digits(if s != [] && s[0] == '+' then s[1..] else s)
    case None => None
    case Some(n) => if n < 0x1_0000_0000 then Some(n) else None
  }

  /** The month a partition name stands for; None for a table that is no monthly partition. */
  function ParsePartition(name: string): Option<Month> {
    if !(PREFIX <= name) then None
    else
      var parts := SplitOn(name[|PREFIX|..], '_');
      if |parts| != 2 then None
      else
        match (ParseI32(parts[0]), ParseU32(parts[1]))
        case (Some(year), Some(month)) =>
          (var m := Month(year, month); if 1 <= month <= 12 && IsPartition(m) then Some(m) else None)
        case _ => None
  }

  lemma {:induction false} SplitNone(s: string, c: char)
    requires c !in s
    ensures SplitOn(s, c) == [s]
    decreases |s|
  {
    if s != [] {
      SplitNone(s[1..], c);
      assert [s[0]] + s[1..] == s;
    }
  }

  lemma {:induction false} SplitOnce(a: string, b: string, c: char)
    requires c !in a && c !in b
    ensures SplitOn(a + ([c] + b), c) == [a, b]
    decreases |a|
  {
    var s := a + ([c] + b);
    if a == [] {
      assert s[1..] == b;
      SplitNone(b, c);
    } else {
      assert s[1..] == a[1..] + ([c] + b);
      SplitOnce(a[1..], b, c);
      assert [a[0]] + a[1..] == a;
    }
  }

  lemma PositiveYearText(y: int)
    requires 0 <= y < 0x8000_0000
    ensures '_' !in IntText(y) && ParseI32(IntText(y)) == Some(y)
  {
    NatTextRoundTrip(y);
    assert IsDigit(NatText(y)[0]);
    assert Digits(NatText(y)) == Some(y);
  }

  lemma MinusText(digits: string, m: nat)
    requires '_' !in digits && Digits(digits) == Some(m) && m <= 0x8000_0000
    ensures '_' !in "-" + digits && ParseI32("-" + digits) == Some(0 - m)
  {
    assert ("-" + digits)[1..] == digits;
  }

  lemma NegativeYearText(y: int)
    requires -0x8000_0000 <= y < 0
    ensures '_' !in IntText(y) && ParseI32(IntText(y)) == Some(y)
  {
    NatTextRoundTrip(-y);
    MinusText(NatText(-y), -y);
  }

  lemma MonthText(m: nat)
    requires 1 <= m <= 12
    ensures '_' !in TwoDigits(m) && ParseU32(TwoDigits(m)) == Some(m)
  {
    NatTextRoundTrip(m);
    if m < 10 {
      var t := TwoDigits(m);
      assert t == "0" + NatText(m) && t[..1] == "0" && t[..|t| - 1] == "0";
      assert |NatText(m)| == 1;
      assert NatValue("0") == 0;
      assert NatValue(t) == NatValue(t[..1]) * 10 + DigitValue(t[1]);
      assert NatValue(NatText(m)) == DigitValue(NatText(m)[0]);
    } else {
      assert IsDigit(NatText(m)[0]);
    }
  }

  lemma NameParses(text: string, m: Month)
    requires '_' !in text && ParseI32(text) == Some(m.year) && IsPartition(m)
    ensures ParsePartition(PREFIX + (text + ("_" + TwoDigits(m.month)))) == Some(m)
  {
    MonthText(m.month);
    SplitOnce(text, TwoDigits(m.month), '_');
    var name := PREFIX + (text + ("_" + TwoDigits(m.month)));
    assert name[|PREFIX|..] == text + ("_" + TwoDigits(m.month));
  }

  /** Every partition name reads back as its month. */
  lemma NameRoundTrip(m: Month)
    requires IsPartition(m)
    ensures ParsePartition(Name(m)) == Some(m)
  {
    if m.year < 0 {
      NegativeYearText(m.year);
    } else {
      PositiveYearText(m.year);
    }
    NameParses(IntText(m.year), m);
  }

  lemma NamesDiffer(m: Month, n: Month)
    requires IsPartition(m) && IsPartition(n) && Name(m) == Name(n)
    ensures m == n
  {
    NameRoundTrip(m);
    NameRoundTrip(n);
  }

  // ── The window ahead ──────────────────────────────────────────────────────

  function TruncDiv(a: int, b: int): int
    requires b > 0
  {
    if a >= 0 then a / b else -((-a) / b)
  }

  function TruncMod(a: int, b: int): int
    requires b > 0
  {
    a - TruncDiv(a, b) * b
  }

  /** The month at an offset from the current one, as the loop computes it. */
  function Ahead(now: Month, offset: nat): Month
    requires 1 <= now.month
  {
    var m := now.month + offset;
    Month(now.year + TruncDiv(m - 1, 12), (m - 1) % 12 + 1)
  }

  lemma AheadIsIndex(now: Month, offset: nat)
    requires 1 <= now.month <= 12
    ensures Ahead(now, offset) == FromIndex(Index(now) + offset)
  {
  }

  /** Consecutive months of the window have touching ranges, across year ends too. */
  lemma WindowTouches(now: Month, offset: nat)
    requires 1 <= now.month <= 12
    ensures NextMonth(Ahead(now, offset)) == Ahead(now, offset + 1)
    ensures Index(Ahead(now, offset)) == Index(now) + offset
  {
    AheadIsIndex(now, offset);
    AheadIsIndex(now, offset + 1);
    FromIndexRoundTrip(Index(now) + offset);
    NextMonthIndex(Ahead(now, offset));
  }

  /** Every month from the current one to the last of the window can be a partition. */
  predicate WindowFits(now: Month, months: nat)
    requires 1 <= now.month
  {
    months > 0 ==> IsPartition(Ahead(now, months - 1))
  }

  lemma WindowFitsAll(now: Month, months: nat, offset: nat)
    requires IsDate(now) && WindowFits(now, months) && offset < months
    ensures IsPartition(Ahead(now, offset))
  {
    AheadIsIndex(now, offset);
    AheadIsIndex(now, months - 1);
  }

  // ── The cut-off ───────────────────────────────────────────────────────────

  function AsI32(n: nat): int
    requires n < 0x1_0000_0000
  {
    if n < 0x8000_0000 then n else n - 0x1_0000_0000
  }

  function AsU32(n: int): nat
    requires -0x8000_0000 <= n < 0x8000_0000
  {
    if n < 0 then n + 0x1_0000_0000 else n
  }

  /** The first month to keep; None when the arithmetic leaves the integer type or the calendar. */
  function Cutoff(now: Month, retention: nat): Option<Month>
    requires IsDate(now) && retention < 0x1_0000_0000
  {
    var total := (now.year * 12 + now.month) - AsI32(retention);
    if !(-0x8000_0000 <= total < 0x8000_0000) then None
    else
      var month := AsU32(TruncMod(total, 12)) + 1;
      var m := Month(TruncDiv(total, 12), month);
      if month < 0x1_0000_0000 && IsDate(m) then Some(m) else None
  }

  /** The cut-off is the retention period counted back from the current month inclusive. */
  lemma CutoffIndex(now: Month, retention: nat)
    requires IsDate(now) && retention < 0x1_0000_0000
    ensures Cutoff(now, retention).Some? ==> Index(Cutoff(now, retention).value) == Index(now) + 1 - AsI32(retention)
                                             && 1 <= Cutoff(now, retention).value.month <= 12
  {
  }

  /** It exists exactly when the month counted to falls in the calendar and is not in a year before zero other than a January. */
  lemma CutoffExistsIff(now: Month, retention: nat)
    requires IsDate(now) && retention < 0x1_0000_0000
    ensures Cutoff(now, retention).Some? <==>
              var i := Index(now) + 1 - AsI32(retention);
              MIN_YEAR * 12 <= i < (MAX_YEAR + 1) * 12 && (i >= 0 || i % 12 == 0)
  {
  }
}
