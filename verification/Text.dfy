/** Decimal and hexadecimal text, and the code point order of strings. */
module Text {
  import opened Types

  predicate IsDigit(c: char) {
    '0' <= c <= '9'
  }

  function DigitChar(d: nat): (c: char)
    requires d < 10
    ensures IsDigit(c) && DigitValue(c) == d
  {
    "0123456789"[d]
  }

  function DigitValue(c: char): (d: nat)
    requires IsDigit(c)
    ensures d < 10
  {
    c as int - '0' as int
  }

  /** Decimal text without leading zeros. */
  function NatText(n: nat): string {
    if n < 10 then [DigitChar(n)] else NatText(n / 10) + [DigitChar(n % 10)]
  }

  function IntText(n: int): string {
    if n < 0 then "-" + NatText(-n) else NatText(n)
  }

  predicate AllDigits(s: string) {
    forall i :: 0 <= i < |s| ==> IsDigit(s[i])
  }

  function NatValue(s: string): nat
    requires AllDigits(s)
  {
    if s == [] then 0 else NatValue(s[..|s| - 1]) * 10 + DigitValue(s[|s| - 1])
  }

  lemma {:induction false} NatTextRoundTrip(n: nat)
    ensures NatText(n) != [] && AllDigits(NatText(n)) && NatValue(NatText(n)) == n
    ensures n > 0 ==> NatText(n)[0] != '0'
    ensures n < 10 <==> |NatText(n)| == 1
  {
    var t := NatText(n);
    if n >= 10 {
      NatTextRoundTrip(n / 10);
      assert t[..|t| - 1] == NatText(n / 10);
    } else {
      assert t[..|t| - 1] == [];
    }
  }

  // ── Hexadecimal code units ────────────────────────────────────────────────

  function HexChar(d: nat): (c: char)
    requires d < 16
  {
    "0123456789abcdef"[d]
  }

  function HexValue(c: char): Option<nat> {
    if '0' <= c <= '9' then Some(c as int - '0' as int)
    else if 'a' <= c <= 'f' then Some(c as int - 'a' as int + 10)
    else None
  }

  lemma HexCharRoundTrip(d: nat)
    requires d < 16
    ensures HexValue(HexChar(d)) == Some(d)
  {
    if d < 10 {
      assert HexChar(d) == "0123456789"[d];
    } else {
      assert HexChar(d) == "abcdef"[d - 10];
    }
  }

  /** Four lowercase hexadecimal digits. */
  function Hex4(u: nat): (s: string)
    requires u < 0x10000
    ensures |s| == 4
  {
    [HexChar(u / 16 / 16 / 16), HexChar(u / 16 / 16 % 16), HexChar(u / 16 % 16), HexChar(u % 16)]
  }

  function Hex4Value(s: string): Option<nat>
    requires |s| == 4
  {
    match (HexValue(s[0]), HexValue(s[1]), HexValue(s[2]), HexValue(s[3]))
    case (Some(a), Some(b), Some(c), Some(d)) => Some(((a * 16 + b) * 16 + c) * 16 + d)
    case _ => None
  }

  lemma Hex4RoundTrip(u: nat)
    requires u < 0x10000
    ensures Hex4Value(Hex4(u)) == Some(u)
  {
    HexCharRoundTrip(u / 16 / 16 / 16);
    HexCharRoundTrip(u / 16 / 16 % 16);
    HexCharRoundTrip(u / 16 % 16);
    HexCharRoundTrip(u % 16);
  }

  // ── Code point order ──────────────────────────────────────────────────────

  predicate StrLe(a: string, b: string) {
    a == [] || (b != [] && (a[0] < b[0] || (a[0] == b[0] && StrLe(a[1..], b[1..]))))
  }

  lemma {:induction false} StrLeTotal(a: string, b: string)
    ensures StrLe(a, b) || StrLe(b, a)
    ensures StrLe(a, b) && StrLe(b, a) ==> a == b
  {
    if a != [] && b != [] && a[0] == b[0] {
      StrLeTotal(a[1..], b[1..]);
      assert a == [a[0]] + a[1..] && b == [b[0]] + b[1..];
    }
  }

  lemma {:induction false} StrLeTransitive(a: string, b: string, c: string)
    requires StrLe(a, b) && StrLe(b, c)
    ensures StrLe(a, c)
  {
    if a != [] && b != [] && c != [] && a[0] == b[0] == c[0] {
      StrLeTransitive(a[1..], b[1..], c[1..]);
    }
  }

  ghost predicate Sorted(keys: seq<string>) {
    forall i, j :: 0 <= i < j < |keys| ==> StrLe(keys[i], keys[j])
  }

  function InsertKey(k: string, keys: seq<string>): seq<string> {
    if keys == [] || StrLe(k, keys[0]) then [k] + keys else [keys[0]] + InsertKey(k, keys[1..])
  }

  function SortKeys(keys: seq<string>): seq<string> {
    if keys == [] then [] else InsertKey(keys[0], SortKeys(keys[1..]))
  }

  lemma {:induction false} InsertKeyKeeps(k: string, keys: seq<string>)
    requires Sorted(keys)
    ensures var r := InsertKey(k, keys);
            && Sorted(r)
            && (forall x :: x in r <==> x in keys || x == k)
            && (k !in keys && Distinct(keys) ==> Distinct(r))
    decreases |keys|
  {
    if keys != [] {
      var head, tail := keys[0], keys[1..];
      assert keys == [head] + tail;
      StrLeTotal(k, head);
      if StrLe(k, head) {
        forall i | 0 <= i < |keys| ensures StrLe(k, keys[i]) {
          if i > 0 { StrLeTransitive(k, head, keys[i]); }
        }
      } else {
        InsertKeyKeeps(k, tail);
        var r := InsertKey(k, tail);
        forall i | 0 <= i < |r| ensures StrLe(head, r[i]) {
          assert r[i] in r;
          if r[i] in tail {
            var j :| 0 <= j < |tail| && tail[j] == r[i];
            assert keys[j + 1] == r[i];
          }
        }
        assert k !in keys && Distinct(keys) ==> head !in tail && head !in r;
      }
    }
  }

  lemma {:induction false} SortKeysSorts(keys: seq<string>)
    ensures var r := SortKeys(keys);
            && Sorted(r)
            && (forall x :: x in r <==> x in keys)
            && (Distinct(keys) ==> Distinct(r))
    decreases |keys|
  {
    if keys != [] {
      SortKeysSorts(keys[1..]);
      InsertKeyKeeps(keys[0], SortKeys(keys[1..]));
      assert forall x :: x in keys <==> x == keys[0] || x in keys[1..];
    }
  }

  /** A sorted list of distinct keys is determined by its set of keys. */
  lemma {:induction false} SortedIsUnique(a: seq<string>, b: seq<string>)
    requires Sorted(a) && Sorted(b) && Distinct(a) && Distinct(b)
    requires forall x :: x in a <==> x in b
    ensures a == b
    decreases |a|
  {
    SameEmptiness(a, b);
    if a != [] {
      SortedSameHead(a, b);
      SortedIsUnique(a[1..], b[1..]);
      assert a == [a[0]] + a[1..] && b == [b[0]] + b[1..];
    }
  }

  lemma SameEmptiness(a: seq<string>, b: seq<string>)
    requires forall x :: x in a <==> x in b
    ensures a == [] <==> b == []
  {
    if a != [] {
      assert a[0] in a;
    }
    if b != [] {
      assert b[0] in b;
    }
  }

  lemma SortedSameHead(a: seq<string>, b: seq<string>)
    requires a != [] && b != [] && Sorted(a) && Sorted(b) && Distinct(a) && Distinct(b)
    requires forall x :: x in a <==> x in b
    ensures a[0] == b[0]
    ensures forall x :: x in a[1..] <==> x in b[1..]
  {
    assert a[0] in a && b[0] in b;
    var i :| 0 <= i < |b| && b[i] == a[0];
    var j :| 0 <= j < |a| && a[j] == b[0];
    StrLeTotal(a[0], b[0]);
    assert forall x :: x in a <==> x == a[0] || x in a[1..];
    assert forall x :: x in b <==> x == b[0] || x in b[1..];
    assert a[0] !in a[1..] && b[0] !in b[1..];
  }
}
