/**
 Canonical JSON as the Rust engine prints it, and exactly where the two printers agree. Rust prints
 every member first and sorts the printed pairs, leaves object keys unescaped, and keeps non-ASCII
 characters as they are.
 */
module RustJson {
  import opened Types
  import opened Text
  import opened CanonicalJson
  import NumberText
  import Utf8

  // ── The Rust printer ──────────────────────────────────────────────────────

  /** Escaping of one character of a string value. */
  function RustEscapeChar(c: char): string {
    if c as int < 0x80 then EscapeChar(c) else [c]
  }

  function RustEscapeChars(s: string): string {
    if s == [] then [] else RustEscapeChar(s[0]) + RustEscapeChars(s[1..])
  }

  datatype Pair = Pair(key: string, text: string)

  /** Rust compares strings by their UTF-8 bytes. */
  predicate KeyLe(a: string, b: string) {
    Utf8.BytesLe(Utf8.Encode(a), Utf8.Encode(b))
  }

  function InsertPair(p: Pair, pairs: seq<Pair>): seq<Pair> {
    if pairs == [] || KeyLe(p.key, pairs[0].key) then [p] + pairs else [pairs[0]] + InsertPair(p, pairs[1..])
  }

  /** The sort of the printed pairs by key. */
  function SortPairs(pairs: seq<Pair>): seq<Pair> {
    if pairs == [] then [] else InsertPair(pairs[0], SortPairs(pairs[1..]))
  }

  function PairTexts(pairs: seq<Pair>): seq<string> {
    if pairs == [] then [] else ["\"" + pairs[0].key + "\"" + ":" + pairs[0].text] + PairTexts(pairs[1..])
  }

  function RustPrint(v: Json): string
    decreases v
  {
    match v
    case Null => "null"
    case Bool(b) => if b then "true" else "false"
    case Int(n) => IntText(n)
    case Num(f) => NumberText.RustFloatText(f)
    case Str(s) => "\"" + RustEscapeChars(s) + "\""
    case Arr(items) => "[" + Join(RustItems(items)) + "]"
    case Obj(fields) => "{" + Join(PairTexts(SortPairs(RustPairs(fields)))) + "}"
  }

  function RustItems(items: seq<Json>): (r: seq<string>)
    ensures |r| == |items|
    decreases items
  {
    if items == [] then [] else [RustPrint(items[0])] + RustItems(items[1..])
  }

  function RustPairs(fields: seq<Field>): (r: seq<Pair>)
    ensures |r| == |fields|
    decreases fields
  {
    if fields == [] then [] else [Pair(fields[0].key, RustPrint(fields[0].value))] + RustPairs(fields[1..])
  }

  // ── Sorting printed pairs is printing in sorted order ─────────────────────

  function PairKeys(pairs: seq<Pair>): (ks: seq<string>)
    ensures |ks| == |pairs|
  {
    if pairs == [] then [] else [pairs[0].key] + PairKeys(pairs[1..])
  }

  lemma {:induction false} InsertPairKeys(p: Pair, pairs: seq<Pair>)
    ensures PairKeys(InsertPair(p, pairs)) == InsertKey(p.key, PairKeys(pairs))
    ensures forall q :: q in InsertPair(p, pairs) <==> q in pairs || q == p
    decreases |pairs|
  {
    if pairs != [] {
      assert PairKeys(pairs)[1..] == PairKeys(pairs[1..]);
      assert forall q :: q in pairs <==> q == pairs[0] || q in pairs[1..];
      Utf8.ByteOrderIsCodePointOrder(p.key, pairs[0].key);
      if KeyLe(p.key, pairs[0].key) {
        assert ([p] + pairs)[1..] == pairs;
      } else {
        InsertPairKeys(p, pairs[1..]);
        var r := InsertPair(p, pairs[1..]);
        assert ([pairs[0]] + r)[1..] == r;
      }
    }
  }

  lemma {:induction false} SortPairsKeys(pairs: seq<Pair>)
    ensures PairKeys(SortPairs(pairs)) == SortKeys(PairKeys(pairs))
    ensures forall q :: q in SortPairs(pairs) <==> q in pairs
    decreases |pairs|
  {
    if pairs != [] {
      SortPairsKeys(pairs[1..]);
      InsertPairKeys(pairs[0], SortPairs(pairs[1..]));
      assert PairKeys(pairs)[1..] == PairKeys(pairs[1..]);
      assert forall q :: q in pairs <==> q == pairs[0] || q in pairs[1..];
    }
  }

  /** The members in the order of the given keys. */
  function RustMembers(fields: seq<Field>, keys: seq<string>): (r: seq<string>)
    requires forall k :: k in keys ==> k in Keys(fields)
    ensures |r| == |keys|
  {
    if keys == [] then []
    else
      assert keys[0] in keys;
      ["\"" + keys[0] + "\"" + ":" + RustPrint(Lookup(fields, keys[0]))] + RustMembers(fields, keys[1..])
  }

  lemma {:induction false} RustPairsLookup(fields: seq<Field>)
    requires Distinct(Keys(fields))
    ensures PairKeys(RustPairs(fields)) == Keys(fields)
    ensures forall p :: p in RustPairs(fields) ==> p.key in Keys(fields) && p.text == RustPrint(Lookup(fields, p.key))
    decreases |fields|
  {
    if fields != [] {
      var head, tail := fields[0], fields[1..];
      assert Keys(fields)[1..] == Keys(tail);
      RustPairsLookup(tail);
      forall p | p in RustPairs(fields)
        ensures p.key in Keys(fields) && p.text == RustPrint(Lookup(fields, p.key))
      {
        if p in RustPairs(tail) {
          var i :| 0 <= i < |Keys(tail)| && Keys(tail)[i] == p.key;
          assert Keys(fields)[i + 1] == p.key;
          assert head.key != p.key;
        } else {
          assert p == Pair(head.key, RustPrint(head.value));
          assert Keys(fields)[0] == p.key;
        }
      }
    }
  }

  lemma {:induction false} PairTextsAreMembers(fields: seq<Field>, pairs: seq<Pair>)
    requires forall p :: p in pairs ==> p.key in Keys(fields) && p.text == RustPrint(Lookup(fields, p.key))
    ensures forall k :: k in PairKeys(pairs) ==> k in Keys(fields)
    ensures PairTexts(pairs) == RustMembers(fields, PairKeys(pairs))
    decreases |pairs|
  {
    if pairs != [] {
      assert pairs[0] in pairs;
      PairTextsAreMembers(fields, pairs[1..]);
      assert PairKeys(pairs)[1..] == PairKeys(pairs[1..]);
    }
  }

  lemma RustObjInKeyOrder(fields: seq<Field>)
    requires Distinct(Keys(fields))
    ensures forall k :: k in SortKeys(Keys(fields)) ==> k in Keys(fields)
    ensures RustPrint(Obj(fields)) == "{" + Join(RustMembers(fields, SortKeys(Keys(fields)))) + "}"
  {
    RustPairsLookup(fields);
    SortPairsKeys(RustPairs(fields));
    PairTextsAreMembers(fields, SortPairs(RustPairs(fields)));
  }

  // ── Where the two printers agree ──────────────────────────────────────────

  predicate PlainChar(c: char) {
    0x20 <= c as int < 0x80 && c != '"' && c != '\\'
  }

  predicate Plain(s: string) {
    forall i :: 0 <= i < |s| ==> PlainChar(s[i])
  }

  predicate Ascii(s: string) {
    forall i :: 0 <= i < |s| ==> s[i] as int < 0x80
  }

  /** String values are ASCII and object keys need no escaping, at every depth. */
  ghost predicate Common(v: Json) {
    match v
    case Str(s) => Ascii(s)
    case Arr(items) => forall i :: 0 <= i < |items| ==> Common(items[i])
    case Obj(fields) => forall i :: 0 <= i < |fields| ==> Plain(fields[i].key) && Common(fields[i].value)
    case _ => true
  }

  /** Texts q and p of one part: q is never longer, and as long only if it is the same text, which happens exactly when `same`. */
  ghost predicate Tight(q: string, p: string, same: bool) {
    |q| <= |p| && (|q| == |p| <==> same) && (same ==> q == p)
  }

  lemma {:induction false} StringsTight(s: string)
    ensures Tight(RustEscapeChars(s), EscapeChars(s), Ascii(s))
    decreases |s|
  {
    if s != [] {
      StringsTight(s[1..]);
      assert Ascii(s) <==> s[0] as int < 0x80 && Ascii(s[1..]);
    }
  }

  lemma {:induction false} KeysTight(s: string)
    ensures Tight(s, EscapeChars(s), Plain(s))
    decreases |s|
  {
    if s != [] {
      KeysTight(s[1..]);
      assert s == [s[0]] + s[1..];
      assert Plain(s) <==> PlainChar(s[0]) && Plain(s[1..]);
    }
  }

  lemma {:induction false} JoinTight(qs: seq<string>, ps: seq<string>, same: seq<bool>)
    requires |qs| == |ps| == |same|
    requires forall i :: 0 <= i < |qs| ==> Tight(qs[i], ps[i], same[i])
    ensures Tight(Join(qs), Join(ps), forall i :: 0 <= i < |same| ==> same[i])
    decreases |qs|
  {
    if |qs| > 1 {
      JoinTight(qs[1..], ps[1..], same[1..]);
      var rest := forall i :: 0 <= i < |same[1..]| ==> same[1..][i];
      assert (forall i :: 0 <= i < |same| ==> same[i]) <==> same[0] && rest by {
        assert forall i :: 0 < i < |same| ==> same[i] == same[1..][i - 1];
      }
    }
  }

  lemma {:induction false} LookupAt(fields: seq<Field>, i: nat)
    requires Distinct(Keys(fields)) && i < |fields|
    ensures Keys(fields)[i] in Keys(fields) && Lookup(fields, fields[i].key) == fields[i].value
    decreases |fields|
  {
    if i > 0 {
      assert Keys(fields)[1..] == Keys(fields[1..]);
      assert Keys(fields)[0] != Keys(fields)[i];
      LookupAt(fields[1..], i - 1);
    }
  }

  lemma {:induction false} ItemsAt(items: seq<Json>, i: nat)
    requires i < |items|
    ensures |PrintItems(items)| == |items| && PrintItems(items)[i] == Print(items[i])
    ensures RustItems(items)[i] == RustPrint(items[i])
    decreases |items|
  {
    if |items| > 1 {
      ItemsAt(items[1..], if i > 0 then i - 1 else 0);
    }
  }

  lemma {:induction false} MembersAt(fields: seq<Field>, keys: seq<string>, i: nat)
    requires i < |keys| && forall k :: k in keys ==> k in Keys(fields)
    ensures keys[i] in keys && |PrintMembers(fields, keys)| == |keys|
    ensures PrintMembers(fields, keys)[i] == Quote(keys[i]) + ":" + Print(Lookup(fields, keys[i]))
    ensures RustMembers(fields, keys)[i] == "\"" + keys[i] + "\"" + ":" + RustPrint(Lookup(fields, keys[i]))
    decreases |keys|
  {
    if |keys| > 1 {
      MembersAt(fields, keys[1..], if i > 0 then i - 1 else 0);
    }
  }

  /** Rust's text is never longer than Python's, and as long only if the two are equal, which happens exactly on common values. */
  lemma {:induction false} PrintersTight(v: Json)
    requires WellFormed(v)
    ensures Tight(RustPrint(v), Print(v), Common(v))
    decreases v
  {
    match v
    case Num(f) => NumberText.RustFloatTextIsFloatText(f);
    case Str(s) => StringsTight(s);
    case Arr(items) => ItemsTight(items);
    case Obj(fields) => FieldsTight(fields);
    case _ =>
  }

  lemma {:induction false} ItemsTight(items: seq<Json>)
    requires WellFormed(Arr(items))
    ensures Tight(RustPrint(Arr(items)), Print(Arr(items)), Common(Arr(items)))
    decreases items
  {
    if items != [] {
      ItemsAt(items, 0);
      var same := seq(|items|, i requires 0 <= i < |items| => Common(items[i]));
      forall i | 0 <= i < |items| ensures Tight(RustItems(items)[i], PrintItems(items)[i], same[i]) {
        ItemsAt(items, i);
        PrintersTight(items[i]);
      }
      JoinTight(RustItems(items), PrintItems(items), same);
      assert forall i :: 0 <= i < |items| ==> same[i] == Common(items[i]);
      assert Common(Arr(items)) == forall i :: 0 <= i < |items| ==> Common(items[i]);
    }
  }

  lemma {:induction false} FieldsTight(fields: seq<Field>)
    requires WellFormed(Obj(fields))
    ensures Tight(RustPrint(Obj(fields)), Print(Obj(fields)), Common(Obj(fields)))
    decreases fields
  {
    var keys := SortKeys(Keys(fields));
    SortKeysSorts(Keys(fields));
    forall k | k in keys ensures Tight(RustPrint(Lookup(fields, k)), Print(Lookup(fields, k)), Common(Lookup(fields, k))) {
      PrintersTight(Lookup(fields, k));
    }
    MembersTight(fields, keys);
    RustObjInKeyOrder(fields);
    CommonByKey(fields, keys);
  }

  ghost function CommonMembers(fields: seq<Field>, keys: seq<string>): seq<bool> {
    seq(|keys|, i requires 0 <= i < |keys| => CommonMember(fields, keys[i]))
  }

  lemma MembersTight(fields: seq<Field>, keys: seq<string>)
    requires forall k :: k in keys ==> k in Keys(fields)
    requires forall k :: k in keys ==> Tight(RustPrint(Lookup(fields, k)), Print(Lookup(fields, k)), Common(Lookup(fields, k)))
    ensures Tight(Join(RustMembers(fields, keys)), Join(PrintMembers(fields, keys)),
                  forall i :: 0 <= i < |keys| ==> CommonMember(fields, keys[i]))
  {
    if keys != [] {
      MembersAt(fields, keys, 0);
      var same := CommonMembers(fields, keys);
      forall i | 0 <= i < |keys| ensures Tight(RustMembers(fields, keys)[i], PrintMembers(fields, keys)[i], same[i]) {
        MemberTightAt(fields, keys, i);
      }
      JoinTight(RustMembers(fields, keys), PrintMembers(fields, keys), same);
      assert (forall i :: 0 <= i < |same| ==> same[i]) <==> (forall i :: 0 <= i < |keys| ==> CommonMember(fields, keys[i]));
    }
  }

  lemma MemberTightAt(fields: seq<Field>, keys: seq<string>, i: nat)
    requires i < |keys| && forall k :: k in keys ==> k in Keys(fields)
    requires Tight(RustPrint(Lookup(fields, keys[i])), Print(Lookup(fields, keys[i])), Common(Lookup(fields, keys[i])))
    ensures |RustMembers(fields, keys)| == |PrintMembers(fields, keys)| == |keys|
    ensures Tight(RustMembers(fields, keys)[i], PrintMembers(fields, keys)[i], CommonMember(fields, keys[i]))
  {
    MembersAt(fields, keys, i);
    MemberTight(keys[i], Lookup(fields, keys[i]));
  }

  ghost predicate CommonMember(fields: seq<Field>, key: string) {
    Plain(key) && key in Keys(fields) && Common(Lookup(fields, key))
  }

  lemma MemberTight(key: string, v: Json)
    requires Tight(RustPrint(v), Print(v), Common(v))
    ensures Tight("\"" + key + "\"" + ":" + RustPrint(v), Quote(key) + ":" + Print(v), Plain(key) && Common(v))
  {
    KeysTight(key);
  }

  lemma CommonByKey(fields: seq<Field>, keys: seq<string>)
    requires Distinct(Keys(fields)) && forall k :: k in keys <==> k in Keys(fields)
    ensures Common(Obj(fields)) <==> forall i :: 0 <= i < |keys| ==> CommonMember(fields, keys[i])
  {
    forall i | 0 <= i < |fields|
      ensures fields[i].key in keys && Lookup(fields, fields[i].key) == fields[i].value
    {
      LookupAt(fields, i);
    }
    forall i | 0 <= i < |keys| ensures exists j :: 0 <= j < |fields| && fields[j].key == keys[i] {
      assert keys[i] in keys;
      var j :| 0 <= j < |Keys(fields)| && Keys(fields)[j] == keys[i];
    }
    if forall i :: 0 <= i < |keys| ==> CommonMember(fields, keys[i]) {
      forall j | 0 <= j < |fields| ensures Plain(fields[j].key) && Common(fields[j].value) {
        var i :| 0 <= i < |keys| && keys[i] == fields[j].key;
        assert CommonMember(fields, keys[i]);
      }
    }
  }

  /** Numbers a Rust JSON number holds exactly: integers of the signed and unsigned 64-bit ranges, and finite floats. */
  ghost predicate RustRepresentable(v: Json) {
    match v
    case Int(n) => -0x8000_0000_0000_0000 <= n < 0x1_0000_0000_0000_0000
    case Num(f) => !f.NonFinite?
    case Arr(items) => forall i :: 0 <= i < |items| ==> RustRepresentable(items[i])
    case Obj(fields) => forall i :: 0 <= i < |fields| ==> RustRepresentable(fields[i].value)
    case _ => true
  }

  /** Print-then-sort in Rust and sort-then-print in Python give one text exactly on the common values. */
  lemma PrintersAgreeIff(v: Json)
    requires WellFormed(v) && RustRepresentable(v)
    ensures RustPrint(v) == Print(v) <==> Common(v)
  {
    PrintersTight(v);
  }
}
