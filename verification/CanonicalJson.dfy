/**
 Canonical JSON as the Python SDK prints it: keys sorted by code point at every depth, no white space,
 every non-ASCII character escaped. Characters are Unicode scalar values.
 */
module CanonicalJson {
  import opened Types
  import opened Text
  import NumberText
  import NumberIdentity

  /** A float with the digits printed for it. */
  type Float = f: NumberText.Float | NumberText.Valid(f) witness NumberText.Zero(false)

  /** A JSON value. Object fields are kept in insertion order. */
  datatype Json =
    | Null
    | Bool(b: bool)
    | Int(n: int)
    | Num(f: Float)
    | Str(s: string)
    | Arr(items: seq<Json>)
    | Obj(fields: seq<Field>)

  datatype Field = Field(key: string, value: Json)

  function Keys(fields: seq<Field>): (ks: seq<string>)
    ensures |ks| == |fields| && forall i :: 0 <= i < |fields| ==> ks[i] == fields[i].key
  {
    if fields == [] then [] else [fields[0].key] + Keys(fields[1..])
  }

  /** No object has two fields with one key, at any depth. */
  ghost predicate WellFormed(v: Json) {
    match v
    case Arr(items) => forall i :: 0 <= i < |items| ==> WellFormed(items[i])
    case Obj(fields) => Distinct(Keys(fields)) && forall i :: 0 <= i < |fields| ==> WellFormed(fields[i].value)
    case _ => true
  }

  /** No float in the value is infinite or not a number. */
  predicate AllFinite(v: Json) {
    match v
    case Num(f) => !f.NonFinite?
    case Arr(items) => forall i :: 0 <= i < |items| ==> AllFinite(items[i])
    case Obj(fields) => forall i :: 0 <= i < |fields| ==> AllFinite(fields[i].value)
    case _ => true
  }

  /** Dictionary lookup. */
  function Lookup(fields: seq<Field>, key: string): (v: Json)
    requires key in Keys(fields)
    ensures exists i :: 0 <= i < |fields| && fields[i].key == key && fields[i].value == v
  {
    if fields[0].key == key then fields[0].value
    else
      var v := Lookup(fields[1..], key);
      assert exists i :: 0 <= i < |fields[1..]| && fields[1..][i].key == key && fields[1..][i].value == v;
      assert forall i :: 0 <= i < |fields[1..]| ==> fields[1..][i] == fields[i + 1];
      v
  }

  // ── Printing ──────────────────────────────────────────────────────────────

  function HighSurrogate(code: int): (u: nat)
    requires 0x10000 <= code < 0x110000
    ensures 0xD800 <= u < 0xDC00
  {
    0xD800 + (code - 0x10000) / 1024
  }

  function LowSurrogate(code: int): (u: nat)
    requires 0x10000 <= code < 0x110000
    ensures 0xDC00 <= u < 0xE000
  {
    0xDC00 + (code - 0x10000) % 1024
  }

  function EscapeChar(c: char): string {
    var code := c as int;
    if c == '"' then "\\\""
    else if c == '\\' then "\\\\"
    else if code == 8 then "\\b"
    else if code == 12 then "\\f"
    else if c == '\n' then "\\n"
    else if c == '\r' then "\\r"
    else if c == '\t' then "\\t"
    else if code < 0x20 then "\\u" + Hex4(code)
    else if code < 0x80 then [c]
    else if code <= 0xFFFF then "\\u" + Hex4(code)
    else "\\u" + Hex4(HighSurrogate(code)) + "\\u" + Hex4(LowSurrogate(code))
  }

  function EscapeChars(s: string): string {
    if s == [] then [] else EscapeChar(s[0]) + EscapeChars(s[1..])
  }

  function Quote(s: string): string {
    "\"" + EscapeChars(s) + "\""
  }

  lemma {:induction false} EscapeSnoc(s: string, c: char)
    ensures EscapeChars(s + [c]) == EscapeChars(s) + EscapeChar(c)
    decreases |s|
  {
    if s == [] {
      assert [c][1..] == [];
      assert s + [c] == [c];
    } else {
      assert (s + [c])[1..] == s[1..] + [c];
      EscapeSnoc(s[1..], c);
    }
  }

  lemma EscapeTake(s: string, i: nat)
    requires i < |s|
    ensures EscapeChars(s[..i + 1]) == EscapeChars(s[..i]) + EscapeChar(s[i])
  {
    EscapeSnoc(s[..i], s[i]);
    assert s[..i + 1] == s[..i] + [s[i]];
  }

  /** The loop that collects the escaped pieces, with a quote at either end. */
  method EscapeJsonString(value: string) returns (text: string)
    ensures text == Quote(value)
  {
    var body := "";
    var i := 0;
    while i < |value|
      invariant 0 <= i <= |value|
      invariant body == EscapeChars(value[..i])
    {
      EscapeTake(value, i);
      body := body + EscapeChar(value[i]);
      i := i + 1;
    }
    assert value[..i] == value;
    text := "\"" + body + "\"";
  }

  function Join(parts: seq<string>): string {
    if parts == [] then []
    else if |parts| == 1 then parts[0]
    else parts[0] + "," + Join(parts[1..])
  }

  /** Prints a value: dictionary keys are sorted first, then each value is looked up and printed. */
  function Print(v: Json): string
    decreases v
  {
    match v
    case Null => "null"
    case Bool(b) => if b then "true" else "false"
    case Int(n) => IntText(n)
    case Num(f) => NumberText.FloatText(f)
    case Str(s) => Quote(s)
    case Arr(items) => "[" + Join(PrintItems(items)) + "]"
    case Obj(fields) =>
      SortKeysSorts(Keys(fields));
      "{" + Join(PrintMembers(fields, SortKeys(Keys(fields)))) + "}"
  }

  function PrintItems(items: seq<Json>): seq<string>
    decreases items
  {
    if items == [] then [] else [Print(items[0])] + PrintItems(items[1..])
  }

  function PrintMembers(fields: seq<Field>, keys: seq<string>): seq<string>
    requires forall k :: k in keys ==> k in Keys(fields)
    decreases fields, |keys|
  {
    if keys == [] then []
    else
      assert keys[0] in keys;
      [Quote(keys[0]) + ":" + Print(Lookup(fields, keys[0]))] + PrintMembers(fields, keys[1..])
  }

  // ── Normal form and rendering in field order ──────────────────────────────

  /** The integer that the digits of a float denote if its text is an integer's; otherwise the float. */
  function NormNumber(f: Float): Json {
    if f.Zero? then Int(0)
    else if f.Finite? && |f.digits| <= f.point <= 21 then Int(NumberIdentity.PlainInt(f.neg, f.digits, f.point))
    else Num(f)
  }

  /** The value with its keys sorted, and each number in the form its text has, at every depth. */
  function Norm(v: Json): Json
    decreases v
  {
    match v
    case Num(f) => NormNumber(f)
    case Arr(items) => Arr(NormItems(items))
    case Obj(fields) =>
      SortKeysSorts(Keys(fields));
      Obj(NormMembers(fields, SortKeys(Keys(fields))))
    case _ => v
  }

  function NormItems(items: seq<Json>): (r: seq<Json>)
    ensures |r| == |items|
    decreases items
  {
    if items == [] then [] else [Norm(items[0])] + NormItems(items[1..])
  }

  function NormMembers(fields: seq<Field>, keys: seq<string>): (r: seq<Field>)
    requires forall k :: k in keys ==> k in Keys(fields)
    ensures |r| == |keys|
    decreases fields, |keys|
  {
    if keys == [] then []
    else
      assert keys[0] in keys;
      [Field(keys[0], Norm(Lookup(fields, keys[0])))] + NormMembers(fields, keys[1..])
  }

  /** Prints a value with its fields in the order they have. */
  function Render(v: Json): string
    decreases v
  {
    match v
    case Null => "null"
    case Bool(b) => if b then "true" else "false"
    case Int(n) => IntText(n)
    case Num(f) => NumberText.FloatText(f)
    case Str(s) => Quote(s)
    case Arr(items) => "[" + Join(RenderItems(items)) + "]"
    case Obj(fields) => "{" + Join(RenderFields(fields)) + "}"
  }

  function RenderItems(items: seq<Json>): (r: seq<string>)
    ensures |r| == |items|
    decreases items
  {
    if items == [] then [] else [Render(items[0])] + RenderItems(items[1..])
  }

  function RenderFields(fields: seq<Field>): (r: seq<string>)
    ensures |r| == |fields|
    decreases fields
  {
    if fields == [] then []
    else [Quote(fields[0].key) + ":" + Render(fields[0].value)] + RenderFields(fields[1..])
  }

  lemma NumberIsRenderNorm(f: Float)
    ensures NumberText.FloatText(f) == Render(NormNumber(f))
  {
    if f.Zero? {
      assert IntText(0) == "0";
    } else if f.Finite? && |f.digits| <= f.point <= 21 {
      NumberIdentity.PlainText(f.neg, f.digits, f.point);
    }
  }

  /** Printing is rendering the normal form. */
  lemma {:induction false} PrintIsRenderNorm(v: Json)
    ensures Print(v) == Render(Norm(v))
    decreases v
  {
    match v
    case Num(f) => NumberIsRenderNorm(f);
    case Arr(items) => PrintItemsIsRenderNorm(items);
    case Obj(fields) =>
      SortKeysSorts(Keys(fields));
      PrintMembersIsRenderNorm(fields, SortKeys(Keys(fields)));
    case _ =>
  }

  lemma {:induction false} PrintItemsIsRenderNorm(items: seq<Json>)
    ensures PrintItems(items) == RenderItems(NormItems(items))
    decreases items
  {
    if items != [] {
      PrintIsRenderNorm(items[0]);
      PrintItemsIsRenderNorm(items[1..]);
    }
  }

  lemma {:induction false} PrintMembersIsRenderNorm(fields: seq<Field>, keys: seq<string>)
    requires forall k :: k in keys ==> k in Keys(fields)
    ensures PrintMembers(fields, keys) == RenderFields(NormMembers(fields, keys))
    decreases fields, |keys|
  {
    if keys != [] {
      assert keys[0] in keys;
      PrintIsRenderNorm(Lookup(fields, keys[0]));
      PrintMembersIsRenderNorm(fields, keys[1..]);
    }
  }

  // ── Equality up to key order and number form ──────────────────────────────

  ghost predicate SameKeys(fs: seq<Field>, gs: seq<Field>) {
    forall k :: k in Keys(fs) <==> k in Keys(gs)
  }

  predicate IsNumber(v: Json) {
    v.Int? || v.Num?
  }

  ghost function AsNumber(v: Json): NumberIdentity.Number
    requires IsNumber(v)
  {
    if v.Int? then NumberIdentity.Whole(v.n) else NumberIdentity.Floating(v.f)
  }

  /** Numbers whose digits denote the same, and that below 1e21 in magnitude if one is an integer and the other a float. */
  ghost predicate SameNumber(a: Json, b: Json)
    requires IsNumber(a) && IsNumber(b)
  {
    var x, y := AsNumber(a), AsNumber(b);
    if !NumberIdentity.Printable(x) || !NumberIdentity.Printable(y) then a == b
    else NumberIdentity.Denoted(x) == NumberIdentity.Denoted(y)
         && ((a.Int? <==> b.Int?) || NumberIdentity.Below(NumberIdentity.Denoted(x), NumberText.Pow10(21)))
  }

  /** Equal up to the order of object keys and the form of numbers, at every depth. */
  ghost predicate Equiv(a: Json, b: Json)
    decreases a
  {
    if IsNumber(a) && IsNumber(b) then SameNumber(a, b) else
    match (a, b)
    case (Arr(xs), Arr(ys)) => |xs| == |ys| && forall i :: 0 <= i < |xs| ==> Equiv(xs[i], ys[i])
    case (Obj(fs), Obj(gs)) =>
      SameKeys(fs, gs) && forall k :: k in Keys(fs) ==> Equiv(Lookup(fs, k), Lookup(gs, k))
    case (_, _) => a == b
  }

  lemma {:induction false} NormItemsAt(items: seq<Json>, i: nat)
    requires i < |items|
    ensures NormItems(items)[i] == Norm(items[i])
    decreases |items|
  {
    if i > 0 {
      NormItemsAt(items[1..], i - 1);
    }
  }

  lemma {:induction false} NormMembersAt(fields: seq<Field>, keys: seq<string>, i: nat)
    requires i < |keys| && forall k :: k in keys ==> k in Keys(fields)
    ensures keys[i] in keys && NormMembers(fields, keys)[i] == Field(keys[i], Norm(Lookup(fields, keys[i])))
    decreases |keys|
  {
    if i > 0 {
      NormMembersAt(fields, keys[1..], i - 1);
    }
  }

  /** A text of an integer is normalised to that integer, and a text of a float stays the float. */
  lemma TextGivesNorm(f: Float, k: int)
    requires !f.NonFinite? && NumberText.FloatText(f) == IntText(k)
    ensures NormNumber(f) == Int(k)
  {
    NumberIsRenderNorm(f);
    NumberIdentity.IntTextShape(k);
    if f.Finite? {
      NumberIdentity.ShapeShows(f.digits, f.point);
      NumberIdentity.SignSplits(f.neg, NumberText.EsBody(f.digits, f.point));
      assert |f.digits| <= f.point <= 21;
    }
    NumberIdentity.IntTextInjective(NormNumber(f).n, k);
  }

  lemma SameTextSameNorm(a: Json, b: Json)
    requires IsNumber(a) && IsNumber(b) && AllFinite(a) && AllFinite(b) && Print(a) == Print(b)
    ensures Norm(a) == Norm(b)
  {
    if a.Int? && b.Int? {
      NumberIdentity.IntTextInjective(a.n, b.n);
    } else if a.Int? {
      TextGivesNorm(b.f, a.n);
    } else if b.Int? {
      TextGivesNorm(a.f, b.n);
    } else if a.f.Zero? {
      assert IntText(0) == "0";
      TextGivesNorm(b.f, 0);
    } else if b.f.Zero? {
      assert IntText(0) == "0";
      TextGivesNorm(a.f, 0);
    } else {
      NumberIdentity.SameFloatText(a.f, b.f);
    }
  }

  lemma NumberNormIff(a: Json, b: Json)
    requires IsNumber(a) && IsNumber(b)
    ensures Norm(a) == Norm(b) <==> SameNumber(a, b)
  {
    if AllFinite(a) && AllFinite(b) {
      NumberIdentity.NumbersPrintAlikeIff(AsNumber(a), AsNumber(b));
      PrintIsRenderNorm(a);
      PrintIsRenderNorm(b);
      if Print(a) == Print(b) {
        SameTextSameNorm(a, b);
      }
    }
  }

  lemma {:induction false} NormEqualIffEquiv(a: Json, b: Json)
    requires WellFormed(a) && WellFormed(b)
    ensures Norm(a) == Norm(b) <==> Equiv(a, b)
    decreases a
  {
    if IsNumber(a) && IsNumber(b) {
      NumberNormIff(a, b);
    } else {
      match (a, b)
      case (Arr(xs), Arr(ys)) => NormItemsEqualIff(xs, ys);
      case (Obj(fs), Obj(gs)) => NormFieldsEqualIff(fs, gs);
      case (_, _) =>
    }
  }

  lemma {:induction false} NormItemsEqualIff(xs: seq<Json>, ys: seq<Json>)
    requires WellFormed(Arr(xs)) && WellFormed(Arr(ys))
    ensures NormItems(xs) == NormItems(ys) <==> Equiv(Arr(xs), Arr(ys))
    decreases xs
  {
    if |xs| == |ys| {
      forall i | 0 <= i < |xs|
        ensures NormItems(xs)[i] == NormItems(ys)[i] <==> Equiv(xs[i], ys[i])
      {
        NormItemsAt(xs, i);
        NormItemsAt(ys, i);
        NormEqualIffEquiv(xs[i], ys[i]);
      }
    }
  }

  lemma {:induction false} NormFieldsEqualIff(fs: seq<Field>, gs: seq<Field>)
    requires WellFormed(Obj(fs)) && WellFormed(Obj(gs))
    ensures Norm(Obj(fs)) == Norm(Obj(gs)) <==> Equiv(Obj(fs), Obj(gs))
    decreases fs
  {
    forall k | k in Keys(fs) && k in Keys(gs)
      ensures Norm(Lookup(fs, k)) == Norm(Lookup(gs, k)) <==> Equiv(Lookup(fs, k), Lookup(gs, k))
    {
      NormEqualIffEquiv(Lookup(fs, k), Lookup(gs, k));
    }
    if Norm(Obj(fs)) == Norm(Obj(gs)) {
      SameNormSameMembers(fs, gs);
    }
    if Equiv(Obj(fs), Obj(gs)) {
      SameMembersSameNorm(fs, gs);
    }
  }

  lemma SameNormSameMembers(fs: seq<Field>, gs: seq<Field>)
    requires Norm(Obj(fs)) == Norm(Obj(gs))
    ensures SameKeys(fs, gs)
    ensures forall k :: k in Keys(fs) ==> Norm(Lookup(fs, k)) == Norm(Lookup(gs, k))
  {
    SortKeysSorts(Keys(fs));
    SortKeysSorts(Keys(gs));
    SameMembers(fs, SortKeys(Keys(fs)), gs, SortKeys(Keys(gs)));
  }

  lemma SameMembersSameNorm(fs: seq<Field>, gs: seq<Field>)
    requires Distinct(Keys(fs)) && Distinct(Keys(gs)) && SameKeys(fs, gs)
    requires forall k :: k in Keys(fs) ==> Norm(Lookup(fs, k)) == Norm(Lookup(gs, k))
    ensures Norm(Obj(fs)) == Norm(Obj(gs))
  {
    SortKeysSorts(Keys(fs));
    SortKeysSorts(Keys(gs));
    SortedIsUnique(SortKeys(Keys(fs)), SortKeys(Keys(gs)));
    MembersAgree(fs, gs, SortKeys(Keys(fs)));
  }

  lemma SameMembers(fs: seq<Field>, ks: seq<string>, gs: seq<Field>, ls: seq<string>)
    requires forall k :: k in ks <==> k in Keys(fs)
    requires forall k :: k in ls <==> k in Keys(gs)
    requires NormMembers(fs, ks) == NormMembers(gs, ls)
    ensures ks == ls && SameKeys(fs, gs)
    ensures forall k :: k in Keys(fs) ==> Norm(Lookup(fs, k)) == Norm(Lookup(gs, k))
  {
    forall i | 0 <= i < |ks|
      ensures ks[i] == ls[i] && ks[i] in Keys(fs) && ls[i] in Keys(gs)
      ensures Norm(Lookup(fs, ks[i])) == Norm(Lookup(gs, ls[i]))
    {
      NormMembersAt(fs, ks, i);
      NormMembersAt(gs, ls, i);
    }
    forall k | k in Keys(fs) ensures k in Keys(gs) && Norm(Lookup(fs, k)) == Norm(Lookup(gs, k)) {
      assert k in ks;
      var i :| 0 <= i < |ks| && ks[i] == k;
    }
  }

  lemma {:induction false} MembersAgree(fs: seq<Field>, gs: seq<Field>, keys: seq<string>)
    requires forall k :: k in keys ==> k in Keys(fs) && k in Keys(gs) && Norm(Lookup(fs, k)) == Norm(Lookup(gs, k))
    ensures NormMembers(fs, keys) == NormMembers(gs, keys)
    decreases |keys|
  {
    if keys != [] {
      assert keys[0] in keys;
      MembersAgree(fs, gs, keys[1..]);
    }
  }
}
