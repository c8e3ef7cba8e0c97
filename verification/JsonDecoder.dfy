/**
 A decoder for canonical JSON text, and the proof that it recovers every printed value. It shows that
 canonical text identifies a value up to the order of object keys and the form of numbers.
 */
module JsonDecoder {
  import opened Types
  import opened Text
  import opened CanonicalJson
  import opened NumberDecoder

  // ── The decoder ───────────────────────────────────────────────────────────

  function FromSurrogates(hi: nat, lo: nat): Option<char> {
    if 0xD800 <= hi < 0xDC00 && 0xDC00 <= lo < 0xE000
    then Some((0x10000 + (hi - 0xD800) * 1024 + (lo - 0xDC00)) as char)
    else None
  }

  /** A \u escape: one code unit, or a surrogate pair written as two escapes. */
  function ParseUnicode(s: string): (r: Option<(char, string)>)
    requires |s| >= 2
    ensures r.Some? ==> |r.value.1| < |s|
  {
    if |s| < 6 then None
    else match Hex4Value(s[2..6])
      case None => None
      case Some(u) =>
        if u < 0xD800 || 0xE000 <= u < 0x10000 then Some((u as char, s[6..]))
        else if |s| < 12 || s[6..8] != "\\u" then None
        else match Hex4Value(s[8..12])
          case None => None
          case Some(lo) =>
            match FromSurrogates(u, lo)
            case None => None
            case Some(c) => Some((c, s[12..]))
  }

  function ParseChar(s: string): (r: Option<(char, string)>)
    requires s != []
    ensures r.Some? ==> |r.value.1| < |s|
  {
    if s[0] != '\\' then Some((s[0], s[1..]))
    else if |s| < 2 then None
    else if s[1] == '"' then Some(('"', s[2..]))
    else if s[1] == '\\' then Some(('\\', s[2..]))
    else if s[1] == 'b' then Some((8 as char, s[2..]))
    else if s[1] == 'f' then Some((12 as char, s[2..]))
    else if s[1] == 'n' then Some(('\n', s[2..]))
    else if s[1] == 'r' then Some(('\r', s[2..]))
    else if s[1] == 't' then Some(('\t', s[2..]))
    else if s[1] == 'u' then ParseUnicode(s)
    else None
  }

  /** The characters of a string literal up to its closing quote. */
  function ParseString(s: string): (r: Option<(string, string)>)
    ensures r.Some? ==> |r.value.1| < |s|
    decreases |s|
  {
    if s == [] then None
    else if s[0] == '"' then Some(([], s[1..]))
    else match ParseChar(s)
      case None => None
      case Some((c, t)) =>
        match ParseString(t)
        case None => None
        case Some((cs, rest)) => Some(([c] + cs, rest))
  }

  function ParseLiteral(s: string, literal: string, v: Json): (r: Option<(Json, string)>)
    requires literal != []
    ensures r.Some? ==> |r.value.1| < |s|
  {
    if literal <= s then Some((v, s[|literal|..])) else None
  }

  function ParseValue(s: string): (r: Option<(Json, string)>)
    ensures r.Some? ==> |r.value.1| < |s|
    decreases |s|, 2
  {
    if s == [] then None
    else if s[0] == 'n' then ParseLiteral(s, "null", Null)
    else if s[0] == 't' then ParseLiteral(s, "true", Bool(true))
    else if s[0] == 'f' then ParseLiteral(s, "false", Bool(false))
    else if s[0] == '"' then
      match ParseString(s[1..])
      case None => None
      case Some((cs, rest)) => Some((Str(cs), rest))
    else if s[0] == '[' then
      if |s| > 1 && s[1] == ']' then Some((Arr([]), s[2..]))
      else match ParseItems(s[1..])
        case None => None
        case Some((items, rest)) => Some((Arr(items), rest))
    else if s[0] == '{' then
      if |s| > 1 && s[1] == '}' then Some((Obj([]), s[2..]))
      else match ParseFields(s[1..])
        case None => None
        case Some((fields, rest)) => Some((Obj(fields), rest))
    else ParseNumber(s)
  }

  function ParseItems(s: string): (r: Option<(seq<Json>, string)>)
    ensures r.Some? ==> |r.value.1| < |s|
    decreases |s|, 3
  {
    match ParseValue(s)
    case None => None
    case Some((v, t)) =>
      if t != [] && t[0] == ']' then Some(([v], t[1..]))
      else if t != [] && t[0] == ',' then
        match ParseItems(t[1..])
        case None => None
        case Some((items, rest)) => Some(([v] + items, rest))
      else None
  }

  function ParseField(s: string): (r: Option<(Field, string)>)
    ensures r.Some? ==> |r.value.1| < |s|
    decreases |s|, 3
  {
    if s == [] || s[0] != '"' then None
    else match ParseString(s[1..])
      case None => None
      case Some((key, t)) =>
        if t == [] || t[0] != ':' then None
        else match ParseValue(t[1..])
          case None => None
          case Some((v, rest)) => Some((Field(key, v), rest))
  }

  function ParseFields(s: string): (r: Option<(seq<Field>, string)>)
    ensures r.Some? ==> |r.value.1| < |s|
    decreases |s|, 4
  {
    match ParseField(s)
    case None => None
    case Some((f, t)) =>
      if t != [] && t[0] == '}' then Some(([f], t[1..]))
      else if t != [] && t[0] == ',' then
        match ParseFields(t[1..])
        case None => None
        case Some((fields, rest)) => Some(([f] + fields, rest))
      else None
  }

  // ── Strings ───────────────────────────────────────────────────────────────

  lemma UnitRoundTrip(u: nat, rest: string)
    requires u < 0xD800 || 0xE000 <= u < 0x10000
    ensures ParseChar("\\u" + Hex4(u) + rest) == Some((u as char, rest))
  {
    var s := "\\u" + Hex4(u) + rest;
    Hex4RoundTrip(u);
    assert s[2..6] == Hex4(u);
    assert s[6..] == rest;
  }

  lemma SurrogatesRoundTrip(code: nat)
    requires 0x10000 <= code < 0x110000
    ensures FromSurrogates(HighSurrogate(code), LowSurrogate(code)) == Some(code as char)
  {
  }

  lemma PairStep(s: string, hi: nat, lo: nat, c: char)
    requires |s| >= 12 && s[0] == '\\' && s[1] == 'u' && s[6..8] == "\\u"
    requires Hex4Value(s[2..6]) == Some(hi) && Hex4Value(s[8..12]) == Some(lo) && FromSurrogates(hi, lo) == Some(c)
    ensures ParseChar(s) == Some((c, s[12..]))
  {
  }

  lemma PairText(a: string, b: string, rest: string)
    requires |a| == 4 && |b| == 4
    ensures var s := "\\u" + a + "\\u" + b + rest;
            |s| >= 12 && s[0] == '\\' && s[1] == 'u' && s[2..6] == a && s[6..8] == "\\u" && s[8..12] == b && s[12..] == rest
  {
  }

  lemma PairRoundTrip(hi: nat, lo: nat, c: char, rest: string)
    requires hi < 0x10000 && lo < 0x10000 && FromSurrogates(hi, lo) == Some(c)
    ensures ParseChar("\\u" + Hex4(hi) + "\\u" + Hex4(lo) + rest) == Some((c, rest))
  {
    Hex4RoundTrip(hi);
    Hex4RoundTrip(lo);
    PairText(Hex4(hi), Hex4(lo), rest);
    PairStep("\\u" + Hex4(hi) + "\\u" + Hex4(lo) + rest, hi, lo, c);
  }

  predicate IsShort(c: char) {
    c == '"' || c == '\\' || c as int == 8 || c as int == 12 || c == '\n' || c == '\r' || c == '\t'
  }

  /** What holds of the escape of a character: it does not look like a closing quote, and it reads back. */
  ghost predicate ReadsBack(c: char, rest: string) {
    var text := EscapeChar(c);
    text != [] && text[0] != '"' && ParseChar(text + rest) == Some((c, rest))
  }

  lemma ShortRoundTrip(c: char, rest: string)
    requires IsShort(c)
    ensures ReadsBack(c, rest)
  {
    assert (EscapeChar(c) + rest)[2..] == rest;
  }

  lemma PlainRoundTrip(c: char, rest: string)
    requires !IsShort(c) && 0x20 <= c as int < 0x80
    ensures ReadsBack(c, rest)
  {
    assert EscapeChar(c) == [c];
    assert ([c] + rest)[1..] == rest;
  }

  lemma UnitCharRoundTrip(c: char, rest: string)
    requires !IsShort(c) && (c as int < 0x20 || 0x80 <= c as int <= 0xFFFF)
    ensures ReadsBack(c, rest)
  {
    assert EscapeChar(c) == "\\u" + Hex4(c as int);
    UnitRoundTrip(c as int, rest);
  }

  lemma PairReadsBack(hi: nat, lo: nat, c: char, rest: string)
    requires hi < 0x10000 && lo < 0x10000 && FromSurrogates(hi, lo) == Some(c)
    requires EscapeChar(c) == "\\u" + Hex4(hi) + "\\u" + Hex4(lo)
    ensures ReadsBack(c, rest)
  {
    PairRoundTrip(hi, lo, c, rest);
  }

  lemma PairCharRoundTrip(c: char, rest: string)
    requires !IsShort(c) && 0xFFFF < c as int
    ensures ReadsBack(c, rest)
  {
    var hi, lo := SurrogatesOf(c);
    PairReadsBack(hi, lo, c, rest);
  }

  lemma SurrogatesOf(c: char) returns (hi: nat, lo: nat)
    requires !IsShort(c) && 0xFFFF < c as int
    ensures hi < 0x10000 && lo < 0x10000 && FromSurrogates(hi, lo) == Some(c)
    ensures EscapeChar(c) == "\\u" + Hex4(hi) + "\\u" + Hex4(lo)
  {
    var code := c as int;
    hi, lo := HighSurrogate(code), LowSurrogate(code);
    SurrogatesRoundTrip(code);
  }

  lemma CharRoundTrip(c: char, rest: string)
    ensures ReadsBack(c, rest)
  {
    var code := c as int;
    if IsShort(c) {
      ShortRoundTrip(c, rest);
    } else if 0x20 <= code < 0x80 {
      PlainRoundTrip(c, rest);
    } else if code <= 0xFFFF {
      UnitCharRoundTrip(c, rest);
    } else {
      PairCharRoundTrip(c, rest);
    }
  }

  lemma StringStep(text: string, c: char, t: string, cs: string, rest: string)
    requires text != [] && text[0] != '"' && ParseChar(text) == Some((c, t)) && ParseString(t) == Some((cs, rest))
    ensures ParseString(text) == Some(([c] + cs, rest))
  {
  }

  lemma StringEnd(rest: string)
    ensures ParseString("\"" + rest) == Some(([], rest))
  {
    assert ("\"" + rest)[1..] == rest;
  }

  lemma {:induction false} StringRoundTrip(s: string, rest: string)
    ensures ParseString(EscapeChars(s) + ("\"" + rest)) == Some((s, rest))
    decreases |s|
  {
    var tail := "\"" + rest;
    if s == [] {
      assert EscapeChars(s) + tail == tail;
      StringEnd(rest);
    } else {
      var c, more := s[0], EscapeChars(s[1..]) + tail;
      CharRoundTrip(c, more);
      StringRoundTrip(s[1..], rest);
      ConcatAssociates(EscapeChar(c), EscapeChars(s[1..]), tail);
      StringStep(EscapeChar(c) + more, c, more, s[1..], rest);
      assert s == [c] + s[1..];
    }
  }

  lemma QuoteRoundTrip(s: string, rest: string)
    ensures (Quote(s) + rest)[0] == '"' && ParseString((Quote(s) + rest)[1..]) == Some((s, rest))
  {
    StringRoundTrip(s, rest);
    assert (Quote(s) + rest)[1..] == EscapeChars(s) + ("\"" + rest);
  }

  // ── Values ────────────────────────────────────────────────────────────────

  /** What may follow a printed value: nothing that a number could go on with may follow a number. */
  predicate MayFollow(v: Json, rest: string) {
    IsNumber(v) && rest != [] ==> !IsNumberChar(rest[0])
  }

  /** Every number in the value is finite and in the form its text has. */
  predicate NormalNumbers(v: Json) {
    match v
    case Num(_) => NormalNumber(v)
    case Arr(items) => forall i :: 0 <= i < |items| ==> NormalNumbers(items[i])
    case Obj(fields) => forall i :: 0 <= i < |fields| ==> NormalNumbers(fields[i].value)
    case _ => true
  }

  lemma {:induction false} ValueIsNumber(s: string)
    requires s != [] && (s[0] == '-' || IsDigit(s[0]))
    ensures ParseValue(s) == ParseNumber(s)
  {
  }

  lemma NumberValueRoundTrip(v: Json, rest: string)
    requires IsNumber(v) && NormalNumber(v) && MayFollow(v, rest)
    ensures ParseValue(Render(v) + rest) == Some((v, rest))
  {
    NumberTextChars(v);
    NumberRoundTrip(v, rest);
    assert (Render(v) + rest)[0] == Render(v)[0];
    ValueIsNumber(Render(v) + rest);
  }

  lemma RenderStart(v: Json)
    requires NormalNumbers(v)
    ensures Render(v) != [] && Render(v)[0] != ']' && Render(v)[0] != '}'
  {
    if IsNumber(v) {
      NumberTextChars(v);
    }
  }

  lemma LiteralRoundTrip(s: string, rest: string, v: Json)
    requires s != []
    ensures ParseLiteral(s + rest, s, v) == Some((v, rest))
  {
    assert (s + rest)[|s|..] == rest;
  }

  /** The decoder recovers a rendered value whose numbers are normal, and stops where its text ends. */
  lemma {:induction false} RenderRoundTrip(v: Json, rest: string)
    requires NormalNumbers(v) && MayFollow(v, rest)
    ensures ParseValue(Render(v) + rest) == Some((v, rest))
    decreases v, 0
  {
    match v
    case Null => LiteralRoundTrip("null", rest, v);
    case Bool(b) => LiteralRoundTrip(Render(v), rest, v);
    case Int(_) => NumberValueRoundTrip(v, rest);
    case Num(_) => NumberValueRoundTrip(v, rest);
    case Str(s) => QuoteRoundTrip(s, rest);
    case Arr(items) => ArrRoundTrip(v, rest);
    case Obj(fields) => ObjRoundTrip(v, rest);
  }

  lemma Bracketed(open: string, body: string, close: string, rest: string)
    requires |open| == 1
    ensures (open + body + close + rest)[0] == open[0]
    ensures (open + body + close + rest)[1..] == body + (close + rest)
  {
  }

  lemma {:induction false} ArrRoundTrip(v: Json, rest: string)
    requires v.Arr? && NormalNumbers(v)
    ensures ParseValue(Render(v) + rest) == Some((v, rest))
    decreases v.items, 1
  {
    var body := Join(RenderItems(v.items));
    Bracketed("[", body, "]", rest);
    if v.items == [] {
      assert (Render(v) + rest)[2..] == rest;
    } else {
      ItemsRoundTrip(v.items, rest);
      RenderStart(v.items[0]);
      assert body[0] == Render(v.items[0])[0];
      assert (Render(v) + rest)[1] == body[0];
    }
  }

  lemma JoinCons(parts: seq<string>, rest: string)
    requires |parts| > 1
    ensures Join(parts) + rest == parts[0] + ("," + (Join(parts[1..]) + rest))
  {
  }

  lemma LastItem(s: string, v: Json, rest: string)
    requires ParseValue(s) == Some((v, "]" + rest))
    ensures ParseItems(s) == Some(([v], rest))
  {
    assert ("]" + rest)[1..] == rest;
  }

  lemma NextItem(s: string, v: Json, more: string, items: seq<Json>, rest: string)
    requires ParseValue(s) == Some((v, "," + more)) && ParseItems(more) == Some((items, rest))
    ensures ParseItems(s) == Some(([v] + items, rest))
  {
    assert ("," + more)[1..] == more;
  }

  lemma {:induction false} ItemsRoundTrip(items: seq<Json>, rest: string)
    requires items != [] && NormalNumbers(Arr(items))
    ensures ParseItems(Join(RenderItems(items)) + ("]" + rest)) == Some((items, rest))
    decreases items, 0
  {
    var head, tail := items[0], items[1..];
    if tail == [] {
      RenderRoundTrip(head, "]" + rest);
      assert items == [head];
      LastItem(Render(head) + ("]" + rest), head, rest);
    } else {
      var more := Join(RenderItems(tail)) + ("]" + rest);
      RenderRoundTrip(head, "," + more);
      ItemsRoundTrip(tail, rest);
      assert RenderItems(items)[1..] == RenderItems(tail);
      JoinCons(RenderItems(items), "]" + rest);
      NextItem(Render(head) + ("," + more), head, more, tail, rest);
      assert items == [head] + tail;
    }
  }

  lemma FieldStep(s: string, key: string, t: string, v: Json, rest: string)
    requires s != [] && s[0] == '"' && ParseString(s[1..]) == Some((key, t))
    requires t != [] && t[0] == ':' && ParseValue(t[1..]) == Some((v, rest))
    ensures ParseField(s) == Some((Field(key, v), rest))
  {
  }

  lemma FieldText(key: string, value: string, rest: string)
    ensures Quote(key) + ":" + value + rest == Quote(key) + (":" + (value + rest))
    ensures (":" + (value + rest))[1..] == value + rest
  {
    ConcatAssociates(Quote(key) + ":", value, rest);
    ConcatAssociates(Quote(key), ":", value + rest);
  }

  lemma {:induction false} FieldRoundTrip(f: Field, rest: string)
    requires NormalNumbers(f.value) && MayFollow(f.value, rest)
    ensures ParseField(Quote(f.key) + ":" + Render(f.value) + rest) == Some((f, rest))
    decreases f, 0
  {
    var after := ":" + (Render(f.value) + rest);
    FieldText(f.key, Render(f.value), rest);
    QuoteRoundTrip(f.key, after);
    RenderRoundTrip(f.value, rest);
    FieldStep(Quote(f.key) + after, f.key, after, f.value, rest);
  }

  lemma {:induction false} ObjRoundTrip(v: Json, rest: string)
    requires v.Obj? && NormalNumbers(v)
    ensures ParseValue(Render(v) + rest) == Some((v, rest))
    decreases v.fields, 1
  {
    var body := Join(RenderFields(v.fields));
    Bracketed("{", body, "}", rest);
    if v.fields == [] {
      assert (Render(v) + rest)[2..] == rest;
    } else {
      FieldsRoundTrip(v.fields, rest);
      assert body[0] == RenderFields(v.fields)[0][0] == '"';
      assert (Render(v) + rest)[1] == body[0];
    }
  }

  lemma LastField(s: string, f: Field, rest: string)
    requires ParseField(s) == Some((f, "}" + rest))
    ensures ParseFields(s) == Some(([f], rest))
  {
    assert ("}" + rest)[1..] == rest;
  }

  lemma NextField(s: string, f: Field, more: string, fields: seq<Field>, rest: string)
    requires ParseField(s) == Some((f, "," + more)) && ParseFields(more) == Some((fields, rest))
    ensures ParseFields(s) == Some(([f] + fields, rest))
  {
    assert ("," + more)[1..] == more;
  }

  lemma {:induction false} FieldsRoundTrip(fields: seq<Field>, rest: string)
    requires fields != [] && NormalNumbers(Obj(fields))
    ensures ParseFields(Join(RenderFields(fields)) + ("}" + rest)) == Some((fields, rest))
    decreases fields, 0
  {
    var head, tail := fields[0], fields[1..];
    var text := Quote(head.key) + ":" + Render(head.value);
    if tail == [] {
      FieldRoundTrip(head, "}" + rest);
      assert fields == [head];
      LastField(text + ("}" + rest), head, rest);
    } else {
      var more := Join(RenderFields(tail)) + ("}" + rest);
      FieldRoundTrip(head, "," + more);
      FieldsRoundTrip(tail, rest);
      FieldsText(fields, "}" + rest);
      NextField(text + ("," + more), head, more, tail, rest);
      assert fields == [head] + tail;
    }
  }

  lemma {:induction false} FieldsText(fields: seq<Field>, rest: string)
    requires |fields| > 1
    ensures Join(RenderFields(fields)) + rest
            == Quote(fields[0].key) + ":" + Render(fields[0].value) + ("," + (Join(RenderFields(fields[1..])) + rest))
  {
    assert RenderFields(fields)[1..] == RenderFields(fields[1..]);
    JoinCons(RenderFields(fields), rest);
  }

  // ── Main results ──────────────────────────────────────────────────────────

  /** The normal form of a value without non-finite floats has normal numbers. */
  lemma {:induction false} NormIsNormal(v: Json)
    requires AllFinite(v)
    ensures NormalNumbers(Norm(v))
    decreases v
  {
    match v
    case Arr(items) =>
      forall i | 0 <= i < |items|
        ensures NormalNumbers(NormItems(items)[i])
      {
        NormItemsAt(items, i);
        NormIsNormal(items[i]);
      }
    case Obj(fields) => NormFieldsAreNormal(fields);
    case _ =>
  }

  lemma {:induction false} NormFieldsAreNormal(fields: seq<Field>)
    requires AllFinite(Obj(fields))
    ensures NormalNumbers(Norm(Obj(fields)))
    decreases fields
  {
    var keys := SortKeys(Keys(fields));
    SortKeysSorts(Keys(fields));
    forall i | 0 <= i < |keys|
      ensures NormalNumbers(NormMembers(fields, keys)[i].value)
    {
      NormMembersAt(fields, keys, i);
      NormIsNormal(Lookup(fields, keys[i]));
    }
  }

  lemma NormKeepsKind(v: Json)
    ensures IsNumber(Norm(v)) <==> IsNumber(v)
  {
  }

  /**
   Decoding canonical text followed by anything gives the value in normal form and that rest, unless a
   number is followed by what a number could go on with.
   */
  lemma PrintRoundTrip(v: Json, rest: string)
    requires AllFinite(v)
    ensures ParseValue(Print(v) + rest) == Some((Norm(v), rest)) <==> MayFollow(v, rest)
  {
    PrintIsRenderNorm(v);
    NormIsNormal(v);
    NormKeepsKind(v);
    if MayFollow(v, rest) {
      RenderRoundTrip(Norm(v), rest);
    } else {
      NumberTextChars(Norm(v));
      assert (Render(Norm(v)) + rest)[0] == Render(Norm(v))[0];
      ValueIsNumber(Render(Norm(v)) + rest);
      NumberExtends(Norm(v), rest);
    }
  }

  /** Two values print alike exactly when they are equal up to the order of object keys and the form of numbers, at every depth. */
  lemma PrintAlikeIffEquiv(a: Json, b: Json)
    requires WellFormed(a) && WellFormed(b) && AllFinite(a) && AllFinite(b)
    ensures Print(a) == Print(b) <==> Equiv(a, b)
  {
    PrintRoundTrip(a, []);
    PrintRoundTrip(b, []);
    assert Print(a) + [] == Print(a) && Print(b) + [] == Print(b);
    NormEqualIffEquiv(a, b);
    PrintIsRenderNorm(a);
    PrintIsRenderNorm(b);
  }
}
