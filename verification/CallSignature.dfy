/**
 The identity of a tool call: the length-prefixed byte stream that is hashed into the call signature,
 as the Python SDK and the Rust engine build it. The hash itself is a parameter.
 */
module CallSignature {
  import opened Types
  import opened CanonicalJson
  import opened RustJson
  import JsonDecoder
  import Utf8

  type Byte = Utf8.Byte

  const LIMIT: int := 0x1_0000_0000

  /** Four bytes, least significant first. */
  function LittleEndian(n: nat): (b: seq<Byte>)
    requires n < LIMIT
    ensures |b| == 4
  {
    [n % 256, n / 256 % 256, n / 256 / 256 % 256, n / 256 / 256 / 256]
  }

  lemma LittleEndianIsInjective(m: nat, n: nat)
    requires m < LIMIT && n < LIMIT && LittleEndian(m) == LittleEndian(n)
    ensures m == n
  {
    var a, b := LittleEndian(m), LittleEndian(n);
    assert a[0] == b[0] && a[1] == b[1] && a[2] == b[2] && a[3] == b[3];
    assert m / 256 / 256 == n / 256 / 256;
    assert m / 256 == n / 256;
  }

  /** A text with its length in front, truncated to 32 bits. */
  function Prefixed(text: seq<Byte>): seq<Byte> {
    LittleEndian(|text| % LIMIT) + text
  }

  /** The session identifier (16 bytes, no prefix), the step, and the two prefixed texts. */
  function Stream(session: seq<Byte>, step: nat, name: seq<Byte>, args: seq<Byte>): seq<Byte>
    requires step < LIMIT
  {
    session + LittleEndian(step) + Prefixed(name) + Prefixed(args)
  }

  lemma TextsAreDetermined(a: seq<Byte>, x: seq<Byte>, b: seq<Byte>, y: seq<Byte>)
    requires |a| < LIMIT && |b| < LIMIT
    requires Prefixed(a) + x == Prefixed(b) + y
    ensures a == b && x == y
  {
    var s, t := Prefixed(a) + x, Prefixed(b) + y;
    assert s[..4] == LittleEndian(|a| % LIMIT) && t[..4] == LittleEndian(|b| % LIMIT);
    LittleEndianIsInjective(|a| % LIMIT, |b| % LIMIT);
    assert |a| == |b|;
    assert s[4..4 + |a|] == a && t[4..4 + |b|] == b;
    assert s[4 + |a|..] == x && t[4 + |b|..] == y;
  }

  lemma StreamParts(s: seq<Byte>, k: nat, n: seq<Byte>, a: seq<Byte>)
    requires |s| == 16 && k < LIMIT
    ensures var t := Stream(s, k, n, a);
            |t| >= 20 && t[..16] == s && t[16..20] == LittleEndian(k) && t[20..] == Prefixed(n) + Prefixed(a)
  {
    var fixed := s + LittleEndian(k);
    ConcatAssociates(fixed, Prefixed(n), Prefixed(a));
    assert |fixed| == 20 && fixed[..16] == s && fixed[16..] == LittleEndian(k);
  }

  /** With texts shorter than 2^32 bytes, no two different calls share a byte stream. */
  lemma StreamIsUnambiguous(s1: seq<Byte>, k1: nat, n1: seq<Byte>, a1: seq<Byte>, s2: seq<Byte>, k2: nat, n2: seq<Byte>, a2: seq<Byte>)
    requires |s1| == |s2| == 16
    requires k1 < LIMIT && |n1| < LIMIT && |a1| < LIMIT && k2 < LIMIT && |n2| < LIMIT && |a2| < LIMIT
    requires Stream(s1, k1, n1, a1) == Stream(s2, k2, n2, a2)
    ensures s1 == s2 && k1 == k2 && n1 == n2 && a1 == a2
  {
    StreamParts(s1, k1, n1, a1);
    StreamParts(s2, k2, n2, a2);
    LittleEndianIsInjective(k1, k2);
    TextsAreDetermined(n1, Prefixed(a1), n2, Prefixed(a2));
    assert Prefixed(a1) + [] == Prefixed(a1) && Prefixed(a2) + [] == Prefixed(a2);
    TextsAreDetermined(a1, [], a2, []);
  }

  // ── Building the stream ───────────────────────────────────────────────────

  /** An incremental hasher: what has been fed to it so far. */
  class Hasher {
    var fed: seq<Byte>

    constructor ()
      ensures fed == []
    {
      fed := [];
    }

    method Update(bytes: seq<Byte>)
      modifies this
      ensures fed == old(fed) + bytes
    {
      fed := fed + bytes;
    }

    /** Feeds the length of a text and then the text. */
    method UpdatePrefixed(text: seq<Byte>)
      modifies this
      ensures fed == old(fed) + Prefixed(text)
    {
      Update(LittleEndian(|text| % LIMIT));
      Update(text);
    }
  }

  /** The stream the Python SDK hashes; a non-finite float raises an error, and so does packing a number of 2^32 or more. */
  function PythonStream(session: seq<Byte>, step: int, name: string, args: Json): Result<seq<Byte>> {
    var n, a := Utf8.Encode(name), Utf8.Encode(Print(args));
    if !AllFinite(args) then Err("Invalid JSON number")
    else if 0 <= step < LIMIT && |n| < LIMIT && |a| < LIMIT then Ok(Stream(session, step, n, a))
    else Err("argument out of range")
  }

  /** The stream the Rust engine hashes; a length is truncated to 32 bits. */
  function RustStream(session: seq<Byte>, step: nat, name: string, args: Json): seq<Byte>
    requires step < LIMIT
  {
    Stream(session, step, Utf8.Encode(name), Utf8.Encode(RustPrint(args)))
  }

  /** Feeds the parts to a hasher one after the other; `digest` stands for BLAKE3 and its hexadecimal text. */
  method PythonSignature(session: seq<Byte>, step: int, name: string, args: Json, digest: seq<Byte> -> string)
    returns (r: Result<string>)
    ensures r == match PythonStream(session, step, name, args)
                 case Ok(bytes) => Ok(digest(bytes))
                 case Err(e) => Err(e)
  {
    if !AllFinite(args) {
      return Err("Invalid JSON number");
    }
    var canon := Print(args);
    var nameBytes, argsBytes := Utf8.Encode(name), Utf8.Encode(canon);
    var hasher := new Hasher();
    hasher.Update(session);
    if !(0 <= step < LIMIT) {
      return Err("argument out of range");
    }
    hasher.Update(LittleEndian(step));
    if |nameBytes| >= LIMIT {
      return Err("argument out of range");
    }
    hasher.UpdatePrefixed(nameBytes);
    if |argsBytes| >= LIMIT {
      return Err("argument out of range");
    }
    hasher.UpdatePrefixed(argsBytes);
    assert hasher.fed == Stream(session, step, nameBytes, argsBytes);
    r := Ok(digest(hasher.fed));
  }

  method RustSignature(session: seq<Byte>, step: nat, name: string, args: Json, digest: seq<Byte> -> string)
    returns (signature: string)
    requires step < LIMIT
    ensures signature == digest(RustStream(session, step, name, args))
  {
    var hasher := new Hasher();
    hasher.Update(session);
    hasher.Update(LittleEndian(step));
    var nameBytes := Utf8.Encode(name);
    hasher.UpdatePrefixed(nameBytes);
    var argsBytes := Utf8.Encode(RustPrint(args));
    hasher.UpdatePrefixed(argsBytes);
    assert hasher.fed == RustStream(session, step, name, args);
    signature := digest(hasher.fed);
  }

  // ── What a signature identifies ───────────────────────────────────────────

  /** A hash without collisions. */
  ghost predicate CollisionFree(digest: seq<Byte> -> string) {
    forall x, y :: digest(x) == digest(y) ==> x == y
  }

  /**
   Two calls the Python SDK accepts have one stream exactly if session, step, name and arguments (up to key
   order and the form of numbers) agree.
   */
  lemma PythonStreamIdentifiesCall(s1: seq<Byte>, k1: int, n1: string, v1: Json, s2: seq<Byte>, k2: int, n2: string, v2: Json)
    requires |s1| == |s2| == 16 && WellFormed(v1) && WellFormed(v2)
    requires PythonStream(s1, k1, n1, v1).Ok? && PythonStream(s2, k2, n2, v2).Ok?
    ensures PythonStream(s1, k1, n1, v1) == PythonStream(s2, k2, n2, v2)
            <==> s1 == s2 && k1 == k2 && n1 == n2 && Equiv(v1, v2)
  {
    JsonDecoder.PrintAlikeIffEquiv(v1, v2);
    if PythonStream(s1, k1, n1, v1) == PythonStream(s2, k2, n2, v2) {
      StreamIsUnambiguous(s1, k1, Utf8.Encode(n1), Utf8.Encode(Print(v1)), s2, k2, Utf8.Encode(n2), Utf8.Encode(Print(v2)));
      Utf8.EncodeIsInjective(n1, n2);
      Utf8.EncodeIsInjective(Print(v1), Print(v2));
    }
  }

  lemma SignatureIdentifiesCall(s1: seq<Byte>, k1: int, n1: string, v1: Json, s2: seq<Byte>, k2: int, n2: string, v2: Json,
                                digest: seq<Byte> -> string)
    requires |s1| == |s2| == 16 && WellFormed(v1) && WellFormed(v2) && CollisionFree(digest)
    requires PythonStream(s1, k1, n1, v1).Ok? && PythonStream(s2, k2, n2, v2).Ok?
    ensures digest(PythonStream(s1, k1, n1, v1).value) == digest(PythonStream(s2, k2, n2, v2).value)
            <==> s1 == s2 && k1 == k2 && n1 == n2 && Equiv(v1, v2)
  {
    PythonStreamIdentifiesCall(s1, k1, n1, v1, s2, k2, n2, v2);
  }

  /** For texts shorter than 2^32 bytes, the SDK and the engine hash the same stream exactly for the common argument values. */
  lemma StreamsAgreeIff(session: seq<Byte>, step: nat, name: string, args: Json)
    requires |session| == 16 && WellFormed(args) && RustRepresentable(args)
    requires PythonStream(session, step, name, args).Ok? && |Utf8.Encode(RustPrint(args))| < LIMIT
    ensures PythonStream(session, step, name, args).value == RustStream(session, step, name, args) <==> Common(args)
  {
    PrintersAgreeIff(args);
    if PythonStream(session, step, name, args).value == RustStream(session, step, name, args) {
      SameStreamSameText(session, step, Utf8.Encode(name), Print(args), RustPrint(args));
    }
  }

  lemma SameStreamSameText(session: seq<Byte>, step: nat, name: seq<Byte>, p: string, q: string)
    requires |session| == 16 && step < LIMIT && |name| < LIMIT && |Utf8.Encode(p)| < LIMIT && |Utf8.Encode(q)| < LIMIT
    requires Stream(session, step, name, Utf8.Encode(p)) == Stream(session, step, name, Utf8.Encode(q))
    ensures p == q
  {
    StreamIsUnambiguous(session, step, name, Utf8.Encode(p), session, step, name, Utf8.Encode(q));
    Utf8.EncodeIsInjective(p, q);
  }
}
