/**
 Reading a request body in the chunked transfer coding (section 7.1 of RFC 9112): size lines with
 extensions, data kept up to a ceiling and discarded beyond it, trailers, and every malformed stream.
 */
module ChunkedBody {
  import opened Types

  type Byte = x: int | 0 <= x < 256

  /** 1 MiB of body, 8 KiB per size or trailer line, 64 KiB per discarding read. */
  const MAX_BODY := 1048576
  const MAX_LINE := 8192
  const DISCARD_STEP := 65536

  const LF: Byte := 10
  const CR: Byte := 13
  const SEMICOLON: Byte := 59

  // ── Size lines ────────────────────────────────────────────────────────────

  predicate IsSpace(b: Byte) {
    b == 32 || 9 <= b <= 13
  }

  function StripLeft(s: seq<Byte>): seq<Byte> {
    if s != [] && IsSpace(s[0]) then StripLeft(s[1..]) else s
  }

  function StripRight(s: seq<Byte>): seq<Byte> {
    if s != [] && IsSpace(s[|s| - 1]) then StripRight(s[..|s| - 1]) else s
  }

  function Strip(s: seq<Byte>): seq<Byte> {
    StripRight(StripLeft(s))
  }

  /** The part before the first occurrence of a byte. */
  function UpTo(s: seq<Byte>, b: Byte): seq<Byte> {
    if s == [] || s[0] == b then [] else [s[0]] + UpTo(s[1..], b)
  }

  predicate IsHex(b: Byte) {
    48 <= b <= 57 || 65 <= b <= 70 || 97 <= b <= 102
  }

  function HexDigit(b: Byte): nat
    requires IsHex(b)
  {
    if b <= 57 then b - 48 else if b <= 70 then b - 55 else b - 87
  }

  /** Hexadecimal digits with single underscores between them. */
  function DigitsFrom(s: seq<Byte>, acc: nat): Option<nat> {
    if s == [] then Some(acc)
    else if IsHex(s[0]) then DigitsFrom(s[1..], acc * 16 + HexDigit(s[0]))
    else if s[0] == 95 && |s| > 1 && IsHex(s[1]) then DigitsFrom(s[2..], acc * 16 + HexDigit(s[1]))
    else None
  }

  function Unsigned(s: seq<Byte>): Option<nat> {
    var digits :=
      if |s| >= 2 && s[0] == 48 && (s[1] == 120 || s[1] == 88)
      then (if |s| >= 3 && s[2] == 95 then s[3..] else s[2..]) else s;
    if digits != [] && IsHex(digits[0]) then DigitsFrom(digits, 0) else None
  }

  /** The integer a base 16 literal denotes: optional sign, optional 0x, digits. */
  function ParseInt16(s: seq<Byte>): Option<int> {
    if s != [] && (s[0] == 43 || s[0] == 45) then
      match Unsigned(s[1..])
      case None => None
      case Some(n) => (var v: int := if s[0] == 45 then 0 - n else n; Some(v))
    else
      match Unsigned(s)
      case None => None
      case Some(n) => (var v: int := n; Some(v))
  }

  function SizeOf(line: seq<Byte>): Option<int> {
    ParseInt16(Strip(UpTo(line, SEMICOLON)))
  }

  // ── Reading ───────────────────────────────────────────────────────────────

  /** How many bytes a bounded line read takes: through the first line feed, up to the limit. */
  function LineLength(s: seq<Byte>, limit: nat): (n: nat)
    ensures n <= |s| && n <= limit && (s != [] && limit > 0 ==> n > 0)
  {
    if s == [] || limit == 0 then 0 else if s[0] == LF then 1 else 1 + LineLength(s[1..], limit - 1)
  }

  function Line(s: seq<Byte>): seq<Byte> {
    s[..LineLength(s, MAX_LINE)]
  }

  function AfterLine(s: seq<Byte>): seq<Byte> {
    s[LineLength(s, MAX_LINE)..]
  }

  predicate IsBlank(line: seq<Byte>) {
    line == [CR, LF] || line == [LF]
  }

  function SkipTrailers(s: seq<Byte>): seq<Byte>
    decreases |s|
  {
    if s == [] then s else if IsBlank(Line(s)) then AfterLine(s) else SkipTrailers(AfterLine(s))
  }

  /** `Refused` is the exception of the buffered reader itself, which takes no count below minus one. */
  datatype Error = Truncated | InvalidSize | Refused

  /** `drained` tells that a size of minus one made the reader take everything up to the end of the stream. */
  datatype Outcome =
    | Body(data: seq<Byte>, overflow: bool, rest: seq<Byte>)
    | Bad(error: Error, kept: nat, drained: bool)

  function Max0(n: int): nat {
    if n < 0 then 0 else n
  }

  /** The reader from any point of the stream on. */
  function Chunks(s: seq<Byte>, kept: seq<Byte>, total: int, overflow: bool): Outcome
    decreases |s|
  {
    if s == [] then Bad(Truncated, |kept|, false) else AfterSize(SizeOf(Line(s)), AfterLine(s), kept, total, overflow)
  }

  /** The reader once a size line was read. */
  function AfterSize(parsed: Option<int>, rest: seq<Byte>, kept: seq<Byte>, total: int, overflow: bool): Outcome
    decreases |rest|
  {
    match parsed
    case None => Bad(InvalidSize, |kept|, false)
    case Some(size) =>
      if size == 0 then Body(kept, overflow, SkipTrailers(rest))
      else if overflow || total + size > MAX_BODY then
        if |rest| < Max0(size) + 2 then Bad(Truncated, |kept|, false)
        else Chunks(rest[Max0(size) + 2..], kept, total, true)
      else if size < -1 then Bad(Refused, |kept|, false)
      else if size == -1 then Bad(Truncated, |kept| + |rest|, true)
      else if |rest| < size then Bad(Truncated, |kept|, false)
      else if |rest| < size + 2 then Bad(Truncated, |kept| + size, false)
      else Chunks(rest[size + 2..], kept + rest[..size], total + size, false)
  }

  function ReadAll(s: seq<Byte>): Outcome {
    Chunks(s, [], 0, false)
  }

  // ── The code ──────────────────────────────────────────────────────────────

  function Flatten(parts: seq<seq<Byte>>): seq<Byte> {
    if parts == [] then [] else Flatten(parts[..|parts| - 1]) + parts[|parts| - 1]
  }

  lemma FlattenSnoc(parts: seq<seq<Byte>>, data: seq<Byte>)
    ensures Flatten(parts + [data]) == Flatten(parts) + data
  {
    assert (parts + [data])[..|parts|] == parts;
  }

  lemma KeepStep(s: seq<Byte>, kept: seq<Byte>, total: int, size: int)
    requires s != [] && SizeOf(Line(s)) == Some(size) && size > 0 && total + size <= MAX_BODY && |AfterLine(s)| >= size + 2
    ensures Chunks(s, kept, total, false) == Chunks(AfterLine(s)[size + 2..], kept + AfterLine(s)[..size], total + size, false)
  {
  }

  class Connection {
    var pending: seq<Byte>

    constructor (bytes: seq<Byte>)
      ensures pending == bytes
    {
      pending := bytes;
    }

    method ReadLine(limit: nat) returns (line: seq<Byte>)
      modifies this
      ensures line == old(pending)[..LineLength(old(pending), limit)] && pending == old(pending)[LineLength(old(pending), limit)..]
    {
      var n := LineLength(pending, limit);
      line := pending[..n];
      pending := pending[n..];
    }

    /**
     Minus one reads to the end, and a count below it is refused; otherwise fewer bytes come only at the
     end of the stream.
     */
    method Read(count: int) returns (data: Result<seq<Byte>>)
      modifies this
      ensures data.Err? <==> count < -1
      ensures data.Err? ==> pending == old(pending)
      ensures data.Ok? ==> data.value + pending == old(pending)
      ensures data.Ok? ==> |data.value| == if count == -1 || |old(pending)| < count then |old(pending)| else count
    {
      if count < -1 {
        return Err("read length must be non-negative or -1");
      }
      var n := if count == -1 || |pending| < count then |pending| else count;
      data := Ok(pending[..n]);
      pending := pending[n..];
    }

    /** Discard bytes in bounded reads; false when the stream ends first. */
    method Consume(length: int) returns (ok: bool)
      modifies this
      ensures ok <==> |old(pending)| >= Max0(length)
      ensures ok ==> pending == old(pending)[Max0(length)..]
    {
      var remaining := length;
      ghost var all := pending;
      while remaining > 0
        invariant remaining <= Max0(length) && 0 <= Max0(length) - Max0(remaining) <= |all|
        invariant pending == all[Max0(length) - Max0(remaining)..]
      {
        var chunk := Read(if remaining < DISCARD_STEP then remaining else DISCARD_STEP);
        if chunk.value == [] {
          return false;
        }
        remaining := remaining - |chunk.value|;
      }
      ok := true;
    }

    /** Read and drop trailer lines up to the blank one. */
    method ReadTrailers()
      modifies this
      ensures pending == SkipTrailers(old(pending))
    {
      while true
        invariant SkipTrailers(pending) == SkipTrailers(old(pending))
        decreases |pending|
      {
        var trailer := ReadLine(MAX_LINE);
        if trailer == [] || trailer == [CR, LF] || trailer == [LF] {
          return;
        }
      }
    }

    /** Data beyond the ceiling and the line end after it. */
    method DiscardChunk(size: int) returns (ok: bool)
      modifies this
      ensures ok <==> |old(pending)| >= Max0(size) + 2
      ensures ok ==> pending == old(pending)[Max0(size) + 2..]
    {
      ok := Consume(size);
      if ok {
        ok := Consume(2);
      }
    }

    /** Data within the ceiling and the line end after it; what a failing read still kept is returned with its error. */
    method KeepChunk(size: int) returns (data: seq<Byte>, error: Option<Error>)
      requires size != 0
      modifies this
      ensures error.None? <==> size > 0 && |old(pending)| >= size + 2
      ensures error.None? ==> data == old(pending)[..size] && pending == old(pending)[size + 2..]
      ensures error.Some? ==> error.value == if size < -1 then Refused else Truncated
      ensures error.Some? ==>
                |data| == if size < -1 then 0 else if size == -1 then |old(pending)| else if |old(pending)| < size then 0 else size
    {
      ghost var all := pending;
      var read := Read(size);
      if read.Err? {
        return [], Some(Refused);
      }
      data := read.value;
      assert data == all[..|data|] && pending == all[|data|..];
      if |data| < size {
        return [], Some(Truncated);
      }
      var ok := Consume(2);
      error := if ok then None else Some(Truncated);
    }

    /** The data of one chunk of non-zero size; `s` is the stream from its size line on. */
    method TakeChunk(size: int, parts: seq<seq<Byte>>, total: int, overflow: bool, ghost s: seq<Byte>)
      returns (bad: Option<Outcome>, parts': seq<seq<Byte>>, total': int, overflow': bool)
      requires s != [] && SizeOf(Line(s)) == Some(size) && size != 0 && pending == AfterLine(s)
      modifies this
      ensures bad.Some? ==> bad.value.Bad? && bad.value == Chunks(s, Flatten(parts), total, overflow)
      ensures bad.None? ==> |pending| < |s|
      ensures bad.None? ==> Chunks(pending, Flatten(parts'), total', overflow') == Chunks(s, Flatten(parts), total, overflow)
    {
      bad, parts', total', overflow' := None, parts, total, overflow;
      if overflow || total + size > MAX_BODY {
        overflow' := true;
        var ok := DiscardChunk(size);
        if !ok {
          bad := Some(Bad(Truncated, |Flatten(parts)|, false));
        }
      } else {
        var data, error := KeepChunk(size);
        FlattenSnoc(parts, data);
        if error.Some? {
          bad := Some(Bad(error.value, |Flatten(parts + [data])|, size == -1));
        } else {
          KeepStep(s, Flatten(parts), total, size);
          parts', total' := parts + [data], total + size;
        }
      }
    }

    /** The whole loop: size line, data kept or discarded, line end, until the last chunk or an error. */
    method ReadChunked() returns (r: Outcome)
      modifies this
      ensures r == ReadAll(old(pending))
      ensures r.Body? ==> pending == r.rest
    {
      var parts: seq<seq<Byte>> := [];
      var total := 0;
      var overflow := false;
      while true
        invariant Chunks(pending, Flatten(parts), total, overflow) == ReadAll(old(pending))
        decreases |pending|
      {
        ghost var s := pending;
        var line := ReadLine(MAX_LINE);
        if line == [] {
          return Bad(Truncated, |Flatten(parts)|, false);
        }
        var size := SizeOf(line);
        if size.None? {
          return Bad(InvalidSize, |Flatten(parts)|, false);
        }
        if size.value == 0 {
          ReadTrailers();
          return Body(Flatten(parts), overflow, pending);
        }
        var bad;
        bad, parts, total, overflow := TakeChunk(size.value, parts, total, overflow, s);
        if bad.Some? {
          return bad.value;
        }
      }
    }
  }
}
