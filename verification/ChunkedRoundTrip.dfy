/** What the chunked reader does with well-formed bodies, and what it never does with any stream. */
module ChunkedRoundTrip {
  import opened Types
  import opened ChunkedBody

  // ── The coding, as a sender writes it ─────────────────────────────────────

  /** Size digits as written, extension with its semicolon, and data. */
  datatype Chunk = Chunk(size: seq<Byte>, ext: seq<Byte>, data: seq<Byte>)

  ghost predicate IsSizeText(t: seq<Byte>) {
    t != [] && forall i :: 0 <= i < |t| ==> IsHex(t[i])
  }

  ghost predicate IsExt(ext: seq<Byte>) {
    ext != [] ==> ext[0] == SEMICOLON && LF !in ext
  }

  /** The number that hexadecimal digits denote. */
  ghost function HexValue(t: seq<Byte>): nat
    requires forall i :: 0 <= i < |t| ==> IsHex(t[i])
  {
    if t == [] then 0 else HexValue(t[..|t| - 1]) * 16 + HexDigit(t[|t| - 1])
  }

  ghost predicate IsSizeLine(size: seq<Byte>, ext: seq<Byte>) {
    IsSizeText(size) && IsExt(ext) && |size| + |ext| + 2 <= MAX_LINE
  }

  ghost predicate IsChunk(c: Chunk) {
    IsSizeLine(c.size, c.ext) && c.data != [] && HexValue(c.size) == |c.data|
  }

  ghost predicate IsTrailer(t: seq<Byte>) {
    t != [] && LF !in t && |t| + 2 <= MAX_LINE
  }

  function SizeLine(size: seq<Byte>, ext: seq<Byte>): seq<Byte> {
    size + ext + [CR, LF]
  }

  function EncodeTrailers(trailers: seq<seq<Byte>>, rest: seq<Byte>): seq<Byte> {
    if trailers == [] then [CR, LF] + rest else (trailers[0] + [CR, LF]) + EncodeTrailers(trailers[1..], rest)
  }

  /** One chunk as sent, and what follows. */
  function Send(c: Chunk, tail: seq<Byte>): seq<Byte> {
    SizeLine(c.size, c.ext) + (c.data + [CR, LF] + tail)
  }

  /** A whole body: chunks, the last chunk of size zero, trailers, a blank line, and whatever follows. */
  function Encode(chunks: seq<Chunk>, last: Chunk, trailers: seq<seq<Byte>>, rest: seq<Byte>): seq<Byte> {
    if chunks == [] then SizeLine(last.size, last.ext) + EncodeTrailers(trailers, rest)
    else Send(chunks[0], Encode(chunks[1..], last, trailers, rest))
  }

  ghost predicate IsBody(chunks: seq<Chunk>, last: Chunk, trailers: seq<seq<Byte>>) {
    && (forall i :: 0 <= i < |chunks| ==> IsChunk(chunks[i]))
    && IsSizeLine(last.size, last.ext) && HexValue(last.size) == 0
    && (forall i :: 0 <= i < |trailers| ==> IsTrailer(trailers[i]))
  }

  function Data(chunks: seq<Chunk>): seq<Byte> {
    if chunks == [] then [] else chunks[0].data + Data(chunks[1..])
  }

  /** The data of the leading chunks that fit under the ceiling. */
  function Fitting(chunks: seq<Chunk>, total: nat): seq<Byte> {
    if chunks == [] || total + |chunks[0].data| > MAX_BODY then []
    else chunks[0].data + Fitting(chunks[1..], total + |chunks[0].data|)
  }

  // ── Lines and sizes ───────────────────────────────────────────────────────

  lemma {:induction false} LineEnds(text: seq<Byte>, rest: seq<Byte>, limit: nat)
    requires LF !in text && |text| + 1 <= limit
    ensures LineLength(text + [LF] + rest, limit) == |text| + 1
    decreases |text|
  {
    var s := text + [LF] + rest;
    if text != [] {
      assert s[0] == text[0] && s[1..] == text[1..] + [LF] + rest;
      LineEnds(text[1..], rest, limit - 1);
    }
  }

  lemma LineSplits(text: seq<Byte>, rest: seq<Byte>)
    requires LF !in text && |text| + 1 <= MAX_LINE
    ensures Line(text + [LF] + rest) == text + [LF] && AfterLine(text + [LF] + rest) == rest
  {
    LineEnds(text, rest, MAX_LINE);
  }

  lemma {:induction false} UpToStops(a: seq<Byte>, b: Byte, rest: seq<Byte>)
    requires b !in a
    ensures UpTo(a + [b] + rest, b) == a
    decreases |a|
  {
    var s := a + [b] + rest;
    if a != [] {
      assert s[0] == a[0] && s[1..] == a[1..] + [b] + rest;
      UpToStops(a[1..], b, rest);
    }
  }

  lemma {:induction false} UpToAll(a: seq<Byte>, b: Byte)
    requires b !in a
    ensures UpTo(a, b) == a
    decreases |a|
  {
    if a != [] {
      UpToAll(a[1..], b);
    }
  }

  lemma StripKeeps(size: seq<Byte>)
    requires IsSizeText(size)
    ensures Strip(size) == size && Strip(size + [CR, LF]) == size
  {
    assert StripRight(size) == size by {
      assert !IsSpace(size[|size| - 1]);
    }
    StripSpace(size, CR);
    StripSpace(size + [CR], LF);
    assert size + [CR] + [LF] == size + [CR, LF];
    assert !IsSpace(size[0]);
  }

  lemma StripSpace(s: seq<Byte>, b: Byte)
    requires IsSpace(b)
    ensures StripRight(s + [b]) == StripRight(s)
  {
    assert (s + [b])[..|s|] == s;
  }

  lemma {:induction false} DigitsValue(t: seq<Byte>, n: nat)
    requires n <= |t| && forall i :: 0 <= i < |t| ==> IsHex(t[i])
    ensures DigitsFrom(t, 0) == DigitsFrom(t[n..], HexValue(t[..n]))
  {
    if n == 0 {
      assert t[0..] == t && t[..0] == [];
    } else {
      DigitsValue(t, n - 1);
      assert t[n - 1..][1..] == t[n..] && t[..n][..n - 1] == t[..n - 1];
    }
  }

  lemma ParseValue(size: seq<Byte>)
    requires IsSizeText(size)
    ensures ParseInt16(size) == Some(HexValue(size))
  {
    DigitsValue(size, |size|);
    assert size[..|size|] == size && size[|size|..] == [];
    assert IsHex(size[0]);
    assert |size| >= 2 ==> IsHex(size[1]);
  }

  lemma SizeOfLine(size: seq<Byte>, ext: seq<Byte>)
    requires IsSizeText(size) && IsExt(ext)
    ensures SizeOf(SizeLine(size, ext)) == Some(HexValue(size))
  {
    StripKeeps(size);
    ParseValue(size);
    assert SEMICOLON !in size;
    if ext == [] {
      assert SizeLine(size, ext) == size + [CR, LF];
      UpToAll(size + [CR, LF], SEMICOLON);
    } else {
      assert SizeLine(size, ext) == size + [SEMICOLON] + (ext[1..] + [CR, LF]);
      UpToStops(size, SEMICOLON, ext[1..] + [CR, LF]);
    }
  }

  /** Reading a size line written by a sender. */
  lemma SizeLineSplits(size: seq<Byte>, ext: seq<Byte>, rest: seq<Byte>)
    requires IsSizeLine(size, ext)
    ensures var s := SizeLine(size, ext) + rest; Line(s) == SizeLine(size, ext) && AfterLine(s) == rest && s != []
    ensures SizeOf(SizeLine(size, ext)) == Some(HexValue(size))
  {
    var text := size + ext + [CR];
    assert LF !in size;
    assert LF !in text;
    LineSplits(text, rest);
    assert text + [LF] == SizeLine(size, ext);
    assert text + [LF] + rest == SizeLine(size, ext) + rest;
    SizeOfLine(size, ext);
  }

  lemma BlankSplits(rest: seq<Byte>)
    ensures Line([CR, LF] + rest) == [CR, LF] && AfterLine([CR, LF] + rest) == rest
  {
    LineSplits([CR], rest);
    assert [CR] + [LF] + rest == [CR, LF] + rest;
  }

  lemma TrailerSplits(t: seq<Byte>, rest: seq<Byte>)
    requires IsTrailer(t)
    ensures var s := (t + [CR, LF]) + rest; Line(s) == t + [CR, LF] && AfterLine(s) == rest && !IsBlank(Line(s)) && s != []
  {
    LineSplits(t + [CR], rest);
    assert (t + [CR]) + [LF] == t + [CR, LF];
    assert (t + [CR]) + [LF] + rest == (t + [CR, LF]) + rest;
  }

  lemma {:induction false} TrailersEnd(trailers: seq<seq<Byte>>, rest: seq<Byte>)
    requires forall i :: 0 <= i < |trailers| ==> IsTrailer(trailers[i])
    ensures SkipTrailers(EncodeTrailers(trailers, rest)) == rest
    decreases |trailers|
  {
    if trailers == [] {
      BlankSplits(rest);
    } else {
      TrailerSplits(trailers[0], EncodeTrailers(trailers[1..], rest));
      TrailersEnd(trailers[1..], rest);
    }
  }

  // ── Round trip ────────────────────────────────────────────────────────────

  lemma DiscardStep(s: seq<Byte>, kept: seq<Byte>, total: int, overflow: bool, size: int)
    requires s != [] && SizeOf(Line(s)) == Some(size) && size > 0 && (overflow || total + size > MAX_BODY) && |AfterLine(s)| >= size + 2
    ensures Chunks(s, kept, total, overflow) == Chunks(AfterLine(s)[size + 2..], kept, total, true)
  {
  }

  /** One encoded chunk is discarded once over the ceiling. */
  lemma SentIsDiscarded(c: Chunk, tail: seq<Byte>, kept: seq<Byte>, total: nat, overflow: bool)
    requires IsChunk(c) && (overflow || total + |c.data| > MAX_BODY)
    ensures Chunks(Send(c, tail), kept, total, overflow) == Chunks(tail, kept, total, true)
  {
    var after := c.data + [CR, LF] + tail;
    SizeLineSplits(c.size, c.ext, after);
    DiscardStep(Send(c, tail), kept, total, overflow, |c.data|);
    assert after[|c.data| + 2..] == tail;
  }

  /** One encoded chunk is kept while it fits. */
  lemma SentIsKept(c: Chunk, tail: seq<Byte>, kept: seq<Byte>, total: nat)
    requires IsChunk(c) && total + |c.data| <= MAX_BODY
    ensures Chunks(Send(c, tail), kept, total, false) == Chunks(tail, kept + c.data, total + |c.data|, false)
  {
    var after := c.data + [CR, LF] + tail;
    SizeLineSplits(c.size, c.ext, after);
    KeepStep(Send(c, tail), kept, total, |c.data|);
    assert after[|c.data| + 2..] == tail && after[..|c.data|] == c.data;
  }

  lemma ReadsLast(last: Chunk, trailers: seq<seq<Byte>>, rest: seq<Byte>, kept: seq<Byte>, total: nat, overflow: bool)
    requires IsBody([], last, trailers)
    ensures Chunks(Encode([], last, trailers, rest), kept, total, overflow) == Body(kept, overflow, rest)
  {
    SizeLineSplits(last.size, last.ext, EncodeTrailers(trailers, rest));
    TrailersEnd(trailers, rest);
  }

  /** Once over the ceiling, the rest of the body is read and nothing more is kept. */
  lemma {:induction false} ReadsDiscarding(chunks: seq<Chunk>, last: Chunk, trailers: seq<seq<Byte>>, rest: seq<Byte>,
                                           kept: seq<Byte>, total: nat)
    requires IsBody(chunks, last, trailers)
    ensures Chunks(Encode(chunks, last, trailers, rest), kept, total, true) == Body(kept, true, rest)
    decreases |chunks|
  {
    if chunks == [] {
      ReadsLast(last, trailers, rest, kept, total, true);
    } else {
      ReadsDiscarding(chunks[1..], last, trailers, rest, kept, total);
      SentIsDiscarded(chunks[0], Encode(chunks[1..], last, trailers, rest), kept, total, true);
    }
  }

  /** What the reader ends with when it has not passed the ceiling yet. */
  function Ends(chunks: seq<Chunk>, kept: seq<Byte>, total: nat, rest: seq<Byte>): Outcome {
    if chunks == [] then Body(kept, false, rest)
    else if total + |chunks[0].data| > MAX_BODY then Body(kept, true, rest)
    else Ends(chunks[1..], kept + chunks[0].data, total + |chunks[0].data|, rest)
  }

  lemma {:induction false} ReadsKeeping(chunks: seq<Chunk>, last: Chunk, trailers: seq<seq<Byte>>, rest: seq<Byte>,
                                        kept: seq<Byte>, total: nat)
    requires IsBody(chunks, last, trailers)
    ensures Chunks(Encode(chunks, last, trailers, rest), kept, total, false) == Ends(chunks, kept, total, rest)
    decreases |chunks|
  {
    if chunks == [] {
      ReadsLast(last, trailers, rest, kept, total, false);
    } else if total + |chunks[0].data| > MAX_BODY {
      ReadsDiscarding(chunks[1..], last, trailers, rest, kept, total);
      SentIsDiscarded(chunks[0], Encode(chunks[1..], last, trailers, rest), kept, total, false);
    } else {
      ReadsKeeping(chunks[1..], last, trailers, rest, kept + chunks[0].data, total + |chunks[0].data|);
      SentIsKept(chunks[0], Encode(chunks[1..], last, trailers, rest), kept, total);
    }
  }

  lemma {:induction false} EndsIs(chunks: seq<Chunk>, kept: seq<Byte>, total: nat, rest: seq<Byte>)
    requires total <= MAX_BODY
    ensures Ends(chunks, kept, total, rest) == Body(kept + Fitting(chunks, total), total + |Data(chunks)| > MAX_BODY, rest)
    decreases |chunks|
  {
    if chunks == [] {
      assert kept + [] == kept;
    } else if total + |chunks[0].data| > MAX_BODY {
      assert kept + [] == kept;
    } else {
      EndsIs(chunks[1..], kept + chunks[0].data, total + |chunks[0].data|, rest);
      ConcatAssociates(kept, chunks[0].data, Fitting(chunks[1..], total + |chunks[0].data|));
    }
  }

  lemma {:induction false} AllFits(chunks: seq<Chunk>, total: nat)
    requires total + |Data(chunks)| <= MAX_BODY
    ensures Fitting(chunks, total) == Data(chunks)
    decreases |chunks|
  {
    if chunks != [] {
      AllFits(chunks[1..], total + |chunks[0].data|);
    }
  }

  /**
   For a body cut into any chunks, with any extensions and trailers within the line limit, followed by
   any bytes: the reader stops exactly at those bytes, flags overflow exactly when the data exceeds the
   ceiling, and otherwise returns the body.
   */
  lemma RoundTrip(chunks: seq<Chunk>, last: Chunk, trailers: seq<seq<Byte>>, rest: seq<Byte>)
    requires IsBody(chunks, last, trailers)
    ensures var r := ReadAll(Encode(chunks, last, trailers, rest));
            && r.Body? && r.rest == rest
            && (r.overflow <==> |Data(chunks)| > MAX_BODY)
            && (!r.overflow ==> r.data == Data(chunks))
            && (r.overflow ==> r.data == Fitting(chunks, 0))
  {
    ReadsKeeping(chunks, last, trailers, rest, [], 0);
    EndsIs(chunks, [], 0, rest);
    assert [] + Fitting(chunks, 0) == Fitting(chunks, 0);
    if |Data(chunks)| <= MAX_BODY {
      AllFits(chunks, 0);
    }
  }

  // ── Every stream ──────────────────────────────────────────────────────────

  /** The size that a line read at a place of the stream announces. */
  function SizeAt(s: seq<Byte>, p: nat): Option<int>
    requires p <= |s|
  {
    if p == |s| then None else SizeOf(Line(s[p..]))
  }

  /** Where the data after that line begins. */
  function DataAt(s: seq<Byte>, p: nat): (d: nat)
    requires p <= |s|
    ensures p <= d <= |s|
  {
    p + LineLength(s[p..], MAX_LINE)
  }

  /** At p stands a whole chunk of positive size, and q is where it ends. */
  ghost predicate ChunkFromTo(s: seq<Byte>, p: nat, q: nat)
    requires p <= |s| && q <= |s|
  {
    SizeAt(s, p).Some? && SizeAt(s, p).value > 0 && q == DataAt(s, p) + SizeAt(s, p).value + 2
  }

  /** Whole chunks stand one after the other from the start of the stream; these are their places and the place after them. */
  ghost predicate IsWalk(s: seq<Byte>, ps: seq<nat>) {
    && ps != [] && ps[0] == 0 && (forall i :: 0 <= i < |ps| ==> ps[i] <= |s|)
    && forall i :: 0 <= i < |ps| - 1 ==> ChunkFromTo(s, ps[i], ps[i + 1])
  }

  function End(ps: seq<nat>): nat
    requires ps != []
  {
    ps[|ps| - 1]
  }

  /** How much data the chunks of a walk carry. */
  ghost function Carried(s: seq<Byte>, ps: seq<nat>): nat
    requires IsWalk(s, ps)
  {
    if |ps| == 1 then 0 else
      assert ChunkFromTo(s, ps[|ps| - 2], ps[|ps| - 1]);
      Carried(s, ps[..|ps| - 1]) + SizeAt(s, ps[|ps| - 2]).value
  }

  /** A walk below the ceiling comes to a line with a size of minus one. */
  ghost predicate MeetsMinusOne(s: seq<Byte>, ps: seq<nat>) {
    IsWalk(s, ps) && Carried(s, ps) <= MAX_BODY && SizeAt(s, End(ps)) == Some(-1)
  }

  /** How many bytes the reader holds when it is through. */
  function HeldBy(r: Outcome): nat {
    match r
    case Body(data, _, _) => |data|
    case Bad(_, kept, _) => kept
  }

  lemma WalkShorter(s: seq<Byte>, ps: seq<nat>)
    requires IsWalk(s, ps) && |ps| > 1
    ensures IsWalk(s, ps[..|ps| - 1]) && ChunkFromTo(s, ps[|ps| - 2], ps[|ps| - 1])
    ensures Carried(s, ps) == Carried(s, ps[..|ps| - 1]) + SizeAt(s, ps[|ps| - 2]).value
  {
    var shorter := ps[..|ps| - 1];
    forall i | 0 <= i < |shorter| - 1
      ensures ChunkFromTo(s, shorter[i], shorter[i + 1])
    {
      assert ChunkFromTo(s, ps[i], ps[i + 1]);
    }
  }

  lemma WalkLonger(s: seq<Byte>, ps: seq<nat>, q: nat)
    requires IsWalk(s, ps) && q <= |s| && ChunkFromTo(s, End(ps), q)
    ensures IsWalk(s, ps + [q]) && Carried(s, ps + [q]) == Carried(s, ps) + SizeAt(s, End(ps)).value
  {
    var longer := ps + [q];
    IsWalkLonger(s, ps, q);
    assert longer[..|longer| - 1] == ps && longer[|longer| - 2] == End(ps);
    WalkShorter(s, longer);
  }

  lemma IsWalkLonger(s: seq<Byte>, ps: seq<nat>, q: nat)
    requires IsWalk(s, ps) && q <= |s| && ChunkFromTo(s, End(ps), q)
    ensures IsWalk(s, ps + [q])
  {
    var longer := ps + [q];
    forall i | 0 <= i < |longer| - 1
      ensures ChunkFromTo(s, longer[i], longer[i + 1])
    {
      if i < |ps| - 1 {
        assert ChunkFromTo(s, ps[i], ps[i + 1]);
      }
    }
  }

  lemma ReadsChunkAt(s: seq<Byte>, p: nat, q: nat, kept: seq<Byte>)
    requires p <= |s| && q <= |s| && ChunkFromTo(s, p, q) && |kept| + SizeAt(s, p).value <= MAX_BODY
    ensures var d := DataAt(s, p);
            q > p && Chunks(s[p..], kept, |kept|, false) == Chunks(s[q..], kept + s[d..q - 2], |kept + s[d..q - 2]|, false)
  {
    var t, d, size := s[p..], DataAt(s, p), SizeAt(s, p).value;
    assert AfterLine(t) == s[d..];
    KeepStep(t, kept, |kept|, size);
    assert s[d..][size + 2..] == s[q..] && s[d..][..size] == s[d..q - 2];
  }

  /** The reader gets through a walk that stays below the ceiling, holding what it carries. */
  lemma {:induction false} ReadsWalk(s: seq<Byte>, ps: seq<nat>) returns (kept: seq<Byte>)
    requires IsWalk(s, ps) && Carried(s, ps) <= MAX_BODY
    ensures |kept| == Carried(s, ps) && ReadAll(s) == Chunks(s[End(ps)..], kept, |kept|, false)
    decreases |ps|
  {
    if |ps| == 1 {
      kept := [];
      assert s[0..] == s;
    } else {
      WalkShorter(s, ps);
      var before := ReadsWalk(s, ps[..|ps| - 1]);
      var p, q := ps[|ps| - 2], ps[|ps| - 1];
      ReadsChunkAt(s, p, q, before);
      kept := before + s[DataAt(s, p)..q - 2];
    }
  }

  /** A size of minus one met below the ceiling makes the reader hold all that is left of the stream. */
  lemma MinusOneDrains(s: seq<Byte>, ps: seq<nat>)
    requires MeetsMinusOne(s, ps)
    ensures ReadAll(s) == Bad(Truncated, Carried(s, ps) + (|s| - DataAt(s, End(ps))), true)
  {
    var kept := ReadsWalk(s, ps);
    var t := s[End(ps)..];
    assert AfterLine(t) == s[DataAt(s, End(ps))..];
    assert Chunks(t, kept, |kept|, false) == AfterSize(SizeOf(Line(t)), AfterLine(t), kept, |kept|, false);
  }

  /** Once over the ceiling, nothing more is held. */
  lemma {:induction false} DiscardingHolds(s: seq<Byte>, kept: seq<Byte>, total: int)
    ensures var r := Chunks(s, kept, total, true); HeldBy(r) == |kept| && (r.Bad? ==> !r.drained)
    decreases |s|
  {
    if s != [] && SizeOf(Line(s)).Some? && SizeOf(Line(s)).value != 0 {
      var rest, skip := AfterLine(s), Max0(SizeOf(Line(s)).value) + 2;
      if |rest| >= skip {
        DiscardingHolds(rest[skip..], kept, total);
      }
    }
  }

  /** Where no whole chunk that fits stands and no size of minus one, the reader stays below the ceiling. */
  lemma StopsBelow(s: seq<Byte>, p: nat, kept: seq<Byte>)
    requires p <= |s| && |kept| <= MAX_BODY
    requires SizeAt(s, p).Some? ==> var size := SizeAt(s, p).value;
             size != -1 && (size > 0 ==> |kept| + size > MAX_BODY || |s| < DataAt(s, p) + size + 2)
    ensures var r := Chunks(s[p..], kept, |kept|, false); HeldBy(r) <= MAX_BODY && (r.Bad? ==> !r.drained)
  {
    var t := s[p..];
    if t != [] {
      assert AfterLine(t) == s[DataAt(s, p)..];
      StopsBelowAfter(SizeOf(Line(t)), AfterLine(t), kept);
    }
  }

  lemma StopsBelowAfter(parsed: Option<int>, rest: seq<Byte>, kept: seq<Byte>)
    requires |kept| <= MAX_BODY
    requires parsed.Some? ==> parsed.value != -1 && (parsed.value > 0 ==> |kept| + parsed.value > MAX_BODY || |rest| < parsed.value + 2)
    ensures var r := AfterSize(parsed, rest, kept, |kept|, false); HeldBy(r) <= MAX_BODY && (r.Bad? ==> !r.drained)
  {
    if parsed.Some? && parsed.value > 0 {
      if |kept| + parsed.value > MAX_BODY {
        OverHolds(parsed.value, rest, kept);
      } else {
        ShortHolds(parsed.value, rest, kept);
      }
    }
  }

  lemma OverHolds(size: int, rest: seq<Byte>, kept: seq<Byte>)
    requires size > 0 && |kept| + size > MAX_BODY
    ensures var r := AfterSize(Some(size), rest, kept, |kept|, false); HeldBy(r) == |kept| && (r.Bad? ==> !r.drained)
  {
    var skip := Max0(size) + 2;
    if |rest| >= skip {
      var tail := rest[skip..];
      DiscardingHolds(tail, kept, |kept|);
      assert AfterSize(Some(size), rest, kept, |kept|, false) == Chunks(tail, kept, |kept|, true);
    }
  }

  lemma ShortHolds(size: int, rest: seq<Byte>, kept: seq<Byte>)
    requires size > 0 && |kept| + size <= MAX_BODY && |rest| < size + 2
    ensures var r := AfterSize(Some(size), rest, kept, |kept|, false); r.Bad? && r.kept <= |kept| + size && !r.drained
  {
  }

  /** From the end of a walk: the reader stays below the ceiling or the walk goes on to a size of minus one. */
  lemma {:induction false} WalksOn(s: seq<Byte>, ps: seq<nat>, kept: seq<Byte>)
    requires IsWalk(s, ps) && |kept| == Carried(s, ps) <= MAX_BODY
    ensures var r := Chunks(s[End(ps)..], kept, |kept|, false);
            HeldBy(r) > MAX_BODY || (r.Bad? && r.drained) ==> exists qs :: MeetsMinusOne(s, qs)
    decreases |s| - End(ps)
  {
    var p := End(ps);
    var d := DataAt(s, p);
    if SizeAt(s, p) == Some(-1) {
      assert MeetsMinusOne(s, ps);
    } else if SizeAt(s, p).Some? && SizeAt(s, p).value > 0 && |kept| + SizeAt(s, p).value <= MAX_BODY && |s| >= d + SizeAt(s, p).value + 2 {
      var q := d + SizeAt(s, p).value + 2;
      ReadsChunkAt(s, p, q, kept);
      WalkLonger(s, ps, q);
      assert End(ps + [q]) == q;
      WalksOn(s, ps + [q], kept + s[d..q - 2]);
    } else {
      StopsBelow(s, p, kept);
    }
  }

  /** The reader drains a stream exactly if whole chunks below the ceiling lead to a size of minus one. */
  lemma DrainsIff(s: seq<Byte>)
    ensures ReadAll(s).Bad? && ReadAll(s).drained <==> exists ps :: MeetsMinusOne(s, ps)
  {
    if ps :| MeetsMinusOne(s, ps) {
      MinusOneDrains(s, ps);
    }
    assert IsWalk(s, [0]) && Carried(s, [0]) == 0 && s[0..] == s;
    WalksOn(s, [0], []);
  }

  /** A walk below the ceiling comes to a line with a size below minus one. */
  ghost predicate MeetsRefused(s: seq<Byte>, ps: seq<nat>) {
    IsWalk(s, ps) && Carried(s, ps) <= MAX_BODY && SizeAt(s, End(ps)).Some? && SizeAt(s, End(ps)).value < -1
  }

  /** There the read is refused, and only what the chunks carried is held. */
  lemma BelowMinusOneIsRefused(s: seq<Byte>, ps: seq<nat>)
    requires MeetsRefused(s, ps)
    ensures ReadAll(s) == Bad(Refused, Carried(s, ps), false)
  {
    var kept := ReadsWalk(s, ps);
    var t := s[End(ps)..];
    assert AfterLine(t) == s[DataAt(s, End(ps))..];
    assert Chunks(t, kept, |kept|, false) == AfterSize(SizeOf(Line(t)), AfterLine(t), kept, |kept|, false);
  }

  /**
   Whatever the stream: the reader comes to hold more than the ceiling exactly if whole chunks below the
   ceiling lead to a line with a size of minus one, and what they carry and what is left after that line
   together exceed it.
   */
  lemma ExceedsCeilingIff(s: seq<Byte>)
    ensures HeldBy(ReadAll(s)) > MAX_BODY
            <==> exists ps :: MeetsMinusOne(s, ps) && Carried(s, ps) + (|s| - DataAt(s, End(ps))) > MAX_BODY
  {
    if HeldBy(ReadAll(s)) > MAX_BODY {
      ExceedingMeetsMinusOne(s);
      var ps :| MeetsMinusOne(s, ps);
      MinusOneDrains(s, ps);
    } else {
      forall ps | MeetsMinusOne(s, ps)
        ensures Carried(s, ps) + (|s| - DataAt(s, End(ps))) <= MAX_BODY
      {
        MinusOneDrains(s, ps);
      }
    }
  }

  lemma ExceedingMeetsMinusOne(s: seq<Byte>)
    requires HeldBy(ReadAll(s)) > MAX_BODY
    ensures exists ps :: MeetsMinusOne(s, ps)
  {
    assert IsWalk(s, [0]) && Carried(s, [0]) == 0 && s[0..] == s;
    WalksOn(s, [0], []);
  }

  /** A returned body never exceeds the ceiling, and where no line of the stream reads as minus one, nothing held does. */
  lemma BodyWithinCeiling(s: seq<Byte>)
    ensures ReadAll(s).Body? ==> |ReadAll(s).data| <= MAX_BODY
    ensures ReadAll(s).Bad? && ReadAll(s).kept > MAX_BODY ==> ReadAll(s).drained
    ensures (forall p :: 0 <= p <= |s| ==> SizeAt(s, p) != Some(-1)) ==> HeldBy(ReadAll(s)) <= MAX_BODY
  {
    if HeldBy(ReadAll(s)) > MAX_BODY {
      ExceedingMeetsMinusOne(s);
      var ps :| MeetsMinusOne(s, ps);
      MinusOneDrains(s, ps);
    }
  }

  /** A size line of minus one makes the reader hold all that follows before it reports the body truncated. */
  lemma NegativeSizeKeepsAll(data: seq<Byte>)
    ensures ReadAll([45, 49, LF] + data) == Bad(Truncated, |data|, true)
  {
    var line: seq<Byte> := [45, 49, LF];
    LineSplits([45, 49], data);
    assert [45, 49] + [LF] == line;
    UpToAll(line, SEMICOLON);
    StripSpace([45, 49], LF);
    assert [45, 49] + [LF] == line;
    assert StripRight([45, 49]) == [45, 49];
    assert Strip(line) == [45, 49];
    assert [45, 49][1..] == [49];
    assert DigitsFrom([49], 0) == Some(1);
    assert SizeOf(line) == Some(-1);
    var s := line + data;
    assert Line(s) == line && AfterLine(s) == data;
    assert Chunks(s, [], 0, false) == AfterSize(Some(-1), data, [], 0, false);
  }
}
