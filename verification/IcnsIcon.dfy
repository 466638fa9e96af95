/** The icns chunk table: walking its length-prefixed chunks and choosing the PNG to embed
    (apps/mirri-desktop/src/main/app-icon.ts). */
module IcnsIcon {
  import opened Wrappers

  type Byte = b: int | 0 <= b < 256

  const PNG_MAGIC: seq<Byte> := [0x89, 0x50, 0x4e, 0x47]
  const TARGET_PIXELS: nat := 256
  const WORD: nat := 0x1_0000_0000

  /** One visited chunk: its raw four type bytes and its payload. */
  datatype Chunk = Chunk(kind: seq<Byte>, data: seq<Byte>)

  datatype Candidate = Candidate(pixels: nat, data: seq<Byte>)

  /** `toString('ascii')` drops the high bit of every byte. */
  function Ascii(bytes: seq<Byte>): (s: string)
    ensures |s| == |bytes|
  {
    seq(|bytes|, i requires 0 <= i < |bytes| => (bytes[i] % 128) as char)
  }

  /** `readUInt32BE`. */
  function ReadWord(b: seq<Byte>, at: nat): (n: nat)
    requires at + 4 <= |b|
    ensures n < WORD
  {
    WordOf(b[at], b[at + 1], b[at + 2], b[at + 3])
  }

  function WordOf(b0: int, b1: int, b2: int, b3: int): int {
    b0 * 0x100_0000 + b1 * 0x1_0000 + b2 * 0x100 + b3
  }

  function PixelsOf(kind: string): nat {
    if kind == "ic07" then 128
    else if kind == "ic08" || kind == "ic13" then 256
    else if kind == "ic09" || kind == "ic12" then 512
    else if kind == "ic10" || kind == "ic14" then 1024
    else if kind == "ic11" then 64
    else 0
  }

  predicate IsPng(data: seq<Byte>) {
    |data| > |PNG_MAGIC| && data[..|PNG_MAGIC|] == PNG_MAGIC
  }

  // ---------------------------------------------------------------- the walk

  predicate HasHeader(b: seq<Byte>) {
    && |b| >= 8 && Ascii(b[..4]) == "icns"
    && 8 <= ReadWord(b, 4) <= |b|
  }

  /** A chunk starts at `offset` and stays within `total`. */
  predicate ChunkAt(b: seq<Byte>, total: nat, offset: nat)
    requires total <= |b|
  {
    offset + 8 <= total && ReadWord(b, offset + 4) >= 8 && offset + ReadWord(b, offset + 4) <= total
  }

  /** The chunks visited from `offset` on; the walk ends at the first that does not fit. */
  function Visited(b: seq<Byte>, total: nat, offset: nat): seq<Chunk>
    requires total <= |b|
    decreases total - offset
  {
    if ChunkAt(b, total, offset) then
      var n := ReadWord(b, offset + 4);
      [Chunk(b[offset..offset + 4], b[offset + 8..offset + n])] + Visited(b, total, offset + n)
    else []
  }

  function Candidates(chunks: seq<Chunk>): seq<Candidate> {
    if chunks == [] then []
    else
      var c := chunks[|chunks| - 1];
      Candidates(chunks[..|chunks| - 1]) +
      (if IsPng(c.data) then [Candidate(PixelsOf(Ascii(c.kind)), c.data)] else [])
  }

  // ---------------------------------------------------------------- the choice

  function AtOrAbove(cs: seq<Candidate>): seq<Candidate> {
    if cs == [] then []
    else (if cs[0].pixels >= TARGET_PIXELS then [cs[0]] else []) + AtOrAbove(cs[1..])
  }

  /** Into a sorted list, before its equals: earlier candidates stay earlier. */
  function Insert(c: Candidate, sorted: seq<Candidate>): (r: seq<Candidate>)
    ensures r != []
  {
    if sorted == [] || c.pixels <= sorted[0].pixels then [c] + sorted
    else [sorted[0]] + Insert(c, sorted[1..])
  }

  /** The stable sort by pixels. */
  function SortByPixels(cs: seq<Candidate>): (r: seq<Candidate>)
    ensures r == [] <==> cs == []
  {
    if cs == [] then [] else Insert(cs[0], SortByPixels(cs[1..]))
  }

  /** The reduction that keeps a strictly larger candidate. */
  function Largest(best: Candidate, cs: seq<Candidate>): Candidate
    decreases |cs|
  {
    if cs == [] then best else Largest(if cs[0].pixels > best.pixels then cs[0] else best, cs[1..])
  }

  function Choose(cs: seq<Candidate>): Option<seq<Byte>> {
    if cs == [] then None
    else
      var above := SortByPixels(AtOrAbove(cs));
      if above != [] then Some(above[0].data) else Some(Largest(cs[0], cs).data)
  }

  function PickPng(b: seq<Byte>): Option<seq<Byte>> {
    if HasHeader(b) then Choose(Candidates(Visited(b, ReadWord(b, 4), 8))) else None
  }

  /** One more chunk at the end of what has been seen is one more candidate at most. */
  lemma CandidatesSnoc(seen: seq<Chunk>, c: Chunk)
    ensures Candidates(seen + [c])
         == Candidates(seen) + (if IsPng(c.data) then [Candidate(PixelsOf(Ascii(c.kind)), c.data)] else [])
  {
    var all := seen + [c];
    assert all[..|all| - 1] == seen && all[|all| - 1] == c;
  }

  lemma MoveBoundary<T>(seen: seq<T>, next: T, later: seq<T>)
    ensures seen + ([next] + later) == (seen + [next]) + later
  {
  }

  /** `pickPngChunk`: every read is in bounds and the walk ends, for every byte string. */
  method PickPngChunk(icns: seq<Byte>) returns (png: Option<seq<Byte>>)
    ensures png == PickPng(icns)
  {
    if |icns| < 8 || Ascii(icns[..4]) != "icns" { return None; }
    var declaredTotal := ReadWord(icns, 4);
    if declaredTotal < 8 || declaredTotal > |icns| { return None; }
    var candidates := CollectPngChunks(icns, declaredTotal);
    png := Choose(candidates);
  }

  /** The walking loop of `pickPngChunk`. */
  method CollectPngChunks(icns: seq<Byte>, declaredTotal: nat) returns (candidates: seq<Candidate>)
    requires 8 <= declaredTotal <= |icns|
    ensures candidates == Candidates(Visited(icns, declaredTotal, 8))
  {
    hide ReadWord, IsPng, Ascii, PixelsOf;
    candidates := [];
    ghost var seen: seq<Chunk> := [];
    var offset := 8;
    while offset + 8 <= declaredTotal
      invariant 8 <= offset <= declaredTotal
      invariant candidates == Candidates(seen)
      invariant seen + Visited(icns, declaredTotal, offset) == Visited(icns, declaredTotal, 8)
      decreases declaredTotal - offset
    {
      var chunkLength := ReadWord(icns, offset + 4);
      if chunkLength < 8 || offset + chunkLength > declaredTotal { break; }
      var kind, data := icns[offset..offset + 4], icns[offset + 8..offset + chunkLength];
      CandidatesSnoc(seen, Chunk(kind, data));
      MoveBoundary(seen, Chunk(kind, data), Visited(icns, declaredTotal, offset + chunkLength));
      if IsPng(data) {
        candidates := candidates + [Candidate(PixelsOf(Ascii(kind)), data)];
      }
      seen := seen + [Chunk(kind, data)];
      offset := offset + chunkLength;
    }
    assert Visited(icns, declaredTotal, offset) == [];
    assert seen == Visited(icns, declaredTotal, 8);
  }

  // ---------------------------------------------------------------- reading what was written

  function WriteWord(n: nat): (r: seq<Byte>)
    requires n < WORD
    ensures |r| == 4
  {
    [n / 0x100_0000, n / 0x1_0000 % 256, n / 256 % 256, n % 256]
  }

  lemma WordRoundTrip(n: nat)
    requires n < WORD
    ensures var w := WriteWord(n); WordOf(w[0], w[1], w[2], w[3]) == n
  {
    assert n / 0x1_0000 == n / 256 / 256 && n / 0x100_0000 == n / 256 / 256 / 256;
  }

  function WriteChunk(c: Chunk): seq<Byte>
    requires |c.kind| == 4 && |c.data| + 8 < WORD
  {
    c.kind + WriteWord(|c.data| + 8) + c.data
  }

  ghost predicate Writable(chunks: seq<Chunk>) {
    forall i :: 0 <= i < |chunks| ==> |chunks[i].kind| == 4 && |chunks[i].data| + 8 < WORD
  }

  function WriteChunks(chunks: seq<Chunk>): seq<Byte>
    requires Writable(chunks)
  {
    if chunks == [] then [] else WriteChunk(chunks[0]) + WriteChunks(chunks[1..])
  }

  /** Bytes at which the walk stops: too short for a header, or a length that does not fit. */
  predicate StopsAt(tail: seq<Byte>) {
    |tail| < 8 || ReadWord(tail, 4) < 8 || ReadWord(tail, 4) > |tail|
  }

  /** A file: magic, total length, the chunks, a tail counted in the total, and bytes after it. */
  function WriteFile(chunks: seq<Chunk>, tail: seq<Byte>, rest: seq<Byte>): seq<Byte>
    requires Writable(chunks) && 8 + |WriteChunks(chunks)| + |tail| < WORD
  {
    [0x69, 0x63, 0x6e, 0x73] + WriteWord(8 + |WriteChunks(chunks)| + |tail|) + (WriteChunks(chunks) + tail) + rest
  }

  /** A part of a string reads the same word at its own offset. */
  lemma WordInside(b: seq<Byte>, from: nat, until: nat, part: seq<Byte>, at: nat)
    requires from <= until <= |b| && b[from..until] == part && at + 4 <= |part|
    ensures ReadWord(b, from + at) == ReadWord(part, at)
  {
    forall j | at <= j < at + 4 ensures b[from + j] == part[j] {
      assert b[from..until][j] == b[from + j];
    }
  }

  lemma WordAfter(before: seq<Byte>, n: nat, after: seq<Byte>)
    requires n < WORD
    ensures ReadWord(before + (WriteWord(n) + after), |before|) == n
  {
    WordRoundTrip(n);
  }

  lemma SliceOfSlice(b: seq<Byte>, from: nat, until: nat, lo: nat, hi: nat)
    requires from <= until <= |b| && lo <= hi <= until - from
    ensures b[from..until][lo..hi] == b[from + lo..from + hi]
  {
    var whole := b[from..until];
    forall j | 0 <= j < hi - lo ensures whole[lo..hi][j] == b[from + lo..from + hi][j] {
      assert whole[lo..hi][j] == whole[lo + j];
    }
  }

  lemma SplitChunk(c: Chunk, more: seq<Byte>)
    requires |c.kind| == 4 && |c.data| + 8 < WORD
    ensures var n := |c.data| + 8; var w := WriteChunk(c) + more;
            && |w| == n + |more| && w[0..4] == c.kind && w[8..n] == c.data && w[n..|w|] == more
            && w == c.kind + (WriteWord(n) + (c.data + more))
  {
  }

  /** Where a written chunk starts, the walk reads that chunk and moves to what follows it. */
  lemma ReadsWrittenChunk(b: seq<Byte>, total: nat, offset: nat, c: Chunk, more: seq<Byte>)
    requires |c.kind| == 4 && |c.data| + 8 < WORD && offset <= total <= |b|
    requires b[offset..total] == WriteChunk(c) + more
    ensures var n := |c.data| + 8;
            && offset + n <= total && ReadWord(b, offset + 4) == n
            && b[offset + n..total] == more
            && Visited(b, total, offset) == [c] + Visited(b, total, offset + n)
  {
    hide WriteChunk, WriteWord, ReadWord, Visited;
    var n := |c.data| + 8;
    var w := WriteChunk(c) + more;
    SplitChunk(c, more);
    WordAfter(c.kind, n, c.data + more);
    WordInside(b, offset, total, w, 4);
    SliceOfSlice(b, offset, total, 0, 4);
    SliceOfSlice(b, offset, total, 8, n);
    SliceOfSlice(b, offset, total, n, total - offset);
    VisitedUnfold(b, total, offset);
  }

  lemma VisitedUnfold(b: seq<Byte>, total: nat, offset: nat)
    requires total <= |b| && ChunkAt(b, total, offset)
    ensures var n := ReadWord(b, offset + 4);
            Visited(b, total, offset)
            == [Chunk(b[offset..offset + 4], b[offset + 8..offset + n])] + Visited(b, total, offset + n)
  {}

  lemma VisitsNothing(b: seq<Byte>, total: nat, offset: nat, tail: seq<Byte>)
    requires StopsAt(tail) && offset <= total <= |b| && b[offset..total] == tail
    ensures Visited(b, total, offset) == []
  {
    if |tail| >= 8 { WordInside(b, offset, total, tail, 4); }
  }

  /** The walk visits exactly the chunks that were written, then stops at the tail. */
  lemma {:induction false} VisitsWritten(b: seq<Byte>, total: nat, offset: nat, chunks: seq<Chunk>, tail: seq<Byte>)
    requires Writable(chunks) && StopsAt(tail) && offset <= total <= |b|
    requires b[offset..total] == WriteChunks(chunks) + tail
    ensures Visited(b, total, offset) == chunks
    decreases |chunks|
  {
    hide Visited;
    if chunks == [] {
      assert b[offset..total] == tail;
      VisitsNothing(b, total, offset, tail);
    } else {
      hide WriteChunk, WriteWord, Ascii, ReadWord, StopsAt;
      var c, more := chunks[0], WriteChunks(chunks[1..]) + tail;
      assert WriteChunks(chunks) + tail == WriteChunk(c) + more;
      ReadsWrittenChunk(b, total, offset, c, more);
      VisitsWritten(b, total, offset + |c.data| + 8, chunks[1..], tail);
    }
  }

  lemma SplitFile(chunks: seq<Chunk>, tail: seq<Byte>, rest: seq<Byte>)
    requires Writable(chunks) && 8 + |WriteChunks(chunks)| + |tail| < WORD
    ensures var b, body := WriteFile(chunks, tail, rest), WriteChunks(chunks) + tail;
            && |b| == 8 + |body| + |rest|
            && b == [0x69, 0x63, 0x6e, 0x73] + (WriteWord(8 + |body|) + (body + rest))
            && b[..4] == [0x69, 0x63, 0x6e, 0x73] && b[8..8 + |body|] == body
  {
    hide WriteChunks, WriteWord, Writable;
  }

  lemma MagicReadsBack()
    ensures Ascii([0x69, 0x63, 0x6e, 0x73]) == "icns"
  {
  }

  /** For a file written from a chunk list, with anything behind it that stops the walk, the
      choice is made among exactly those chunks. So a corrupt length ends the walk but does
      not lose the chunks before it. */
  lemma PicksAmongWrittenChunks(chunks: seq<Chunk>, tail: seq<Byte>, rest: seq<Byte>)
    requires Writable(chunks) && 8 + |WriteChunks(chunks)| + |tail| < WORD && StopsAt(tail)
    ensures PickPng(WriteFile(chunks, tail, rest)) == Choose(Candidates(chunks))
  {
    var b, total := WriteFile(chunks, tail, rest), 8 + |WriteChunks(chunks)| + |tail|;
    SplitFile(chunks, tail, rest);
    MagicReadsBack();
    WordAfter([0x69, 0x63, 0x6e, 0x73], total, WriteChunks(chunks) + tail + rest);
    VisitsWritten(b, total, 8, chunks, tail);
  }

  /** So a corrupt length gives no icon if and only if no chunk before it is a PNG. */
  lemma NothingPickedIff(chunks: seq<Chunk>, tail: seq<Byte>, rest: seq<Byte>)
    requires Writable(chunks) && 8 + |WriteChunks(chunks)| + |tail| < WORD && StopsAt(tail)
    ensures PickPng(WriteFile(chunks, tail, rest)) == None <==> Candidates(chunks) == []
  {
    hide WriteFile, WriteChunks, Candidates, StopsAt, PickPng;
    PicksAmongWrittenChunks(chunks, tail, rest);
    ChoiceIsBest(Candidates(chunks));
  }

  const SMALL_PNG: seq<Byte> := [0x89, 0x50, 0x4e, 0x47, 0]
  const LENGTH_SEVEN: seq<Byte> := [0x69, 0x63, 0x30, 0x39, 0, 0, 0, 7]

  /** One such file: a PNG chunk, then a chunk whose length is shorter than its header. */
  lemma CorruptLengthKeepsIcon(rest: seq<Byte>)
    ensures StopsAt(LENGTH_SEVEN)
    ensures var chunks := [Chunk([0x69, 0x63, 0x30, 0x38], SMALL_PNG)];
            && Writable(chunks) && 8 + |WriteChunks(chunks)| + |LENGTH_SEVEN| < WORD
            && PickPng(WriteFile(chunks, LENGTH_SEVEN, rest)) != None
  {
    var c := Chunk([0x69, 0x63, 0x30, 0x38], SMALL_PNG);
    assert ReadWord(LENGTH_SEVEN, 4) == 7;
    assert WriteChunks([c][1..]) == [];
    assert IsPng(SMALL_PNG);
    var none: seq<Chunk> := [];
    CandidatesSnoc(none, c);
    assert none + [c] == [c];
    NothingPickedIff([c], LENGTH_SEVEN, rest);
  }

  lemma WordRestored(b: seq<Byte>, at: nat)
    requires at + 4 <= |b|
    ensures WriteWord(ReadWord(b, at)) == b[at..at + 4]
  {
    var b0: int, b1: int, b2: int, b3: int := b[at], b[at + 1], b[at + 2], b[at + 3];
    var n := ReadWord(b, at);
    assert n == ((b0 * 256 + b1) * 256 + b2) * 256 + b3;
    assert n / 256 == (b0 * 256 + b1) * 256 + b2 && n % 256 == b3;
    assert n / 256 / 256 == b0 * 256 + b1 && n / 256 % 256 == b2;
    assert n / 256 / 256 / 256 == b0 && n / 256 / 256 % 256 == b1;
    assert n / 0x1_0000 == n / 256 / 256 && n / 0x100_0000 == n / 256 / 256 / 256;
  }

  /** One step of the walk, written back. */
  lemma ChunkRestored(b: seq<Byte>, total: nat, offset: nat)
    requires total <= |b| && ChunkAt(b, total, offset)
    ensures var n := ReadWord(b, offset + 4);
            var c := Chunk(b[offset..offset + 4], b[offset + 8..offset + n]);
            && |c.kind| == 4 && |c.data| + 8 == n
            && b[offset..total] == WriteChunk(c) + b[offset + n..total]
  {
    hide WriteWord, ReadWord;
    WordRestored(b, offset + 4);
    var n := ReadWord(b, offset + 4);
    assert b[offset..total] == b[offset..offset + 4] + b[offset + 4..offset + 8] + b[offset + 8..offset + n] + b[offset + n..total];
  }

  lemma {:induction false} WalkRestored(b: seq<Byte>, total: nat, offset: nat) returns (tail: seq<Byte>)
    requires offset <= total <= |b|
    ensures Writable(Visited(b, total, offset)) && StopsAt(tail)
    ensures b[offset..total] == WriteChunks(Visited(b, total, offset)) + tail
    decreases total - offset
  {
    hide ReadWord, WriteChunk;
    if ChunkAt(b, total, offset) {
      var n := ReadWord(b, offset + 4);
      var c := Chunk(b[offset..offset + 4], b[offset + 8..offset + n]);
      ChunkRestored(b, total, offset);
      tail := WalkRestored(b, total, offset + n);
      WriteCons(c, Visited(b, total, offset + n), tail);
    } else {
      tail := b[offset..total];
      if |tail| >= 8 { WordInside(b, offset, total, tail, 4); }
    }
  }

  lemma WriteCons(c: Chunk, chunks: seq<Chunk>, tail: seq<Byte>)
    requires Writable(chunks) && |c.kind| == 4 && |c.data| + 8 < WORD
    ensures Writable([c] + chunks)
    ensures WriteChunks([c] + chunks) + tail == WriteChunk(c) + (WriteChunks(chunks) + tail)
  {
    hide WriteChunk;
    assert ([c] + chunks)[1..] == chunks;
  }

  /** Every byte string with a header is, behind its first four bytes, the file written from
      the chunks the walk visits and a tail that stops it. Of the first four bytes only the
      low seven bits are fixed. */
  lemma EveryHeaderIsAFile(b: seq<Byte>) returns (chunks: seq<Chunk>, tail: seq<Byte>, rest: seq<Byte>)
    requires HasHeader(b)
    ensures chunks == Visited(b, ReadWord(b, 4), 8) && StopsAt(tail)
    ensures Writable(chunks) && 8 + |WriteChunks(chunks)| + |tail| < WORD
    ensures b[4..] == WriteFile(chunks, tail, rest)[4..]
  {
    hide ReadWord, WriteWord, WriteChunks, Visited, StopsAt, Ascii;
    var total := ReadWord(b, 4);
    chunks := Visited(b, total, 8);
    tail := WalkRestored(b, total, 8);
    rest := b[total..];
    WordRestored(b, 4);
    var body := WriteChunks(chunks) + tail;
    assert |body| == total - 8;
    assert b[4..] == b[4..8] + b[8..total] + b[total..];
    assert WriteFile(chunks, tail, rest)[4..] == WriteWord(total) + body + rest;
  }

  // ---------------------------------------------------------------- the choice is the best one

  /** The first candidate of the smallest size at or above the target, ... */
  ghost predicate IsSmallestAbove(cs: seq<Candidate>, i: nat)
    requires i < |cs|
  {
    && cs[i].pixels >= TARGET_PIXELS
    && (forall j :: 0 <= j < |cs| && cs[j].pixels >= TARGET_PIXELS ==> cs[i].pixels <= cs[j].pixels)
    && (forall j :: 0 <= j < i ==> cs[j].pixels != cs[i].pixels)
  }

  /** ... or, if none reaches the target, the first of the largest size. */
  ghost predicate IsLargestBelow(cs: seq<Candidate>, i: nat)
    requires i < |cs|
  {
    && (forall j :: 0 <= j < |cs| ==> cs[j].pixels < TARGET_PIXELS && cs[j].pixels <= cs[i].pixels)
    && (forall j :: 0 <= j < i ==> cs[j].pixels != cs[i].pixels)
  }

  /** The head of the sorted list is the first minimum. */
  lemma {:induction false} SortedHead(cs: seq<Candidate>) returns (i: nat)
    requires cs != []
    ensures i < |cs| && SortByPixels(cs)[0] == cs[i]
    ensures forall j :: 0 <= j < |cs| ==> cs[i].pixels <= cs[j].pixels
    ensures forall j :: 0 <= j < i ==> cs[j].pixels != cs[i].pixels
  {
    if |cs| == 1 {
      i := 0;
    } else {
      var k := SortedHead(cs[1..]);
      i := if cs[0].pixels <= cs[1..][k].pixels then 0 else k + 1;
      forall j | 0 <= j < |cs|
        ensures cs[i].pixels <= cs[j].pixels && (j < i ==> cs[j].pixels != cs[i].pixels)
      {
        if j > 0 { assert cs[j] == cs[1..][j - 1]; }
      }
    }
  }

  /** Where the kept candidates come from. */
  lemma {:induction false} AboveIndex(cs: seq<Candidate>, k: nat) returns (i: nat)
    requires k < |AtOrAbove(cs)|
    ensures i < |cs| && AtOrAbove(cs)[k] == cs[i] && cs[i].pixels >= TARGET_PIXELS
    ensures k == |AtOrAbove(cs[..i])|
  {
    var head := if cs[0].pixels >= TARGET_PIXELS then [cs[0]] else [];
    if k < |head| {
      i := 0;
      assert cs[..0] == [];
    } else {
      i := AboveIndex(cs[1..], k - |head|);
      assert cs[..i + 1][1..] == cs[1..][..i];
      i := i + 1;
    }
  }

  lemma {:induction false} AboveHas(cs: seq<Candidate>, j: nat) returns (k: nat)
    requires j < |cs| && cs[j].pixels >= TARGET_PIXELS
    ensures k == |AtOrAbove(cs[..j])| < |AtOrAbove(cs)| && AtOrAbove(cs)[k] == cs[j]
  {
    if j == 0 {
      k := 0;
      assert cs[..0] == [];
    } else {
      var r := AboveHas(cs[1..], j - 1);
      var head := if cs[0].pixels >= TARGET_PIXELS then [cs[0]] else [];
      assert cs[..j][1..] == cs[1..][..j - 1];
      assert AtOrAbove(cs) == head + AtOrAbove(cs[1..]);
      k := |head| + r;
    }
  }

  lemma {:induction false} AboveCountMono(cs: seq<Candidate>, i: nat, j: nat)
    requires i <= j <= |cs|
    ensures |AtOrAbove(cs[..i])| <= |AtOrAbove(cs[..j])|
    decreases |cs|
  {
    if i > 0 {
      assert cs[..i][1..] == cs[1..][..i - 1] && cs[..j][1..] == cs[1..][..j - 1];
      AboveCountMono(cs[1..], i - 1, j - 1);
    } else {
      assert cs[..0] == [];
    }
  }

  /** The reduction keeps the first maximum. */
  lemma {:induction false} LargestIsFirstMax(best: Candidate, cs: seq<Candidate>)
    ensures var r := Largest(best, cs);
            && r.pixels >= best.pixels
            && (forall j :: 0 <= j < |cs| ==> cs[j].pixels <= r.pixels)
            && (r == best || exists i :: 0 <= i < |cs| && cs[i] == r && r.pixels > best.pixels
                                 && forall j :: 0 <= j < i ==> cs[j].pixels < r.pixels)
    decreases |cs|
  {
    if cs != [] {
      var next := if cs[0].pixels > best.pixels then cs[0] else best;
      LargestIsFirstMax(next, cs[1..]);
      var r := Largest(best, cs);
      forall j | 0 <= j < |cs| ensures cs[j].pixels <= r.pixels {
        if j > 0 { assert cs[j] == cs[1..][j - 1]; }
      }
      if r != next {
        var i :| 0 <= i < |cs[1..]| && cs[1..][i] == r && r.pixels > next.pixels
              && forall j :: 0 <= j < i ==> cs[1..][j].pixels < r.pixels;
        assert cs[i + 1] == r;
        forall j | 0 <= j < i + 1 ensures cs[j].pixels < r.pixels {
          if j > 0 { assert cs[j] == cs[1..][j - 1]; }
        }
      } else if next == cs[0] && next != best {
        assert cs[0] == r;
      }
    }
  }

  /** For every candidate list: nothing is chosen exactly when it is empty; else it is the
      first of the smallest at or above the target, or failing that the first of the largest. */
  lemma ChoiceIsBest(cs: seq<Candidate>)
    ensures Choose(cs) == None <==> cs == []
    ensures cs != [] ==> exists i :: 0 <= i < |cs| && Choose(cs) == Some(cs[i].data) &&
                                     (IsSmallestAbove(cs, i) || IsLargestBelow(cs, i))
  {
    if cs != [] {
      if AtOrAbove(cs) != [] {
        var i := SmallestAbove(cs);
      } else {
        var i := LargestBelow(cs);
      }
    }
  }

  lemma SmallestAbove(cs: seq<Candidate>) returns (i: nat)
    requires AtOrAbove(cs) != []
    ensures i < |cs| && Choose(cs) == Some(cs[i].data) && IsSmallestAbove(cs, i)
  {
    var above := AtOrAbove(cs);
    var k := SortedHead(above);
    i := AboveIndex(cs, k);
    forall j | 0 <= j < |cs| && cs[j].pixels >= TARGET_PIXELS
      ensures cs[i].pixels <= cs[j].pixels && (j < i ==> cs[j].pixels != cs[i].pixels)
    {
      var n := AboveHas(cs, j);
      if j < i {
        AboveStrict(cs, j, i);
        assert above[n].pixels != above[k].pixels;
      }
    }
  }

  lemma AboveStrict(cs: seq<Candidate>, j: nat, i: nat)
    requires j < i <= |cs| && cs[j].pixels >= TARGET_PIXELS
    ensures |AtOrAbove(cs[..j])| < |AtOrAbove(cs[..i])|
  {
    var n := AboveHas(cs[..i], j);
    assert cs[..i][..j] == cs[..j];
  }

  lemma LargestBelow(cs: seq<Candidate>) returns (i: nat)
    requires cs != [] && AtOrAbove(cs) == []
    ensures i < |cs| && Choose(cs) == Some(cs[i].data) && IsLargestBelow(cs, i)
  {
    forall j | 0 <= j < |cs| ensures cs[j].pixels < TARGET_PIXELS {
      if cs[j].pixels >= TARGET_PIXELS { var n := AboveHas(cs, j); }
    }
    LargestIsFirstMax(cs[0], cs);
    var r := Largest(cs[0], cs);
    if r == cs[0] {
      i := 0;
    } else {
      i :| 0 <= i < |cs| && cs[i] == r && forall j :: 0 <= j < i ==> cs[j].pixels < r.pixels;
    }
  }

  // ---------------------------------------------------------------- the choice, on the chunks

  /** The number in the low seven bits of the last two of four bytes that read `ic..`, or 0. */
  function IconNumber(kind: seq<Byte>): nat {
    if |kind| == 4 && kind[0] % 128 == 0x69 && kind[1] % 128 == 0x63 &&
       0x30 <= kind[2] % 128 <= 0x39 && 0x30 <= kind[3] % 128 <= 0x39
    then (kind[2] % 128 - 0x30) * 10 + (kind[3] % 128 - 0x30)
    else 0
  }

  /** The physical size of an icon by its number: 7 to 10 are 128, 256, 512 and 1024; 11 is 32
      doubled; 12, 13 and 14 are 256, 128 and 512 doubled. */
  function SizeOf(kind: seq<Byte>): nat {
    match IconNumber(kind)
    case 7 => 128
    case 8 => 256
    case 9 => 512
    case 10 => 1024
    case 11 => 2 * 32
    case 12 => 2 * 256
    case 13 => 2 * 128
    case 14 => 2 * 512
    case _ => 0
  }

  lemma SizeIsPixels(kind: seq<Byte>)
    requires |kind| == 4
    ensures PixelsOf(Ascii(kind)) == SizeOf(kind)
  {
    hide IconNumber;
    var s := Ascii(kind);
    assert |s| == 4 && s[0] as int == kind[0] % 128 && s[1] as int == kind[1] % 128
           && s[2] as int == kind[2] % 128 && s[3] as int == kind[3] % 128;
    NumberIs(kind, s);
  }

  lemma NumberIs(kind: seq<Byte>, s: string)
    requires |kind| == 4 && |s| == 4
    requires s[0] as int == kind[0] % 128 && s[1] as int == kind[1] % 128
    requires s[2] as int == kind[2] % 128 && s[3] as int == kind[3] % 128
    ensures s == "ic07" <==> IconNumber(kind) == 7
    ensures s == "ic08" <==> IconNumber(kind) == 8
    ensures s == "ic09" <==> IconNumber(kind) == 9
    ensures s == "ic10" <==> IconNumber(kind) == 10
    ensures s == "ic11" <==> IconNumber(kind) == 11
    ensures s == "ic12" <==> IconNumber(kind) == 12
    ensures s == "ic13" <==> IconNumber(kind) == 13
    ensures s == "ic14" <==> IconNumber(kind) == 14
  {
    assert s == [s[0], s[1], s[2], s[3]];
  }

  /** More than four bytes, the first four of them those of a PNG. */
  predicate IsPicture(c: Chunk) {
    |c.data| > 4 && c.data[0] == 137 && c.data[1] == 80 && c.data[2] == 78 && c.data[3] == 71
  }

  lemma PictureIff(c: Chunk)
    ensures IsPng(c.data) <==> IsPicture(c)
  {
    if |c.data| > 4 {
      assert c.data[..4] == [c.data[0], c.data[1], c.data[2], c.data[3]];
    }
  }

  /** Chunk `i` is the one to take: a picture, the first of the smallest size from 256 on, or
      if there is none such, the first of the largest. */
  ghost predicate IsBest(chunks: seq<Chunk>, i: nat)
    requires i < |chunks|
  {
    var size := SizeOf(chunks[i].kind);
    && IsPicture(chunks[i])
    && (forall j :: 0 <= j < |chunks| && IsPicture(chunks[j]) ==>
          var other := SizeOf(chunks[j].kind);
          if size >= 256 then other < 256 || size < other || (size == other && i <= j)
          else other < size || (other == size && i <= j))
  }

  /** The candidates are the pictures, in order. */
  lemma {:induction false} CandidateFrom(chunks: seq<Chunk>, k: nat) returns (i: nat)
    requires Writable(chunks) && k < |Candidates(chunks)|
    ensures i < |chunks| && IsPicture(chunks[i]) && k == |Candidates(chunks[..i])|
    ensures Candidates(chunks)[k] == Candidate(SizeOf(chunks[i].kind), chunks[i].data)
  {
    hide IsPng, PixelsOf, IsPicture, SizeOf, Ascii;
    var n := |chunks| - 1;
    if k < |Candidates(chunks[..n])| {
      i := CandidateFrom(chunks[..n], k);
      assert chunks[..n][..i] == chunks[..i] && chunks[..n][i] == chunks[i];
    } else {
      i := n;
      PictureIff(chunks[n]);
      SizeIsPixels(chunks[n].kind);
    }
  }

  lemma {:induction false} CandidateOf(chunks: seq<Chunk>, i: nat) returns (k: nat)
    requires Writable(chunks) && i < |chunks| && IsPicture(chunks[i])
    ensures k == |Candidates(chunks[..i])| < |Candidates(chunks)|
    ensures Candidates(chunks)[k] == Candidate(SizeOf(chunks[i].kind), chunks[i].data)
  {
    hide IsPng, PixelsOf, IsPicture, SizeOf, Ascii;
    var n := |chunks| - 1;
    if i < n {
      k := CandidateOf(chunks[..n], i);
      assert chunks[..n][..i] == chunks[..i] && chunks[..n][i] == chunks[i];
    } else {
      k := |Candidates(chunks[..n])|;
      PictureIff(chunks[n]);
      SizeIsPixels(chunks[n].kind);
    }
  }

  lemma {:induction false} CandidateCount(chunks: seq<Chunk>, i: nat, j: nat)
    requires i <= j <= |chunks|
    ensures |Candidates(chunks[..i])| <= |Candidates(chunks[..j])|
    decreases j
  {
    if i < j {
      CandidateCount(chunks, i, j - 1);
      assert chunks[..j][..j - 1] == chunks[..j - 1];
    }
  }

  /** Of any written chunks the best picture is chosen, and none if there is no picture. */
  lemma BestPictureIsChosen(chunks: seq<Chunk>)
    requires Writable(chunks)
    ensures (forall i :: 0 <= i < |chunks| ==> !IsPicture(chunks[i])) ==> Choose(Candidates(chunks)) == None
    ensures (exists i :: 0 <= i < |chunks| && IsPicture(chunks[i])) ==>
              exists i :: 0 <= i < |chunks| && IsBest(chunks, i) && Choose(Candidates(chunks)) == Some(chunks[i].data)
  {
    hide Choose, Candidates, IsPicture, SizeOf;
    var cs := Candidates(chunks);
    ChoiceIsBest(cs);
    if cs == [] {
      forall i | 0 <= i < |chunks| ensures !IsPicture(chunks[i]) {
        if IsPicture(chunks[i]) { var k := CandidateOf(chunks, i); }
      }
    } else {
      var k :| 0 <= k < |cs| && Choose(cs) == Some(cs[k].data) && (IsSmallestAbove(cs, k) || IsLargestBelow(cs, k));
      var i := CandidateFrom(chunks, k);
      forall j | 0 <= j < |chunks| && IsPicture(chunks[j])
        ensures var size, other := SizeOf(chunks[i].kind), SizeOf(chunks[j].kind);
                if size >= 256 then other < 256 || size < other || (size == other && i <= j)
                else other < size || (other == size && i <= j)
      {
        var l := CandidateOf(chunks, j);
        if j < i { CandidateCount(chunks, j, i); }
        if j < i { OnePictureMore(chunks, j, i); }
      }
      assert IsBest(chunks, i);
    }
  }

  /** So for every written file, whatever stops the walk behind its chunks. */
  lemma FileGivesItsBestPicture(chunks: seq<Chunk>, tail: seq<Byte>, rest: seq<Byte>)
    requires Writable(chunks) && 8 + |WriteChunks(chunks)| + |tail| < WORD && StopsAt(tail)
    ensures var picked := PickPng(WriteFile(chunks, tail, rest));
            if forall i :: 0 <= i < |chunks| ==> !IsPicture(chunks[i]) then picked == None
            else exists i :: 0 <= i < |chunks| && IsBest(chunks, i) && picked == Some(chunks[i].data)
  {
    hide IsPicture, IsBest, Choose, Candidates;
    PicksAmongWrittenChunks(chunks, tail, rest);
    BestPictureIsChosen(chunks);
  }

  lemma OnePictureMore(chunks: seq<Chunk>, j: nat, i: nat)
    requires j < i <= |chunks| && IsPicture(chunks[j])
    ensures |Candidates(chunks[..j])| < |Candidates(chunks[..i])|
  {
    CandidateCount(chunks, j + 1, i);
    assert chunks[..j + 1][..j] == chunks[..j];
    PictureIff(chunks[j]);
  }

  /** What a file must start with: 'icns', but for the high bits, and a total that fits. */
  lemma HeaderIff(b: seq<Byte>)
    ensures HasHeader(b) <==>
              && |b| >= 8
              && b[0] % 128 == 105 && b[1] % 128 == 99 && b[2] % 128 == 110 && b[3] % 128 == 115
              && 8 <= b[4] * 16777216 + b[5] * 65536 + b[6] * 256 + b[7] <= |b|
    ensures !HasHeader(b) ==> PickPng(b) == None
  {
    if |b| >= 8 {
      var s := Ascii(b[..4]);
      assert s == [s[0], s[1], s[2], s[3]];
      assert s[0] as int == b[0] % 128 && s[1] as int == b[1] % 128 && s[2] as int == b[2] % 128 && s[3] as int == b[3] % 128;
    }
  }
}
