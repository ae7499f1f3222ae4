/** The worker's byte-window chunker (worker/internal/processing/chunk.go). */
module GoChunker {
  import opened Domain

  const TARGET: nat := 1200
  const MAX: nat := 1500
  const OVERLAP: nat := 150
  const MAX_CHUNKS: nat := 20000
  const MAX_TOTAL: nat := 24000000

  datatype Segment = Segment(text: Text, locator: Locator)
  datatype Window = Window(start: nat, end: nat)
  datatype Piece = Piece(text: Text, locator: Locator)

  // ---- strings.TrimSpace over UTF-8 bytes ----

  // The UTF-8 encodings of the characters unicode.IsSpace accepts, by length.
  predicate Space1(a: byte) { 9 <= a <= 13 || a == 32 }

  predicate Space2(a: byte, b: byte) { a == 0xC2 && (b == 0x85 || b == 0xA0) }

  predicate Space3(a: byte, b: byte, c: byte) {
    || (a == 0xE1 && b == 0x9A && c == 0x80)
    || (a == 0xE2 && b == 0x80 && (0x80 <= c <= 0x8A || c == 0xA8 || c == 0xA9 || c == 0xAF))
    || (a == 0xE2 && b == 0x81 && c == 0x9F)
    || (a == 0xE3 && b == 0x80 && c == 0x80)
  }

  function FrontSpace(s: Text): (n: nat)
    ensures n <= |s|
  {
    if |s| >= 1 && Space1(s[0]) then 1
    else if |s| >= 2 && Space2(s[0], s[1]) then 2
    else if |s| >= 3 && Space3(s[0], s[1], s[2]) then 3
    else 0
  }

  function BackSpace(s: Text): (n: nat)
    ensures n <= |s|
  {
    var k := |s|;
    if k >= 1 && Space1(s[k - 1]) then 1
    else if k >= 2 && Space2(s[k - 2], s[k - 1]) then 2
    else if k >= 3 && Space3(s[k - 3], s[k - 2], s[k - 1]) then 3
    else 0
  }

  /** How many bytes of white space precede the text. */
  function Lead(s: Text): (n: nat)
    ensures n <= |s|
    ensures n == 0 <==> FrontSpace(s) == 0
  {
    var k := FrontSpace(s);
    if k == 0 then 0 else k + Lead(s[k..])
  }

  function Trail(s: Text): (n: nat)
    ensures n <= |s|
  {
    var k := BackSpace(s);
    if k == 0 then 0 else k + Trail(s[..|s| - k])
  }

  function Trim(s: Text): (t: Text)
    ensures |t| <= |s|
  {
    var left := s[Lead(s)..];
    left[..|left| - Trail(left)]
  }

  lemma {:induction false} NoSpaceInFront(s: Text)
    ensures FrontSpace(s[Lead(s)..]) == 0
    decreases |s|
  {
    var k := FrontSpace(s);
    if k == 0 {
      assert s[0..] == s;
    } else {
      NoSpaceInFront(s[k..]);
      assert s[k..][Lead(s[k..])..] == s[Lead(s)..];
    }
  }

  lemma {:induction false} NoSpaceBehind(s: Text)
    ensures BackSpace(s[..|s| - Trail(s)]) == 0
    decreases |s|
  {
    var k := BackSpace(s);
    if k == 0 {
      assert s[..|s|] == s;
    } else {
      var t := s[..|s| - k];
      NoSpaceBehind(t);
      assert t[..|t| - Trail(t)] == s[..|s| - Trail(s)];
    }
  }

  lemma PrefixHasNoSpaceInFront(s: Text, n: nat)
    requires n <= |s| && FrontSpace(s) == 0
    ensures FrontSpace(s[..n]) == 0
  {
  }

  /** Trimming leaves white space neither in front nor behind. */
  lemma TrimLeavesNoSpace(s: Text)
    ensures FrontSpace(Trim(s)) == 0 && BackSpace(Trim(s)) == 0
  {
    var left := s[Lead(s)..];
    NoSpaceInFront(s);
    NoSpaceBehind(left);
    PrefixHasNoSpaceInFront(left, |left| - Trail(left));
  }

  /** The part lies at that offset of the whole. */
  predicate IsAt(whole: Text, offset: nat, part: Text) {
    offset + |part| <= |whole| && part == whole[offset..offset + |part|]
  }

  lemma IsAtNested(s: Text, a: nat, t: Text, b: nat, u: Text)
    requires IsAt(s, a, t) && IsAt(t, b, u)
    ensures IsAt(s, a + b, u)
  {
    var v := s[a + b..a + b + |u|];
    assert forall k :: 0 <= k < |u| ==> u[k] == v[k];
  }

  lemma SuffixIsAt(s: Text, n: nat)
    requires n <= |s|
    ensures IsAt(s, n, s[n..])
  {
  }

  lemma PrefixIsAt(s: Text, n: nat)
    requires n <= |s|
    ensures IsAt(s, 0, s[..n])
  {
  }

  lemma TrimIsAt(s: Text)
    ensures IsAt(s, Lead(s), Trim(s))
  {
    var left := s[Lead(s)..];
    SuffixIsAt(s, Lead(s));
    PrefixIsAt(left, |left| - Trail(left));
    IsAtNested(s, Lead(s), left, 0, Trim(s));
  }

  // ---- windows ----

  /** The first space, newline or tab between two offsets. */
  function FirstBreak(text: Text, from: nat, limit: nat): (r: Option<nat>)
    requires from <= limit <= |text|
    ensures r.Some? ==> from <= r.value < limit && IsBreak(text[r.value])
    ensures forall i :: from <= i < (if r.Some? then r.value else limit) ==> !IsBreak(text[i])
    decreases limit - from
  {
    if from == limit then None
    else if IsBreak(text[from]) then Some(from)
    else FirstBreak(text, from + 1, limit)
  }

  predicate IsBreak(b: byte) { b == 32 || b == 10 || b == 9 }

  function WindowEnd(text: Text, start: nat): (end: nat)
    requires start < |text|
    ensures start < end <= |text| && end <= start + 1500
    ensures end < |text| ==> start + 1200 < end
  {
    var end := start + TARGET;
    if end >= |text| then |text|
    else
      var limit := if start + MAX > |text| then |text| else start + MAX;
      match FirstBreak(text, end, limit)
      case Some(i) => i + 1
      case None => limit
  }

  /** A window ends at the end of the text, at its maximum, or just behind the first break past its target. */
  lemma CutsBehindFirstBreak(text: Text, start: nat, i: nat)
    requires start + 1200 < |text|
    ensures var end := WindowEnd(text, start);
            && (end == |text| || end == start + 1500 || IsBreak(text[end - 1]))
            && (start + 1200 <= i < end - 1 ==> !IsBreak(text[i]))
  {
  }

  function NextStart(start: nat, end: nat): nat {
    if end <= start + OVERLAP then end else end - OVERLAP
  }

  function Windows(text: Text, start: nat): (ws: seq<Window>)
    decreases |text| - start
  {
    if start >= |text| then []
    else
      var end := WindowEnd(text, start);
      [Window(start, end)] + (if end == |text| then [] else Windows(text, NextStart(start, end)))
  }

  ghost function LengthSum(ws: seq<Window>): int {
    if ws == [] then 0 else ws[0].end - ws[0].start + LengthSum(ws[1..])
  }

  /** Windows overlap by exactly 150 bytes, tile the text, and each but the last is longer than 1200. */
  ghost predicate Tiling(ws: seq<Window>, start: nat, length: nat) {
    && ws != []
    && ws[0].start == start
    && ws[|ws| - 1].end == length
    && (forall i :: 0 <= i < |ws| ==> ws[i].start < ws[i].end <= ws[i].start + 1500)
    && (forall i :: 0 <= i < |ws| - 1 ==> ws[i].start + 1200 < ws[i].end < length)
    && (forall i :: 0 <= i < |ws| - 1 ==> ws[i + 1].start == ws[i].end - 150)
  }

  lemma TilingPrepends(w: Window, rest: seq<Window>, length: nat)
    requires w.start + 1200 < w.end < length && w.end <= w.start + 1500 && Tiling(rest, w.end - 150, length)
    ensures Tiling([w] + rest, w.start, length)
  {
    var ws := [w] + rest;
    assert forall i :: 1 <= i < |ws| ==> ws[i] == rest[i - 1];
  }

  lemma {:induction false} WindowsTile(text: Text, start: nat)
    requires start < |text|
    ensures Tiling(Windows(text, start), start, |text|)
    decreases |text| - start
  {
    var end := WindowEnd(text, start);
    if end < |text| {
      var next := NextStart(start, end);
      WindowsTile(text, next);
      TilingPrepends(Window(start, end), Windows(text, next), |text|);
    }
  }

  /** The length equation, and the progress each window but the last makes. */
  lemma {:induction false} TilingCounts(ws: seq<Window>, start: nat, length: nat)
    requires Tiling(ws, start, length)
    ensures LengthSum(ws) == length - start + 150 * (|ws| - 1)
    ensures 1051 * (|ws| - 1) <= length - start - 1
    decreases |ws|
  {
    if |ws| == 1 {
      assert ws[1..] == [];
    } else {
      TilingCounts(ws[1..], ws[1].start, length);
    }
  }

  // ---- pieces and chunks ----

  /** A segment whose text is trimmed, with the number of bytes trimmed from its front. */
  datatype Body = Body(text: Text, leading: nat, locator: Locator)

  function BodyOf(segment: Segment): Body {
    Body(Trim(segment.text), Lead(segment.text), segment.locator)
  }

  function LocatorAt(body: Body, start: nat, length: nat): Locator {
    match body.locator
    case Page(_) => body.locator
    case TextRange(origin, _) =>
      var from := origin + body.leading + start;
      TextRange(from, from + length)
  }

  function PieceOf(body: Body, w: Window): Piece
    requires w.start <= w.end <= |body.text|
  {
    var value := Trim(body.text[w.start..w.end]);
    Piece(value, LocatorAt(body, w.start, |value|))
  }

  function PiecesFrom(body: Body, start: nat): seq<Piece>
    decreases |body.text| - start
  {
    if start >= |body.text| then []
    else
      var end := WindowEnd(body.text, start);
      var piece := PieceOf(body, Window(start, end));
      (if piece.text == [] then [] else [piece])
      + (if end == |body.text| then [] else PiecesFrom(body, NextStart(start, end)))
  }

  function AllPieces(segments: seq<Segment>): seq<Piece> {
    if segments == [] then []
    else AllPieces(segments[..|segments| - 1]) + PiecesFrom(BodyOf(segments[|segments| - 1]), 0)
  }

  function Total(pieces: seq<Piece>): nat {
    if pieces == [] then 0 else Total(pieces[..|pieces| - 1]) + |pieces[|pieces| - 1].text|
  }

  predicate WithinLimits(pieces: seq<Piece>) {
    |pieces| <= 20000 && Total(pieces) <= 24000000
  }

  function ChunkOf(document: Document, index: nat, piece: Piece): Chunk {
    Chunk(ChunkId(document, index, piece.text), index, piece.text, piece.locator)
  }

  function Numbered(document: Document, pieces: seq<Piece>): (chunks: seq<Chunk>)
    ensures |chunks| == |pieces|
    ensures forall i :: 0 <= i < |pieces| ==> chunks[i] == ChunkOf(document, i, pieces[i])
  {
    if pieces == [] then []
    else
      var n := |pieces| - 1;
      Numbered(document, pieces[..n]) + [ChunkOf(document, n, pieces[n])]
  }

  lemma {:induction false} TotalAppend(first: seq<Piece>, second: seq<Piece>)
    ensures Total(first + second) == Total(first) + Total(second)
    decreases |second|
  {
    if second == [] {
      assert first + second == first;
    } else {
      assert (first + second)[..|first + second| - 1] == first + second[..|second| - 1];
      TotalAppend(first, second[..|second| - 1]);
    }
  }

  lemma {:induction false} AllPiecesPrefix(segments: seq<Segment>, n: nat)
    requires n <= |segments|
    ensures AllPieces(segments[..n]) <= AllPieces(segments)
    decreases |segments|
  {
    if n == |segments| {
      assert segments[..n] == segments;
    } else {
      assert segments[..|segments| - 1][..n] == segments[..n];
      AllPiecesPrefix(segments[..|segments| - 1], n);
    }
  }

  lemma PrefixWithinLimits(part: seq<Piece>, whole: seq<Piece>)
    requires part <= whole
    ensures |part| <= |whole| && Total(part) <= Total(whole)
  {
    assert whole == part + whole[|part|..];
    TotalAppend(part, whole[|part|..]);
  }

  lemma NumberedAppend(document: Document, pieces: seq<Piece>, piece: Piece)
    ensures Numbered(document, pieces + [piece]) == Numbered(document, pieces) + [ChunkOf(document, |pieces|, piece)]
  {
    assert (pieces + [piece])[..|pieces|] == pieces;
  }

  lemma TotalOfOne(piece: Piece)
    ensures Total([piece]) == |piece.text|
  {
    assert [piece][..0] == [];
  }

  lemma NothingAppended(pieces: seq<Piece>)
    ensures pieces + [] == pieces
  {
  }

  ghost function Remaining(body: Body, start: nat, end: nat): seq<Piece> {
    if end == |body.text| then [] else PiecesFrom(body, NextStart(start, end))
  }

  /** A window's text, and where the loop goes next. */
  lemma PiecesStep(body: Body, start: nat)
    requires start < |body.text|
    ensures var end := WindowEnd(body.text, start);
            var piece := PieceOf(body, Window(start, end));
            PiecesFrom(body, start) == (if piece.text == [] then [] else [piece]) + Remaining(body, start, end)
  {
  }

  lemma Regroup(done: seq<Piece>, head: seq<Piece>, rest: seq<Piece>)
    ensures done + (head + rest) == (done + head) + rest
  {
  }

  /** The inner loop: append one segment's chunks, or stop at a limit. */
  method ChunkSegment(document: Document, segment: Segment, before: seq<Chunk>, sum: nat, ghost done: seq<Piece>)
    returns (chunks: seq<Chunk>, total: nat, limited: bool)
    requires WithinLimits(done) && before == Numbered(document, done) && sum == Total(done)
    ensures limited <==> !WithinLimits(done + PiecesFrom(BodyOf(segment), 0))
    ensures !limited ==>
              && chunks == Numbered(document, done + PiecesFrom(BodyOf(segment), 0))
              && total == Total(done + PiecesFrom(BodyOf(segment), 0))
  {
    chunks, total, limited := before, sum, false;
    var body := BodyOf(segment);
    var start := 0;
    ghost var pieces, all := done, done + PiecesFrom(body, 0);
    while start < |body.text|
      invariant all == pieces + PiecesFrom(body, start) && WithinLimits(pieces)
      invariant chunks == Numbered(document, pieces) && total == Total(pieces)
      decreases |body.text| - start
    {
      var end := WindowEnd(body.text, start);
      var value := Trim(body.text[start..end]);
      ghost var piece := PieceOf(body, Window(start, end));
      ghost var head := if value == [] then [] else [piece];
      PiecesStep(body, start);
      Regroup(pieces, head, Remaining(body, start, end));
      if value != [] {
        total := total + |value|;
        TotalAppend(pieces, [piece]);
        TotalOfOne(piece);
        if |chunks| >= MAX_CHUNKS || total > MAX_TOTAL {
          PrefixWithinLimits(pieces + [piece], all);
          return chunks, total, true;
        }
        var locator := LocatorAt(body, start, |value|);
        var chunk := Chunk(ChunkId(document, |chunks|, value), |chunks|, value, locator);
        assert piece.text == value;
        assert piece.locator == locator;
        NumberedAppend(document, pieces, piece);
        assert chunk == ChunkOf(document, |pieces|, piece);
        chunks := chunks + [chunk];
        pieces := pieces + [piece];
      } else {
        NothingAppended(pieces);
      }
      if end == |body.text| {
        NothingAppended(pieces);
        return;
      }
      start := NextStart(start, end);
    }
    NothingAppended(pieces);
  }

  // ---- what the pieces are ----

  lemma {:induction false} PiecesWithinWindows(body: Body, start: nat)
    ensures |PiecesFrom(body, start)| <= |Windows(body.text, start)|
    ensures Total(PiecesFrom(body, start)) <= LengthSum(Windows(body.text, start))
    decreases |body.text| - start
  {
    if start < |body.text| {
      var end := WindowEnd(body.text, start);
      var piece := PieceOf(body, Window(start, end));
      var head := if piece.text == [] then [] else [piece];
      PiecesStep(body, start);
      TotalOfOne(piece);
      TotalAppend(head, Remaining(body, start, end));
      var ws := Windows(body.text, start);
      assert ws[1..] == if end == |body.text| then [] else Windows(body.text, NextStart(start, end));
      if end < |body.text| {
        PiecesWithinWindows(body, NextStart(start, end));
      }
    }
  }

  /** L trimmed bytes give n windows with 1051(n-1) < L, and at most L + 150(n-1) bytes of chunk text. */
  lemma SegmentBudget(body: Body)
    requires body.text != []
    ensures var length, n := |body.text|, |Windows(body.text, 0)|;
            && 1051 * (n - 1) <= length - 1
            && |PiecesFrom(body, 0)| <= n
            && Total(PiecesFrom(body, 0)) <= length + 150 * (n - 1)
  {
    WindowsTile(body.text, 0);
    TilingCounts(Windows(body.text, 0), 0, |body.text|);
    PiecesWithinWindows(body, 0);
  }

  /** The one segment extracted from a TEXT object. */
  function TextSegment(input: Text): Segment {
    Segment(Trim(input), TextRange(0, |Trim(input)|))
  }

  lemma PiecesOfOneSegment(segment: Segment)
    ensures AllPieces([segment]) == PiecesFrom(BodyOf(segment), 0)
  {
    assert [segment][..0] == [];
    assert AllPieces([segment]) == [] + PiecesFrom(BodyOf(segment), 0);
  }

  /** A TEXT object of at most 20 MiB, which is all the consumer reads, can never hit the chunk limits. */
  lemma TextNeverHitsLimits(input: Text)
    requires |input| <= 20 * 1024 * 1024
    ensures WithinLimits(AllPieces([TextSegment(input)]))
  {
    var body := BodyOf(TextSegment(input));
    PiecesOfOneSegment(TextSegment(input));
    if body.text != [] {
      SegmentBudget(body);
    } else {
      assert PiecesFrom(body, 0) == [];
    }
  }

  /** Where the trimmed text of a window truly lies in its segment. */
  function Position(segment: Segment, w: Window): nat
    requires w.start <= w.end <= |Trim(segment.text)|
  {
    Lead(segment.text) + w.start + Lead(Trim(segment.text)[w.start..w.end])
  }

  lemma PiecePosition(segment: Segment, w: Window)
    requires w.start <= w.end <= |Trim(segment.text)|
    ensures IsAt(segment.text, Position(segment, w), Trim(Trim(segment.text)[w.start..w.end]))
  {
    var window, at := Trim(segment.text)[w.start..w.end], Lead(segment.text) + w.start;
    WindowIsAt(segment, w);
    TrimmedIsAt(segment.text, at, window);
    MovedIsAt(segment.text, at + Lead(window), Position(segment, w), Trim(window));
  }

  lemma MovedIsAt(whole: Text, from: nat, to: nat, part: Text)
    requires IsAt(whole, from, part) && from == to
    ensures IsAt(whole, to, part)
  {
  }

  lemma TrimmedIsAt(whole: Text, at: nat, part: Text)
    requires IsAt(whole, at, part)
    ensures IsAt(whole, at + Lead(part), Trim(part))
  {
    TrimIsAt(part);
    IsAtNested(whole, at, part, Lead(part), Trim(part));
  }

  lemma WindowIsAt(segment: Segment, w: Window)
    requires w.start <= w.end <= |Trim(segment.text)|
    ensures IsAt(segment.text, Lead(segment.text) + w.start, Trim(segment.text)[w.start..w.end])
  {
    TrimIsAt(segment.text);
    SliceIsAt(segment.text, Lead(segment.text), Trim(segment.text), w.start, w.end);
  }

  lemma SliceIsAt(whole: Text, at: nat, part: Text, a: nat, b: nat)
    requires IsAt(whole, at, part) && a <= b <= |part|
    ensures IsAt(whole, at + a, part[a..b])
  {
    IsAtNested(whole, at, part, a, part[a..b]);
  }

  /**
   A page locator is kept; a text-range locator spans the piece's length, and starts before the piece's true position
   by the white space trimmed from the front of its window.
   */
  ghost predicate LocatorLaw(segment: Segment, w: Window, piece: Piece)
    requires w.start <= w.end <= |Trim(segment.text)|
  {
    match segment.locator
    case Page(_) => piece.locator == segment.locator
    case TextRange(origin, _) =>
      && piece.locator.TextRange?
      && piece.locator.start + Lead(Trim(segment.text)[w.start..w.end]) == origin + Position(segment, w)
      && piece.locator.end == piece.locator.start + |piece.text|
  }

  /** The law, and that the locator is exact just when the window starts with no white space. */
  lemma LocatorOffset(segment: Segment, w: Window)
    requires w.start <= w.end <= |Trim(segment.text)|
    ensures var piece, window := PieceOf(BodyOf(segment), w), Trim(segment.text)[w.start..w.end];
            && LocatorLaw(segment, w, piece)
            && (segment.locator.TextRange? ==>
                  (piece.locator.start == segment.locator.start + Position(segment, w) <==> FrontSpace(window) == 0))
  {
  }

  // ---- every chunk ----

  /** Every piece is that of a window. */
  lemma {:induction false} PieceHasWindow(body: Body, start: nat, i: nat) returns (w: Window)
    requires i < |PiecesFrom(body, start)|
    ensures w in Windows(body.text, start) && w.start < w.end <= |body.text|
    ensures PiecesFrom(body, start)[i] == PieceOf(body, w) && PieceOf(body, w).text != []
    decreases |body.text| - start
  {
    var end := WindowEnd(body.text, start);
    w := Window(start, end);
    var head := if PieceOf(body, w).text == [] then 0 else 1;
    PiecesStep(body, start);
    if i >= head {
      w := PieceHasWindow(body, NextStart(start, end), i - head);
    }
  }

  /** Every window has its piece, unless it is blank. */
  lemma {:induction false} WindowHasPiece(body: Body, start: nat, w: Window)
    requires w in Windows(body.text, start)
    ensures w.start < w.end <= |body.text|
    ensures PieceOf(body, w).text == [] || PieceOf(body, w) in PiecesFrom(body, start)
    decreases |body.text| - start
  {
    var end := WindowEnd(body.text, start);
    PiecesStep(body, start);
    if w != Window(start, end) {
      WindowHasPiece(body, NextStart(start, end), w);
    }
  }

  /** The piece is what trimming leaves of a window of the segment, under the locator law. */
  ghost predicate Located(segment: Segment, w: Window, piece: Piece) {
    && w in Windows(Trim(segment.text), 0) && w.start < w.end <= |Trim(segment.text)|
    && piece.text != [] && piece.text == Trim(Trim(segment.text)[w.start..w.end])
    && IsAt(segment.text, Position(segment, w), piece.text)
    && LocatorLaw(segment, w, piece)
  }

  lemma PieceIsLocated(segment: Segment, w: Window)
    requires w in Windows(Trim(segment.text), 0) && w.start < w.end <= |Trim(segment.text)|
    requires PieceOf(BodyOf(segment), w).text != []
    ensures Located(segment, w, PieceOf(BodyOf(segment), w))
  {
    PiecePosition(segment, w);
    LocatorOffset(segment, w);
  }

  /** Every chunk of a document is a located piece of one of its segments. */
  lemma {:induction false} ChunksAreLocated(segments: seq<Segment>, i: nat) returns (segment: Segment, w: Window)
    requires i < |AllPieces(segments)|
    ensures segment in segments && Located(segment, w, AllPieces(segments)[i])
    decreases |segments|
  {
    var last := |segments| - 1;
    var before := AllPieces(segments[..last]);
    if i < |before| {
      segment, w := ChunksAreLocated(segments[..last], i);
    } else {
      segment := segments[last];
      w := PieceHasWindow(BodyOf(segment), 0, i - |before|);
      PieceIsLocated(segment, w);
    }
  }

  // ---- nothing visible is lost ----

  /** The byte belongs to the encoding of a white-space character. */
  ghost predicate InSpace(s: Text, i: nat) {
    exists j: nat :: j <= i && SpaceFrom(s, j, i)
  }

  predicate SpaceFrom(s: Text, j: nat, i: nat) {
    j <= |s| && i < j + FrontSpace(s[j..])
  }

  lemma FrontSpaceIsLocal(s: Text, t: Text)
    requires FrontSpace(s) > 0 && FrontSpace(s) <= |t| && t[..FrontSpace(s)] == s[..FrontSpace(s)]
    ensures FrontSpace(t) == FrontSpace(s)
  {
    var k := FrontSpace(s);
    assert forall i :: 0 <= i < k ==> s[i] == s[..k][i] == t[..k][i] == t[i];
  }

  lemma SpaceInPart(whole: Text, at: nat, part: Text, i: nat)
    requires IsAt(whole, at, part) && InSpace(part, i)
    ensures InSpace(whole, at + i)
  {
    var j: nat :| j <= i && SpaceFrom(part, j, i);
    var s, t := part[j..], whole[at + j..];
    var k := FrontSpace(s);
    assert forall n :: 0 <= n < |s| ==> s[n] == part[j + n] == whole[at + j + n] == t[n];
    assert t[..k] == s[..k];
    FrontSpaceIsLocal(s, t);
    assert SpaceFrom(whole, at + j, at + i);
  }

  lemma {:induction false} LeadIsSpace(s: Text, i: nat)
    requires i < Lead(s)
    ensures InSpace(s, i)
    decreases |s|
  {
    var k := FrontSpace(s);
    if i < k {
      FirstIsSpace(s, i);
    } else {
      LeadIsSpace(s[k..], i - k);
      SuffixIsAt(s, k);
      SpaceInPart(s, k, s[k..], i - k);
    }
  }

  lemma FirstIsSpace(s: Text, i: nat)
    requires i < FrontSpace(s)
    ensures InSpace(s, i)
  {
    assert s[0..] == s;
    assert SpaceFrom(s, 0, i);
  }

  lemma BackSpaceIsSpace(s: Text, i: nat)
    requires |s| - BackSpace(s) <= i < |s|
    ensures InSpace(s, i)
  {
    var j := |s| - BackSpace(s);
    assert FrontSpace(s[j..]) == BackSpace(s);
    assert SpaceFrom(s, j, i);
  }

  lemma {:induction false} TrailIsSpace(s: Text, i: nat)
    requires |s| - Trail(s) <= i < |s|
    ensures InSpace(s, i)
    decreases |s|
  {
    var k := BackSpace(s);
    if |s| - k <= i {
      BackSpaceIsSpace(s, i);
    } else {
      var t := s[..|s| - k];
      TrailIsSpace(t, i);
      PrefixIsAt(s, |s| - k);
      SpaceInPart(s, 0, t, i);
    }
  }

  lemma TrimKeepsVisible(s: Text, i: nat)
    requires i < |s| && !InSpace(s, i)
    ensures Lead(s) <= i < Lead(s) + |Trim(s)|
  {
    if i < Lead(s) {
      LeadIsSpace(s, i);
    } else {
      SuffixIsAt(s, Lead(s));
      VisibleInPart(s, Lead(s), s[Lead(s)..], i);
      VisibleBeforeTrail(s[Lead(s)..], i - Lead(s));
    }
  }

  lemma VisibleBeforeTrail(s: Text, i: nat)
    requires i < |s| && !InSpace(s, i)
    ensures i < |s| - Trail(s)
  {
    if i >= |s| - Trail(s) {
      TrailIsSpace(s, i);
    }
  }

  lemma {:induction false} TilingCovers(ws: seq<Window>, start: nat, length: nat, i: nat) returns (w: Window)
    requires Tiling(ws, start, length) && start <= i < length
    ensures w in ws && w.start <= i < w.end
    decreases |ws|
  {
    if i < ws[0].end {
      w := ws[0];
    } else {
      w := TilingCovers(ws[1..], ws[1].start, length, i);
    }
  }

  /** Every byte of a segment that is not white space lies in one of its pieces. */
  lemma PiecesCover(segment: Segment, i: nat) returns (w: Window, piece: Piece)
    requires i < |segment.text| && !InSpace(segment.text, i)
    ensures piece in PiecesFrom(BodyOf(segment), 0) && Located(segment, w, piece)
    ensures Position(segment, w) <= i < Position(segment, w) + |piece.text|
  {
    var text, at := Trim(segment.text), i - Lead(segment.text);
    TrimKeepsVisible(segment.text, i);
    WindowsTile(text, 0);
    w := TilingCovers(Windows(text, 0), 0, |text|, at);
    WindowHasPiece(BodyOf(segment), 0, w);
    piece := PieceOf(BodyOf(segment), w);
    VisibleInWindow(segment, w, i);
    PieceIsLocated(segment, w);
  }

  lemma VisibleInWindow(segment: Segment, w: Window, i: nat)
    requires w.start < w.end <= |Trim(segment.text)| && i < |segment.text| && !InSpace(segment.text, i)
    requires Lead(segment.text) + w.start <= i < Lead(segment.text) + w.end
    ensures Position(segment, w) <= i < Position(segment, w) + |Trim(Trim(segment.text)[w.start..w.end])|
  {
    WindowIsAt(segment, w);
    VisibleWhenTrimmed(segment.text, Lead(segment.text) + w.start, Trim(segment.text)[w.start..w.end], i);
  }

  lemma VisibleWhenTrimmed(whole: Text, at: nat, part: Text, i: nat)
    requires IsAt(whole, at, part) && at <= i < at + |part| && !InSpace(whole, i)
    ensures at + Lead(part) <= i < at + Lead(part) + |Trim(part)|
  {
    VisibleInPart(whole, at, part, i);
    TrimKeepsVisible(part, i - at);
  }

  lemma VisibleInPart(whole: Text, at: nat, part: Text, i: nat)
    requires IsAt(whole, at, part) && at <= i < at + |part| && !InSpace(whole, i)
    ensures !InSpace(part, i - at)
  {
    if InSpace(part, i - at) {
      SpaceInPart(whole, at, part, i - at);
    }
  }
  // ---- the result, field by field ----

  /** The byte is there and is no part of a white-space character. */
  ghost predicate Visible(s: Text, i: nat) {
    i < |s| && !InSpace(s, i)
  }

  /** All bytes between two offsets are white space. */
  ghost predicate Blank(s: Text, from: nat, until: nat) {
    from <= until <= |s| && forall i :: from <= i < until ==> InSpace(s, i)
  }

  /**
   The chunk is the trimmed text at offset `at` of the segment.  A page locator is the segment's own; a text range is as
   long as the text and starts at it or at the white space just before it.
   */
  ghost predicate CutAt(segment: Segment, at: nat, c: Chunk) {
    && 0 < |c.text| <= 1500
    && at + |c.text| <= |segment.text| && c.text == segment.text[at..at + |c.text|]
    && FrontSpace(c.text) == 0 && BackSpace(c.text) == 0
    && match segment.locator
       case Page(_) => c.locator == segment.locator
       case TextRange(origin, _) =>
         && c.locator.TextRange? && c.locator.end == c.locator.start + |c.text|
         && origin <= c.locator.start && Blank(segment.text, c.locator.start - origin, at)
  }

  /** The chunk has that index, the identifier made of it, and is cut from one of the segments. */
  ghost predicate NumberedChunk(document: Document, i: nat, segments: seq<Segment>, c: Chunk) {
    && c.index == i && c.id == ChunkId(document, i, c.text)
    && exists segment, at: nat :: segment in segments && CutAt(segment, at, c)
  }

  /** The chunk is cut from around that byte of the segment. */
  ghost predicate CutAround(segment: Segment, c: Chunk, i: nat) {
    exists at: nat :: CutAt(segment, at, c) && at <= i < at + |c.text|
  }

  lemma LeadIsBlank(whole: Text, at: nat, part: Text)
    requires IsAt(whole, at, part)
    ensures Blank(whole, at, at + Lead(part))
  {
    forall i | at <= i < at + Lead(part) ensures InSpace(whole, i) {
      LeadIsSpace(part, i - at);
      SpaceInPart(whole, at, part, i - at);
    }
  }

  lemma WindowLeadIsBlank(segment: Segment, w: Window)
    requires w.start <= w.end <= |Trim(segment.text)|
    ensures Blank(segment.text, Lead(segment.text) + w.start, Position(segment, w))
  {
    WindowIsAt(segment, w);
    LeadIsBlank(segment.text, Lead(segment.text) + w.start, Trim(segment.text)[w.start..w.end]);
  }

  lemma LocatedIsCut(document: Document, segment: Segment, w: Window, piece: Piece, index: nat)
    requires Located(segment, w, piece)
    ensures CutAt(segment, Position(segment, w), ChunkOf(document, index, piece))
  {
    TrimLeavesNoSpace(Trim(segment.text)[w.start..w.end]);
    WindowLeadIsBlank(segment, w);
    WindowsTile(Trim(segment.text), 0);
  }

  lemma EveryChunkIsCut(document: Document, segments: seq<Segment>)
    ensures var chunks := Numbered(document, AllPieces(segments));
            forall i :: 0 <= i < |chunks| ==> NumberedChunk(document, i, segments, chunks[i])
  {
    var pieces := AllPieces(segments);
    forall i | 0 <= i < |pieces| ensures NumberedChunk(document, i, segments, ChunkOf(document, i, pieces[i])) {
      var segment, w := ChunksAreLocated(segments, i);
      LocatedIsCut(document, segment, w, pieces[i], i);
    }
  }

  lemma {:induction false} PiecesAreAll(segments: seq<Segment>, segment: Segment)
    requires segment in segments
    ensures forall piece :: piece in PiecesFrom(BodyOf(segment), 0) ==> piece in AllPieces(segments)
    decreases |segments|
  {
    var last := |segments| - 1;
    if segment != segments[last] {
      PiecesAreAll(segments[..last], segment);
    }
  }

  lemma EveryByteIsKept(document: Document, segments: seq<Segment>)
    ensures var chunks := Numbered(document, AllPieces(segments));
            forall segment, i :: segment in segments && Visible(segment.text, i) ==>
              exists c :: c in chunks && CutAround(segment, c, i)
  {
    var chunks := Numbered(document, AllPieces(segments));
    forall segment, i | segment in segments && Visible(segment.text, i)
      ensures exists c :: c in chunks && CutAround(segment, c, i)
    {
      var w, piece := PiecesCover(segment, i);
      PiecesAreAll(segments, segment);
      var n :| 0 <= n < |AllPieces(segments)| && AllPieces(segments)[n] == piece;
      LocatedIsCut(document, segment, w, piece, n);
      assert chunks[n] in chunks && CutAround(segment, chunks[n], i);
    }
  }

  /** ChunkText returns the numbered pieces of all segments, or ChunkLimit exactly when they exceed a limit. */
  method ChunkText(document: Document, segments: seq<Segment>) returns (r: Outcome<seq<Chunk>>)
    ensures r == if WithinLimits(AllPieces(segments)) then Ok(Numbered(document, AllPieces(segments)))
                 else Err(Failure(ChunkLimit, false))
    ensures r.Ok? ==> |r.value| <= 20000
    ensures r.Ok? ==> forall i :: 0 <= i < |r.value| ==> NumberedChunk(document, i, segments, r.value[i])
    ensures r.Ok? ==> forall segment, i :: segment in segments && Visible(segment.text, i) ==>
                        exists c :: c in r.value && CutAround(segment, c, i)
  {
    var chunks: seq<Chunk>, total := [], 0;
    for i := 0 to |segments|
      invariant WithinLimits(AllPieces(segments[..i]))
      invariant chunks == Numbered(document, AllPieces(segments[..i])) && total == Total(AllPieces(segments[..i]))
    {
      var limited;
      chunks, total, limited := ChunkSegment(document, segments[i], chunks, total, AllPieces(segments[..i]));
      assert segments[..i + 1][..i] == segments[..i];
      if limited {
        AllPiecesPrefix(segments, i + 1);
        PrefixWithinLimits(AllPieces(segments[..i + 1]), AllPieces(segments));
        return Err(Failure(ChunkLimit, false));
      }
    }
    assert segments[..|segments|] == segments;
    r := Ok(chunks);
    EveryChunkIsCut(document, segments);
    EveryByteIsKept(document, segments);
  }
}
