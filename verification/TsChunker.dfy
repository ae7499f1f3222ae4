/** The backend's grapheme-aware chunker (app/src/modules/ai/chunk.service.ts). */
module TsChunker {
  import opened CodeUnits
  import opened Domain

  datatype Segment = Segment(text: Units, locator: Locator)
  /** A half-open range of offsets into a text. */
  datatype Range = Range(start: nat, end: nat)
  datatype Piece = Piece(text: Units, locator: Locator)

  datatype Settings = Settings(target: nat, max: nat, overlap: nat, maxChunks: nat, maxTotal: nat)

  /** What \s matches. */
  predicate White(u: Unit) {
    || 9 <= u <= 13 || u == 0x20 || u == 0xA0 || u == 0x1680 || 0x2000 <= u <= 0x200A
    || u == 0x2028 || u == 0x2029 || u == 0x202F || u == 0x205F || u == 0x3000 || u == 0xFEFF
  }

  // ---- trimming ----

  function Front(text: Units, start: nat, end: nat): (first: nat)
    requires start <= end <= |text|
    ensures start <= first <= end
    ensures forall i :: start <= i < first ==> White(text[i])
    ensures first < end ==> !White(text[first])
    decreases end - start
  {
    if start < end && White(text[start]) then Front(text, start + 1, end) else start
  }

  function Back(text: Units, start: nat, end: nat): (last: nat)
    requires start <= end <= |text|
    ensures start <= last <= end
    ensures forall i :: last <= i < end ==> White(text[i])
    ensures start < last ==> !White(text[last - 1])
    decreases end - start
  {
    if start < end && White(text[end - 1]) then Back(text, start, end - 1) else end
  }

  function Trimmed(text: Units, start: nat, end: nat): (r: Range)
    requires start <= end <= |text|
    ensures start <= r.start <= r.end <= end
    ensures forall i :: start <= i < end && !White(text[i]) ==> r.start <= i < r.end
    ensures r.start < r.end ==> !White(text[r.start]) && !White(text[r.end - 1])
  {
    var first := Front(text, start, end);
    Range(first, Back(text, first, end))
  }

  method TrimBounds(text: Units, start: nat, end: nat) returns (r: Range)
    requires start <= end <= |text|
    ensures r == Trimmed(text, start, end)
  {
    var first, last := start, end;
    while first < last && White(text[first])
      invariant start <= first <= last == end
      invariant Front(text, start, end) == Front(text, first, end)
    {
      first := first + 1;
    }
    while last > first && White(text[last - 1])
      invariant first <= last <= end
      invariant Back(text, first, end) == Back(text, first, last)
    {
      last := last - 1;
    }
    r := Range(first, last);
  }

  // ---- grapheme boundaries ----

  /** The starts of the graphemes of a non-empty text, and its length. */
  ghost predicate Boundaries(bs: seq<nat>, length: nat) {
    && |bs| >= 2
    && bs[0] == 0
    && bs[|bs| - 1] == length
    && forall i, j :: 0 <= i < j < |bs| ==> bs[i] < bs[j]
  }

  /** The segmenter is given; all that is asked of it is that it splits every text. */
  ghost predicate Segmenter(graphemes: Units -> seq<nat>) {
    forall text: Units :: text != [] ==> Boundaries(graphemes(text), |text|)
  }

  /** No grapheme boundary lies strictly between the two. */
  ghost predicate OneGrapheme(bs: seq<nat>, start: nat, end: nat) {
    forall b :: b in bs ==> !(start < b < end)
  }

  /** The greatest member above lo and at most hi. */
  function Greatest(bs: seq<nat>, lo: nat, hi: nat): (r: Option<nat>)
    ensures r.Some? ==> r.value in bs && lo < r.value <= hi
    ensures forall b :: b in bs && lo < b <= hi ==> r.Some? && b <= r.value
  {
    if bs == [] then None
    else
      var rest := Greatest(bs[1..], lo, hi);
      assert forall b :: b in bs ==> b == bs[0] || b in bs[1..];
      if lo < bs[0] <= hi && (rest.None? || rest.value < bs[0]) then Some(bs[0]) else rest
  }

  function Previous(bs: seq<nat>, candidate: nat, minimum: nat): (r: nat)
    ensures r == minimum || (r in bs && minimum < r <= candidate)
    ensures forall b :: b in bs && minimum < b <= candidate ==> b <= r
  {
    match Greatest(bs, minimum, candidate)
    case Some(b) => b
    case None => minimum
  }

  /** The least member above start. */
  function Following(bs: seq<nat>, start: nat): (r: Option<nat>)
    ensures r.Some? ==> r.value in bs && start < r.value
    ensures forall b :: b in bs && start < b ==> r.Some? && r.value <= b
  {
    if bs == [] then None
    else
      var rest := Following(bs[1..], start);
      assert forall b :: b in bs ==> b == bs[0] || b in bs[1..];
      if start < bs[0] && (rest.None? || bs[0] < rest.value) then Some(bs[0]) else rest
  }

  predicate BreaksAt(text: Units, b: nat) {
    b < |text| && White(text[b])
  }

  /** The boundaries that have white space behind them. */
  function Breaks(text: Units, bs: seq<nat>): (r: seq<nat>)
    ensures forall b :: b in r <==> b in bs && BreaksAt(text, b)
  {
    if bs == [] then []
    else (if BreaksAt(text, bs[0]) then [bs[0]] else []) + Breaks(text, bs[1..])
  }

  method PreviousBoundary(bs: seq<nat>, candidate: nat, minimum: nat) returns (r: nat)
    requires forall i, j :: 0 <= i < j < |bs| ==> bs[i] < bs[j]
    ensures r == Previous(bs, candidate, minimum)
  {
    for index := |bs| downto 0
      invariant forall j :: index <= j < |bs| ==> !(minimum < bs[j] <= candidate)
    {
      if bs[index] <= candidate && bs[index] > minimum {
        assert bs[index] in bs;
        return bs[index];
      }
    }
    r := minimum;
  }

  /** None where the source throws for want of a boundary. */
  method NextBoundary(bs: seq<nat>, start: nat) returns (r: Option<nat>)
    requires forall i, j :: 0 <= i < j < |bs| ==> bs[i] < bs[j]
    ensures r == Following(bs, start)
  {
    for index := 0 to |bs|
      invariant forall j :: 0 <= j < index ==> bs[j] <= start
    {
      if bs[index] > start {
        assert bs[index] in bs;
        return Some(bs[index]);
      }
    }
    r := None;
  }

  // ---- windows ----

  /** A text with the boundaries of its graphemes. */
  datatype Body = Body(text: Units, bs: seq<nat>)

  ghost predicate Proper(body: Body) {
    Boundaries(body.bs, |body.text|)
  }

  lemma EndIsBoundary(body: Body)
    requires Proper(body)
    ensures 0 in body.bs && |body.text| in body.bs && |body.text| > 0
    ensures forall b :: b in body.bs ==> b <= |body.text|
  {
    assert body.bs[0] < body.bs[|body.bs| - 1];
  }

  /** All of the rest if it fits; else up to the last break within the target; else as much as fits, or one grapheme. */
  function WindowEnd(body: Body, start: nat, s: Settings): (end: nat)
    requires Proper(body) && start < |body.text|
    ensures start < end <= |body.text| && end in body.bs
  {
    EndIsBoundary(body);
    if |body.text| <= start + s.max then |body.text|
    else CutEnd(body, start, Breaking(body, start, s), Fitting(body, start, s))
  }

  function CutEnd(body: Body, start: nat, breaking: Option<nat>, fitting: Option<nat>): nat
    requires Proper(body) && start < |body.text|
  {
    SomethingFollows(body, start);
    if breaking.Some? then breaking.value
    else if fitting.Some? then fitting.value
    else Following(body.bs, start).value
  }

  /** The last boundary within the target that has white space behind it. */
  function Breaking(body: Body, start: nat, s: Settings): Option<nat> {
    Greatest(Breaks(body.text, body.bs), start, start + s.target)
  }

  /** The last boundary within the maximum. */
  function Fitting(body: Body, start: nat, s: Settings): Option<nat> {
    Greatest(body.bs, start, start + s.max)
  }

  lemma GreatestIs(bs: seq<nat>, lo: nat, hi: nat, b: nat)
    requires b in bs && lo < b <= hi && forall c :: c in bs && lo < c <= hi ==> c <= b
    ensures Greatest(bs, lo, hi) == Some(b)
  {
  }

  lemma LastBreakIs(body: Body, start: nat, s: Settings, index: nat)
    requires Proper(body) && index < |body.bs| && BreaksAt(body.text, body.bs[index])
    requires start < body.bs[index] <= start + s.target && NoBreakBehind(body, start, start + s.target, index)
    ensures Breaking(body, start, s) == Some(body.bs[index])
  {
    var breaks, b, limit := Breaks(body.text, body.bs), body.bs[index], start + s.target;
    assert b in body.bs;
    forall c | c in breaks && start < c <= limit ensures c <= b {
      var j :| 0 <= j < |body.bs| && body.bs[j] == c;
    }
    GreatestIs(breaks, start, limit, b);
  }

  lemma NoBreakAtAll(body: Body, start: nat, s: Settings, index: int)
    requires Proper(body) && -1 <= index < |body.bs| && NoBreakBehind(body, start, start + s.target, index)
    requires index >= 0 ==> body.bs[index] <= start
    ensures Breaking(body, start, s) == None
  {
    forall c | c in Breaks(body.text, body.bs) ensures !(start < c <= start + s.target) {
      var j :| 0 <= j < |body.bs| && body.bs[j] == c;
    }
  }

  ghost predicate NoBreakBehind(body: Body, start: nat, limit: nat, index: int) {
    forall j :: index < j < |body.bs| && j >= 0 ==> !(start < body.bs[j] <= limit && BreaksAt(body.text, body.bs[j]))
  }

  /** The scan down from the preferred end, over the boundaries behind start. */
  method LastBreak(body: Body, start: nat, preferredEnd: nat, ghost s: Settings) returns (r: Option<nat>)
    requires Proper(body) && start in body.bs && preferredEnd == Previous(body.bs, start + s.target, start)
    ensures r == Breaking(body, start, s)
  {
    var bs := body.bs;
    var index: int :| 0 <= index < |bs| && bs[index] == preferredEnd;
    assert forall j :: index < j < |bs| ==> bs[j] in bs && bs[j] > preferredEnd;
    while index >= 0
      invariant -1 <= index < |bs| && NoBreakBehind(body, start, start + s.target, index)
      invariant index >= 0 ==> bs[index] <= preferredEnd
    {
      if bs[index] <= start {
        break;
      }
      if BreaksAt(body.text, bs[index]) {
        LastBreakIs(body, start, s, index);
        return Some(bs[index]);
      }
      index := index - 1;
    }
    NoBreakAtAll(body, start, s, index);
    r := None;
  }

  lemma MaxEnd(body: Body, start: nat, s: Settings)
    requires Proper(body) && start < |body.text|
    ensures var r := Previous(body.bs, start + s.max, start);
            && Fitting(body, start, s) == (if r > start then Some(r) else None)
            && (r >= |body.text| <==> |body.text| <= start + s.max)
  {
    EndIsBoundary(body);
  }

  lemma SomethingFollows(body: Body, start: nat)
    requires Proper(body) && start < |body.text|
    ensures exists b :: b in body.bs && start < b
  {
    EndIsBoundary(body);
  }

  /** The end of a window that does not reach the end of the text. */
  method CutWithin(body: Body, start: nat, maxEnd: nat, s: Settings) returns (end: nat)
    requires Proper(body) && start < |body.text| && start in body.bs
    requires Fitting(body, start, s) == if maxEnd > start then Some(maxEnd) else None
    ensures end == CutEnd(body, start, Breaking(body, start, s), Fitting(body, start, s))
  {
    var preferredEnd := PreviousBoundary(body.bs, start + s.target, start);
    var breakAt := LastBreak(body, start, preferredEnd, s);
    if breakAt.Some? {
      end := breakAt.value;
    } else if maxEnd > start {
      end := maxEnd;
    } else {
      SomethingFollows(body, start);
      var next := NextBoundary(body.bs, start);
      end := next.value;
    }
  }

  /** No boundary in the range has white space behind it. */
  ghost predicate NoBreakIn(body: Body, lo: nat, hi: nat) {
    forall b :: b in body.bs && lo < b <= hi ==> !BreaksAt(body.text, b)
  }

  /** `end` is the last boundary up to `hi`. */
  ghost predicate LastUpTo(body: Body, end: nat, hi: nat) {
    end in body.bs && end <= hi && forall b :: b in body.bs && b <= hi ==> b <= end
  }

  /**
   Where a window may end: at the end of the text if that is within the maximum; else at the last boundary within the
   target that has white space behind it; else at the last boundary within the maximum; else behind one grapheme.
   */
  ghost predicate EndsWell(body: Body, start: nat, s: Settings, end: nat) {
    if |body.text| <= start + s.max then end == |body.text|
    else if !NoBreakIn(body, start, start + s.target) then
      && end in body.bs && start < end <= start + s.target && BreaksAt(body.text, end)
      && NoBreakIn(body, end, start + s.target)
    else if exists b :: b in body.bs && start < b <= start + s.max then
      start < end && LastUpTo(body, end, start + s.max)
    else
      start < end && end in body.bs && OneGrapheme(body.bs, start, end)
  }

  lemma WindowEndsWell(body: Body, start: nat, s: Settings)
    requires Proper(body) && start < |body.text|
    ensures EndsWell(body, start, s, WindowEnd(body, start, s))
  {
    EndIsBoundary(body);
    if start + s.max < |body.text| {
      assert forall b :: b in Breaks(body.text, body.bs) <==> b in body.bs && BreaksAt(body.text, b);
    }
  }

  method SelectChunkEnd(body: Body, start: nat, s: Settings) returns (end: nat)
    requires Proper(body) && start < |body.text| && start in body.bs
    ensures end == WindowEnd(body, start, s) && EndsWell(body, start, s, end)
  {
    WindowEndsWell(body, start, s);
    MaxEnd(body, start, s);
    var maxEnd := PreviousBoundary(body.bs, start + s.max, start);
    if maxEnd >= |body.text| {
      return |body.text|;
    }
    end := CutWithin(body, start, maxEnd, s);
  }

  function NextStart(body: Body, start: nat, end: nat, s: Settings): (next: nat)
    requires Proper(body) && start < end <= |body.text| && end in body.bs
    ensures start < next <= end && next in body.bs
  {
    var overlapStart := Previous(body.bs, OverlapLimit(start, end, s), start);
    if overlapStart > start then overlapStart else end
  }

  function Windows(body: Body, start: nat, s: Settings): (ws: seq<Range>)
    requires Proper(body) && start < |body.text|
    ensures |ws| > 0 && ws[0] == Range(start, WindowEnd(body, start, s))
    decreases |body.text| - start
  {
    var end := WindowEnd(body, start, s);
    [Range(start, end)]
    + (if end == |body.text| then [] else Windows(body, NextStart(body, start, end, s), s))
  }

  /** Starts strictly increase, and no window starts behind the end of the one before. */
  ghost predicate Chained(ws: seq<Range>, length: nat) {
    && ws != []
    && ws[|ws| - 1].end == length
    && (forall i :: 0 <= i < |ws| ==> ws[i].start < ws[i].end <= length)
    && (forall i :: 0 <= i < |ws| - 1 ==> ws[i].start < ws[i + 1].start <= ws[i].end < length)
  }

  lemma Shifted(w: Range, rest: seq<Range>, i: nat)
    requires i <= |rest|
    ensures ([w] + rest)[i] == if i == 0 then w else rest[i - 1]
  {
  }

  lemma ChainPrepends(w: Range, rest: seq<Range>, length: nat)
    requires Chained(rest, length) && w.start < rest[0].start <= w.end < length
    ensures Chained([w] + rest, length)
  {
    var ws := [w] + rest;
    forall i | 0 <= i < |ws| ensures ws[i].start < ws[i].end <= length {
      Shifted(w, rest, i);
    }
    forall i | 0 <= i < |ws| - 1 ensures ws[i].start < ws[i + 1].start <= ws[i].end < length {
      Shifted(w, rest, i);
      Shifted(w, rest, i + 1);
    }
  }

  lemma {:induction false} WindowsChain(body: Body, start: nat, s: Settings)
    requires Proper(body) && start < |body.text|
    ensures Chained(Windows(body, start, s), |body.text|)
    decreases |body.text| - start
  {
    var end := WindowEnd(body, start, s);
    if end < |body.text| {
      var next := NextStart(body, start, end, s);
      WindowsChain(body, next, s);
      ChainPrepends(Range(start, end), Windows(body, next, s), |body.text|);
    }
  }

  /** Every window lies on grapheme boundaries and is at most max long, unless it is a single grapheme. */
  ghost predicate WellCut(body: Body, s: Settings, w: Range) {
    && w.start in body.bs
    && w.end in body.bs
    && (w.end - w.start <= s.max || OneGrapheme(body.bs, w.start, w.end))
  }

  lemma {:induction false} WindowsWellCut(body: Body, start: nat, s: Settings)
    requires Proper(body) && start < |body.text| && start in body.bs && s.target <= s.max
    ensures forall w :: w in Windows(body, start, s) ==> WellCut(body, s, w)
    decreases |body.text| - start
  {
    EndIsBoundary(body);
    var end := WindowEnd(body, start, s);
    assert WellCut(body, s, Range(start, end));
    if end < |body.text| {
      WindowsWellCut(body, NextStart(body, start, end, s), s);
    }
  }

  /** When not all of the rest fits, the cut is before white space if some boundary within the target allows it. */
  lemma PrefersBreaks(body: Body, start: nat, s: Settings, b: nat)
    requires Proper(body) && start + s.max < |body.text|
    requires b in body.bs && start < b <= start + s.target && BreaksAt(body.text, b)
    ensures b <= WindowEnd(body, start, s) <= start + s.target && BreaksAt(body.text, WindowEnd(body, start, s))
  {
    assert b in Breaks(body.text, body.bs);
  }

  /** Without such a boundary, the window reaches as far as the maximum allows. */
  lemma FillsTheWindow(body: Body, start: nat, s: Settings, b: nat)
    requires Proper(body) && start + s.max < |body.text| && b in body.bs && start < b <= start + s.max
    requires forall c :: c in body.bs && BreaksAt(body.text, c) ==> !(start < c <= start + s.target)
    ensures b <= WindowEnd(body, start, s) <= start + s.max
  {
    assert Breaking(body, start, s) == None;
  }

  function OverlapLimit(start: nat, end: nat, s: Settings): nat {
    if end < s.overlap + start + 1 then start + 1 else end - s.overlap
  }

  /**
   The next window starts at the last boundary that gives at least the overlap, or one unit behind this window's start
   if the overlap is longer than the window; without such a boundary, where this one ended.
   */
  lemma NextStartOverlaps(body: Body, start: nat, end: nat, s: Settings)
    requires Proper(body) && start < end <= |body.text| && end in body.bs
    ensures var next := NextStart(body, start, end, s);
            if exists b :: b in body.bs && start < b && (b + s.overlap <= end || b == start + 1) then
              && next in body.bs && start < next && (next + s.overlap <= end || next == start + 1)
              && forall b :: b in body.bs && next < b ==> b + s.overlap > end
            else next == end
  {
  }

  lemma {:induction false} ChainCovers(ws: seq<Range>, length: nat, i: nat)
    requires Chained(ws, length) && ws[0].start <= i < length
    ensures exists w :: w in ws && w.start <= i < w.end
    decreases |ws|
  {
    if i < ws[0].end {
      assert ws[0] in ws;
    } else {
      ChainCovers(ws[1..], length, i);
    }
  }

  // ---- pieces ----

  /** The trimmed windows that are not empty. */
  function Kept(text: Units, ws: seq<Range>): (kept: seq<Range>)
    requires forall w :: w in ws ==> w.start <= w.end <= |text|
    ensures forall w :: w in ws && Trimmed(text, w.start, w.end).start < Trimmed(text, w.start, w.end).end ==>
      Trimmed(text, w.start, w.end) in kept
    ensures forall k :: k in kept ==>
      k.start < k.end <= |text| && exists w :: w in ws && k == Trimmed(text, w.start, w.end)
  {
    if ws == [] then []
    else
      var r := Trimmed(text, ws[0].start, ws[0].end);
      (if r.start < r.end then [r] else []) + Kept(text, ws[1..])
  }

  function LocatorForPart(locator: Locator, start: nat, end: nat): Locator {
    match locator
    case Page(_) => locator
    case TextRange(origin, _) => TextRange(origin + start, origin + end)
  }

  /** The piece at the given range of the trimmed text, which starts `leading` units into the segment. */
  function PieceAt(segment: Segment, leading: nat, k: Range): Piece
    requires k.start <= k.end && leading + k.end <= |segment.text|
  {
    Piece(segment.text[leading + k.start..leading + k.end],
          LocatorForPart(segment.locator, leading + k.start, leading + k.end))
  }

  ghost predicate Within(kept: seq<Range>, leading: nat, segment: Segment) {
    forall k :: k in kept ==> k.start <= k.end && leading + k.end <= |segment.text|
  }

  function PiecesAt(segment: Segment, leading: nat, kept: seq<Range>): (pieces: seq<Piece>)
    requires Within(kept, leading, segment)
    ensures |pieces| == |kept|
    ensures forall i :: 0 <= i < |kept| ==> pieces[i] == PieceAt(segment, leading, kept[i])
  {
    if kept == [] then [] else [PieceAt(segment, leading, kept[0])] + PiecesAt(segment, leading, kept[1..])
  }

  function KeptFrom(body: Body, start: nat, s: Settings): (kept: seq<Range>)
    requires Proper(body) && start < |body.text|
    ensures forall k :: k in kept ==> k.start < k.end <= |body.text|
  {
    WindowsChain(body, start, s);
    Kept(body.text, Windows(body, start, s))
  }

  function KeptIn(body: Body, s: Settings): (kept: seq<Range>)
    requires Proper(body)
    ensures forall k :: k in kept ==> k.start < k.end <= |body.text|
  {
    EndIsBoundary(body);
    KeptFrom(body, 0, s)
  }

  /** No visible character is lost: each lies in a piece. */
  lemma NothingVisibleLost(body: Body, s: Settings, i: nat)
    requires Proper(body) && i < |body.text| && !White(body.text[i])
    ensures exists k :: k in KeptIn(body, s) && k.start <= i < k.end
  {
    var ws := Windows(body, 0, s);
    WindowsChain(body, 0, s);
    ChainCovers(ws, |body.text|, i);
    var w :| w in ws && w.start <= i < w.end;
    assert Trimmed(body.text, w.start, w.end) in KeptIn(body, s);
  }

  lemma TrimmedEnds(text: Units, w: Range, k: Range)
    requires w.start <= w.end <= |text| && k == Trimmed(text, w.start, w.end) && k.start < k.end
    ensures w.start <= k.start && k.end <= w.end && !White(text[k.start]) && !White(text[k.end - 1])
  {
  }

  lemma WindowOf(body: Body, s: Settings, k: Range) returns (w: Range)
    requires Proper(body) && k in KeptIn(body, s)
    ensures w in Windows(body, 0, s)
    ensures w.start <= k.start < k.end <= w.end <= |body.text|
    ensures !White(body.text[k.start]) && !White(body.text[k.end - 1])
  {
    WindowsChain(body, 0, s);
    w :| w in Windows(body, 0, s) && k == Trimmed(body.text, w.start, w.end);
    TrimmedEnds(body.text, w, k);
  }

  /** A piece is no longer than max, or lies within one grapheme. */
  lemma KeptFits(body: Body, s: Settings, k: Range)
    requires Proper(body) && s.target <= s.max && k in KeptIn(body, s)
    ensures k.end - k.start <= s.max || OneGrapheme(body.bs, k.start, k.end)
  {
    EndIsBoundary(body);
    var w := WindowOf(body, s, k);
    WindowsWellCut(body, 0, s);
    PartFits(body, s, w, k);
  }

  lemma PartFits(body: Body, s: Settings, w: Range, k: Range)
    requires WellCut(body, s, w) && w.start <= k.start < k.end <= w.end
    ensures k.end - k.start <= s.max || OneGrapheme(body.bs, k.start, k.end)
  {
  }

  /** The trimmed text lies at `leading` in its segment. */
  ghost predicate BodyAt(segment: Segment, leading: nat, text: Units) {
    leading + |text| <= |segment.text| && text == segment.text[leading..leading + |text|]
  }

  function Bounds(segment: Segment): (r: Range)
    ensures r.start <= r.end <= |segment.text|
    ensures forall i :: 0 <= i < |segment.text| && !White(segment.text[i]) ==> r.start <= i < r.end
  {
    Trimmed(segment.text, 0, |segment.text|)
  }

  ghost function BodyOf(segment: Segment, graphemes: Units -> seq<nat>): (body: Body)
    requires Segmenter(graphemes) && Bounds(segment).start < Bounds(segment).end
    ensures Proper(body) && BodyAt(segment, Bounds(segment).start, body.text)
    ensures |body.text| == Bounds(segment).end - Bounds(segment).start
  {
    var text := segment.text[Bounds(segment).start..Bounds(segment).end];
    Body(text, graphemes(text))
  }

  /** What splitSegment returns. */
  ghost function Pieces(segment: Segment, graphemes: Units -> seq<nat>, s: Settings): seq<Piece>
    requires Segmenter(graphemes)
  {
    if Bounds(segment).start == Bounds(segment).end then []
    else PiecesAt(segment, Bounds(segment).start, KeptIn(BodyOf(segment, graphemes), s))
  }

  /**
   The text is the slice of the segment that the locator names: a text range counts from the segment's own start, and a
   page locator is the segment's own.
   */
  ghost predicate Named(segment: Segment, text: Units, locator: Locator) {
    match segment.locator
    case Page(_) => locator == segment.locator
    case TextRange(origin, _) =>
      && locator.TextRange?
      && origin <= locator.start < locator.end <= origin + |segment.text|
      && text == segment.text[locator.start - origin..locator.end - origin]
  }

  /** The piece is the slice of the segment that its locator names, without white space at its ends. */
  ghost predicate Located(segment: Segment, piece: Piece, start: nat, end: nat) {
    && start < end <= |segment.text|
    && piece.text == segment.text[start..end]
    && Named(segment, piece.text, piece.locator)
    && (segment.locator.TextRange? ==> piece.locator.start == segment.locator.start + start)
    && !White(segment.text[start]) && !White(segment.text[end - 1])
  }

  ghost predicate Covers(segment: Segment, piece: Piece, i: nat) {
    exists start: nat, end: nat :: Located(segment, piece, start, end) && start <= i < end
  }

  lemma PieceLocated(segment: Segment, leading: nat, text: Units, k: Range)
    requires BodyAt(segment, leading, text)
    requires k.start < k.end <= |text| && !White(text[k.start]) && !White(text[k.end - 1])
    ensures Located(segment, PieceAt(segment, leading, k), leading + k.start, leading + k.end)
  {
    assert text[k.start] == segment.text[leading + k.start];
    assert text[k.end - 1] == segment.text[leading + k.end - 1];
  }

  lemma KeptLocated(segment: Segment, leading: nat, body: Body, s: Settings, k: Range)
    requires Proper(body) && BodyAt(segment, leading, body.text) && k in KeptIn(body, s)
    ensures Located(segment, PieceAt(segment, leading, k), leading + k.start, leading + k.end)
  {
    var w := WindowOf(body, s, k);
    PieceLocated(segment, leading, body.text, k);
  }

  lemma BodyCovered(segment: Segment, leading: nat, body: Body, s: Settings, i: nat) returns (k: Range)
    requires Proper(body) && BodyAt(segment, leading, body.text) && i < |body.text| && !White(body.text[i])
    ensures k in KeptIn(body, s) && Covers(segment, PieceAt(segment, leading, k), leading + i)
  {
    NothingVisibleLost(body, s, i);
    k :| k in KeptIn(body, s) && k.start <= i < k.end;
    KeptLocated(segment, leading, body, s, k);
  }

  lemma PieceOfKept(segment: Segment, leading: nat, kept: seq<Range>, k: Range)
    requires Within(kept, leading, segment) && k in kept
    ensures PieceAt(segment, leading, k) in PiecesAt(segment, leading, kept)
  {
    var n :| 0 <= n < |kept| && kept[n] == k;
    assert PiecesAt(segment, leading, kept)[n] == PieceAt(segment, leading, k);
  }

  /** Every locator slices the original segment back to exactly the piece. */
  lemma PiecesLocated(segment: Segment, graphemes: Units -> seq<nat>, s: Settings, i: nat)
    requires Segmenter(graphemes)
    ensures i < |Pieces(segment, graphemes, s)| ==>
              exists start: nat, end: nat :: Located(segment, Pieces(segment, graphemes, s)[i], start, end)
  {
    if i < |Pieces(segment, graphemes, s)| {
      var body := BodyOf(segment, graphemes);
      KeptLocated(segment, Bounds(segment).start, body, s, KeptIn(body, s)[i]);
    }
  }

  lemma BodyPieceCovers(segment: Segment, leading: nat, body: Body, s: Settings, i: nat) returns (piece: Piece)
    requires Proper(body) && BodyAt(segment, leading, body.text)
    requires leading <= i < leading + |body.text| && !White(segment.text[i])
    ensures Within(KeptIn(body, s), leading, segment)
    ensures piece in PiecesAt(segment, leading, KeptIn(body, s)) && Covers(segment, piece, i)
  {
    assert body.text[i - leading] == segment.text[i];
    var k := BodyCovered(segment, leading, body, s, i - leading);
    PieceOfKept(segment, leading, KeptIn(body, s), k);
    piece := PieceAt(segment, leading, k);
    assert leading + (i - leading) == i;
  }

  /** Every visible character of a segment lies in one of its pieces. */
  lemma PiecesCover(segment: Segment, graphemes: Units -> seq<nat>, s: Settings, i: nat) returns (piece: Piece)
    requires Segmenter(graphemes) && i < |segment.text| && !White(segment.text[i])
    ensures piece in Pieces(segment, graphemes, s) && Covers(segment, piece, i)
  {
    piece := BodyPieceCovers(segment, Bounds(segment).start, BodyOf(segment, graphemes), s, i);
  }

  // ---- the loops ----

  ghost function KeptAfter(body: Body, start: nat, end: nat, s: Settings): seq<Range>
    requires Proper(body) && start < end <= |body.text| && end in body.bs
  {
    if end == |body.text| then [] else KeptFrom(body, NextStart(body, start, end, s), s)
  }

  /** A window's trimmed range, unless it is empty. */
  function PartsOf(text: Units, start: nat, end: nat): seq<Range>
    requires start <= end <= |text|
  {
    var part := Trimmed(text, start, end);
    if part.start < part.end then [part] else []
  }

  lemma KeptCons(text: Units, w: Range, ws: seq<Range>)
    requires w.start <= w.end <= |text| && forall v :: v in ws ==> v.start <= v.end <= |text|
    ensures Kept(text, [w] + ws) == PartsOf(text, w.start, w.end) + Kept(text, ws)
  {
    assert ([w] + ws)[1..] == ws;
  }

  lemma KeptStep(body: Body, start: nat, s: Settings)
    requires Proper(body) && start < |body.text|
    ensures var end := WindowEnd(body, start, s);
            KeptFrom(body, start, s) == PartsOf(body.text, start, end) + KeptAfter(body, start, end, s)
  {
    var end := WindowEnd(body, start, s);
    if end < |body.text| {
      var next := NextStart(body, start, end, s);
      WindowsChain(body, next, s);
      KeptCons(body.text, Range(start, end), Windows(body, next, s));
    } else {
      KeptCons(body.text, Range(start, end), []);
    }
  }

  lemma PiecesAppend(segment: Segment, leading: nat, kept: seq<Range>, k: Range)
    requires Within(kept, leading, segment) && Within([k], leading, segment)
    ensures Within(kept + [k], leading, segment)
    ensures PiecesAt(segment, leading, kept + [k]) == PiecesAt(segment, leading, kept) + [PieceAt(segment, leading, k)]
  {
    assert k in [k];
    assert forall i :: 0 <= i < |kept| ==> (kept + [k])[i] == kept[i];
  }

  lemma SliceOfSlice(whole: Units, text: Units, leading: nat, part: Range)
    requires leading + |text| <= |whole| && text == whole[leading..leading + |text|]
    requires part.start <= part.end <= |text|
    ensures text[part.start..part.end] == whole[leading + part.start..leading + part.end]
  {
    var a, b := text[part.start..part.end], whole[leading + part.start..leading + part.end];
    assert forall i :: 0 <= i < |a| ==> a[i] == text[part.start + i] == whole[leading + part.start + i] == b[i];
  }

  /** The head of the loop: the window's trimmed range, as at most one piece. */
  method CutOne(segment: Segment, leading: nat, body: Body, start: nat, end: nat) returns (pieces: seq<Piece>)
    requires BodyAt(segment, leading, body.text) && start <= end <= |body.text|
    ensures Within(PartsOf(body.text, start, end), leading, segment)
    ensures pieces == PiecesAt(segment, leading, PartsOf(body.text, start, end))
  {
    var part := TrimBounds(body.text, start, end);
    var value := body.text[part.start..part.end];
    if value != [] {
      SliceOfSlice(segment.text, body.text, leading, part);
      pieces := [Piece(value, LocatorForPart(segment.locator, leading + part.start, leading + part.end))];
      PiecesAppend(segment, leading, [], part);
    } else {
      pieces := [];
    }
  }

  /** The tail of the loop: where the next window starts. */
  method Advance(body: Body, start: nat, end: nat, s: Settings) returns (next: nat)
    requires Proper(body) && start < end <= |body.text| && end in body.bs
    ensures next == NextStart(body, start, end, s)
  {
    var overlapStart := PreviousBoundary(body.bs, OverlapLimit(start, end, s), start);
    next := if overlapStart > start then overlapStart else end;
  }

  lemma PiecesConcat(segment: Segment, leading: nat, kept: seq<Range>, parts: seq<Range>)
    requires Within(kept, leading, segment) && Within(parts, leading, segment) && |parts| <= 1
    ensures Within(kept + parts, leading, segment)
    ensures PiecesAt(segment, leading, kept + parts) ==
            PiecesAt(segment, leading, kept) + PiecesAt(segment, leading, parts)
  {
    if parts == [] {
      assert kept + parts == kept;
    } else {
      assert parts == [parts[0]] && Within([parts[0]], leading, segment);
      PiecesAppend(segment, leading, kept, parts[0]);
      PiecesAppend(segment, leading, [], parts[0]);
    }
  }

  lemma Regroup(kept: seq<Range>, parts: seq<Range>, rest: seq<Range>)
    ensures kept + (parts + rest) == (kept + parts) + rest
    ensures (kept + parts) + [] == kept + parts
  {
  }

  /** The loop's body: one window's piece, and where the next window starts unless this was the last. */
  method CutNext(segment: Segment, leading: nat, body: Body, start: nat, s: Settings, ghost kept: seq<Range>)
      returns (pieces: seq<Piece>, end: nat, next: nat, ghost kept': seq<Range>)
    requires Proper(body) && BodyAt(segment, leading, body.text) && start < |body.text| && start in body.bs
    requires Within(kept, leading, segment)
    ensures start < end <= |body.text| && end in body.bs
    ensures end < |body.text| ==> next == NextStart(body, start, end, s)
    ensures kept + KeptFrom(body, start, s) == kept' + KeptAfter(body, start, end, s)
    ensures Within(kept', leading, segment)
    ensures PiecesAt(segment, leading, kept') == PiecesAt(segment, leading, kept) + pieces
  {
    next := start;
    end := SelectChunkEnd(body, start, s);
    pieces := CutOne(segment, leading, body, start, end);
    ghost var parts := PartsOf(body.text, start, end);
    KeptStep(body, start, s);
    Regroup(kept, parts, KeptAfter(body, start, end, s));
    PiecesConcat(segment, leading, kept, parts);
    kept' := kept + parts;
    if end < |body.text| {
      next := Advance(body, start, end, s);
    }
  }

  lemma NothingAppended(kept: seq<Range>)
    ensures kept + [] == kept
  {
  }

  /** Cut a trimmed text of the segment into pieces. */
  method Cut(segment: Segment, leading: nat, body: Body, s: Settings) returns (result: seq<Piece>)
    requires Proper(body) && BodyAt(segment, leading, body.text)
    ensures result == PiecesAt(segment, leading, KeptIn(body, s))
  {
    EndIsBoundary(body);
    result := [];
    ghost var kept := [];
    var start := 0;
    ghost var all := KeptIn(body, s);
    while start < |body.text|
      invariant start < |body.text| && start in body.bs
      invariant kept + KeptFrom(body, start, s) == all
      invariant Within(kept, leading, segment) && result == PiecesAt(segment, leading, kept)
      decreases |body.text| - start
    {
      var pieces, end, next;
      pieces, end, next, kept := CutNext(segment, leading, body, start, s, kept);
      result := result + pieces;
      if end == |body.text| {
        NothingAppended(kept);
        break;
      }
      start := next;
    }
  }

  method SplitSegment(segment: Segment, graphemes: Units -> seq<nat>, s: Settings) returns (result: seq<Piece>)
    requires Segmenter(graphemes)
    ensures result == Pieces(segment, graphemes, s)
  {
    var bounds := TrimBounds(segment.text, 0, |segment.text|);
    if bounds.start == bounds.end {
      return [];
    }
    var text := segment.text[bounds.start..bounds.end];
    assert Body(text, graphemes(text)) == BodyOf(segment, graphemes);
    result := Cut(segment, bounds.start, Body(text, graphemes(text)), s);
  }

  // ---- documents ----

  /** The identifier is a hash of its parts; it is kept symbolic. */
  datatype CandidateId = CandidateId(document: Document, index: nat, text: Units)
  datatype Candidate = Candidate(id: CandidateId, index: nat, text: Units, locator: Locator)

  function CandidateOf(document: Document, index: nat, piece: Piece): Candidate {
    Candidate(CandidateId(document, index, piece.text), index, piece.text, piece.locator)
  }

  ghost predicate Numbered(document: Document, pieces: seq<Piece>, chunks: seq<Candidate>) {
    && |chunks| == |pieces|
    && forall i :: 0 <= i < |pieces| ==> chunks[i] == CandidateOf(document, i, pieces[i])
  }

  function Total(pieces: seq<Piece>): nat {
    if pieces == [] then 0 else Total(pieces[..|pieces| - 1]) + |pieces[|pieces| - 1].text|
  }

  predicate WithinLimits(pieces: seq<Piece>, s: Settings) {
    |pieces| <= s.maxChunks && Total(pieces) <= s.maxTotal
  }

  ghost function AllPieces(segments: seq<Segment>, graphemes: Units -> seq<nat>, s: Settings): seq<Piece>
    requires Segmenter(graphemes)
  {
    if segments == [] then []
    else
      var last := |segments| - 1;
      AllPieces(segments[..last], graphemes, s) + Pieces(segments[last], graphemes, s)
  }

  lemma {:induction false} PrefixWithinLimits(pieces: seq<Piece>, n: nat, s: Settings)
    requires n <= |pieces| && WithinLimits(pieces, s)
    ensures WithinLimits(pieces[..n], s)
    decreases |pieces|
  {
    if n == |pieces| {
      assert pieces[..n] == pieces;
    } else {
      PrefixWithinLimits(pieces[..|pieces| - 1], n, s);
      assert pieces[..|pieces| - 1][..n] == pieces[..n];
    }
  }

  lemma {:induction false} AllPiecesPrefix(segments: seq<Segment>, n: nat, graphemes: Units -> seq<nat>, s: Settings)
    requires Segmenter(graphemes) && n <= |segments|
    ensures AllPieces(segments[..n], graphemes, s) <= AllPieces(segments, graphemes, s)
    decreases |segments|
  {
    if n == |segments| {
      assert segments[..n] == segments;
    } else {
      assert segments[..|segments| - 1][..n] == segments[..n];
      AllPiecesPrefix(segments[..|segments| - 1], n, graphemes, s);
    }
  }

  lemma AllPiecesStep(segments: seq<Segment>, i: nat, graphemes: Units -> seq<nat>, s: Settings)
    requires Segmenter(graphemes) && i < |segments|
    ensures AllPieces(segments[..i + 1], graphemes, s) ==
            AllPieces(segments[..i], graphemes, s) + Pieces(segments[i], graphemes, s)
  {
    assert segments[..i + 1][..i] == segments[..i];
  }

  lemma TotalAppend(pieces: seq<Piece>, piece: Piece)
    ensures Total(pieces + [piece]) == Total(pieces) + |piece.text|
  {
    assert (pieces + [piece])[..|pieces|] == pieces;
  }

  lemma OneMore(all: seq<Piece>, n: nat, document: Document, chunks: seq<Candidate>)
    requires n < |all| && Numbered(document, all[..n], chunks)
    ensures Total(all[..n + 1]) == Total(all[..n]) + |all[n].text|
    ensures Numbered(document, all[..n + 1], chunks + [CandidateOf(document, n, all[n])])
  {
    assert all[..n + 1] == all[..n] + [all[n]];
    TotalAppend(all[..n], all[n]);
  }

  /** Append the chunks of one segment, or stop at a limit. */
  method AppendParts(document: Document, parts: seq<Piece>, before: seq<Candidate>, sum: nat, s: Settings,
                     ghost done: seq<Piece>)
      returns (chunks: seq<Candidate>, totalChars: nat, limited: bool)
    requires Numbered(document, done, before) && sum == Total(done) && WithinLimits(done, s)
    ensures limited <==> !WithinLimits(done + parts, s)
    ensures !limited ==> Numbered(document, done + parts, chunks) && totalChars == Total(done + parts)
  {
    chunks, totalChars, limited := before, sum, false;
    ghost var all := done + parts;
    assert all[..|done|] == done;
    for i := 0 to |parts|
      invariant Numbered(document, all[..|done| + i], chunks) && totalChars == Total(all[..|done| + i])
      invariant WithinLimits(all[..|done| + i], s)
    {
      OneMore(all, |done| + i, document, chunks);
      assert all[|done| + i] == parts[i];
      totalChars := totalChars + |parts[i].text|;
      if |chunks| >= s.maxChunks || totalChars > s.maxTotal {
        if WithinLimits(all, s) {
          PrefixWithinLimits(all, |done| + i + 1, s);
        }
        limited := true;
        return;
      }
      chunks := chunks + [CandidateOf(document, |chunks|, parts[i])];
    }
    assert all[..|all|] == all;
  }

  lemma SumIndex(a: seq<Piece>, b: seq<Piece>, i: nat)
    requires i < |a + b|
    ensures if i < |a| then (a + b)[i] == a[i] else (a + b)[i] in b
  {
  }

  lemma {:induction false} AllPiecesAreSomeones(segments: seq<Segment>, graphemes: Units -> seq<nat>, s: Settings,
                                                i: nat)
    returns (j: nat)
    requires Segmenter(graphemes) && i < |AllPieces(segments, graphemes, s)|
    ensures j < |segments| && AllPieces(segments, graphemes, s)[i] in Pieces(segments[j], graphemes, s)
    decreases |segments|
  {
    var last := |segments| - 1;
    var before, pieces := AllPieces(segments[..last], graphemes, s), Pieces(segments[last], graphemes, s);
    SumIndex(before, pieces, i);
    if i < |before| {
      j := AllPiecesAreSomeones(segments[..last], graphemes, s, i);
    } else {
      j := last;
    }
  }

  lemma IndexInPrefix(a: seq<Piece>, b: seq<Piece>, whole: seq<Piece>, n: nat)
    requires a + b <= whole && n < |b|
    ensures |a| + n < |whole| && whole[|a| + n] == b[n]
  {
    assert (a + b)[|a| + n] == b[n];
  }

  /** Piece n of segment j is some piece of the document. */
  lemma AllPiecesHave(segments: seq<Segment>, graphemes: Units -> seq<nat>, s: Settings, j: nat, n: nat)
    returns (i: nat)
    requires Segmenter(graphemes) && j < |segments| && n < |Pieces(segments[j], graphemes, s)|
    ensures i < |AllPieces(segments, graphemes, s)|
    ensures AllPieces(segments, graphemes, s)[i] == Pieces(segments[j], graphemes, s)[n]
  {
    var before, pieces := AllPieces(segments[..j], graphemes, s), Pieces(segments[j], graphemes, s);
    AllPiecesStep(segments, j, graphemes, s);
    AllPiecesPrefix(segments, j + 1, graphemes, s);
    IndexInPrefix(before, pieces, AllPieces(segments, graphemes, s), n);
    i := |before| + n;
  }

  /** The chunk is the slice of the segment from `start`, as its locator says, without white space at its ends. */
  ghost predicate SliceAt(segment: Segment, text: Units, locator: Locator, start: nat) {
    && start + |text| <= |segment.text| && text == segment.text[start..start + |text|]
    && Named(segment, text, locator)
    && text != [] && !White(text[0]) && !White(text[|text| - 1])
  }

  ghost predicate SliceOf(segment: Segment, chunk: Candidate) {
    exists start: nat :: SliceAt(segment, chunk.text, chunk.locator, start)
  }

  /** The chunk, field by field: its number, and the slice of some segment that its locator names. */
  ghost predicate ChunkOfSome(document: Document, segments: seq<Segment>, chunk: Candidate, i: nat) {
    && chunk.index == i && chunk.id == CandidateId(document, i, chunk.text)
    && exists j :: 0 <= j < |segments| && SliceOf(segments[j], chunk)
  }

  ghost predicate Contains(segment: Segment, chunk: Candidate, i: nat) {
    exists start: nat :: SliceAt(segment, chunk.text, chunk.locator, start) && start <= i < start + |chunk.text|
  }

  /** The character lies in some chunk, at its place. */
  ghost predicate Chunked(segment: Segment, chunks: seq<Candidate>, i: nat) {
    exists k :: 0 <= k < |chunks| && Contains(segment, chunks[k], i)
  }

  lemma LocatedIsSlice(segment: Segment, piece: Piece, start: nat, end: nat)
    requires Located(segment, piece, start, end)
    ensures SliceAt(segment, piece.text, piece.locator, start) && end == start + |piece.text|
  {
  }

  lemma PieceIsSlice(segment: Segment, graphemes: Units -> seq<nat>, s: Settings, piece: Piece) returns (start: nat)
    requires Segmenter(graphemes) && piece in Pieces(segment, graphemes, s)
    ensures SliceAt(segment, piece.text, piece.locator, start)
  {
    var pieces := Pieces(segment, graphemes, s);
    var n :| 0 <= n < |pieces| && pieces[n] == piece;
    PiecesLocated(segment, graphemes, s, n);
    var first: nat, end: nat :| Located(segment, piece, first, end);
    LocatedIsSlice(segment, piece, first, end);
    start := first;
  }

  lemma NumberedAreSlices(document: Document, segments: seq<Segment>, graphemes: Units -> seq<nat>, s: Settings,
                          chunks: seq<Candidate>, i: nat)
    requires Segmenter(graphemes) && Numbered(document, AllPieces(segments, graphemes, s), chunks) && i < |chunks|
    ensures ChunkOfSome(document, segments, chunks[i], i)
  {
    var j := AllPiecesAreSomeones(segments, graphemes, s, i);
    var start := PieceIsSlice(segments[j], graphemes, s, AllPieces(segments, graphemes, s)[i]);
    assert SliceOf(segments[j], chunks[i]);
  }

  lemma CoversContains(segment: Segment, piece: Piece, chunk: Candidate, i: nat)
    requires Covers(segment, piece, i) && chunk.text == piece.text && chunk.locator == piece.locator
    ensures Contains(segment, chunk, i)
  {
    var start: nat, end: nat :| Located(segment, piece, start, end) && start <= i < end;
    LocatedIsSlice(segment, piece, start, end);
  }

  lemma CoveringPiece(segment: Segment, graphemes: Units -> seq<nat>, s: Settings, i: nat) returns (n: nat)
    requires Segmenter(graphemes) && i < |segment.text| && !White(segment.text[i])
    ensures n < |Pieces(segment, graphemes, s)| && Covers(segment, Pieces(segment, graphemes, s)[n], i)
  {
    var pieces := Pieces(segment, graphemes, s);
    var piece := PiecesCover(segment, graphemes, s, i);
    n :| 0 <= n < |pieces| && pieces[n] == piece;
  }

  lemma NumberedCover(document: Document, segments: seq<Segment>, graphemes: Units -> seq<nat>, s: Settings,
                      chunks: seq<Candidate>, j: nat, i: nat)
    requires Segmenter(graphemes) && Numbered(document, AllPieces(segments, graphemes, s), chunks)
    requires j < |segments| && i < |segments[j].text| && !White(segments[j].text[i])
    ensures Chunked(segments[j], chunks, i)
  {
    var n := CoveringPiece(segments[j], graphemes, s, i);
    var k := AllPiecesHave(segments, graphemes, s, j, n);
    CoversContains(segments[j], Pieces(segments[j], graphemes, s)[n], chunks[k], i);
  }

  lemma NumberedIsExact(document: Document, segments: seq<Segment>, graphemes: Units -> seq<nat>, s: Settings,
                        chunks: seq<Candidate>)
    requires Segmenter(graphemes) && Numbered(document, AllPieces(segments, graphemes, s), chunks)
    ensures forall i :: 0 <= i < |chunks| ==> ChunkOfSome(document, segments, chunks[i], i)
    ensures forall j, i :: 0 <= j < |segments| && 0 <= i < |segments[j].text| && !White(segments[j].text[i]) ==>
              Chunked(segments[j], chunks, i)
  {
    forall i | 0 <= i < |chunks| ensures ChunkOfSome(document, segments, chunks[i], i) {
      NumberedAreSlices(document, segments, graphemes, s, chunks, i);
    }
    forall j, i | 0 <= j < |segments| && 0 <= i < |segments[j].text| && !White(segments[j].text[i])
      ensures Chunked(segments[j], chunks, i)
    {
      NumberedCover(document, segments, graphemes, s, chunks, j, i);
    }
  }

  /**
   All pieces of all segments, numbered in order; or the limit error exactly when there are too many.  Each chunk is the
   slice that its locator names, and every visible character of every segment lies in one.
   */
  method Chunk(document: Document, segments: seq<Segment>, graphemes: Units -> seq<nat>, s: Settings)
      returns (r: Option<seq<Candidate>>)
    requires Segmenter(graphemes)
    ensures r.Some? <==>
              && |AllPieces(segments, graphemes, s)| <= s.maxChunks
              && Total(AllPieces(segments, graphemes, s)) <= s.maxTotal
    ensures r.Some? ==> Numbered(document, AllPieces(segments, graphemes, s), r.value)
    ensures r.Some? ==> forall i :: 0 <= i < |r.value| ==> ChunkOfSome(document, segments, r.value[i], i)
    ensures r.Some? ==>
              forall j, i :: 0 <= j < |segments| && 0 <= i < |segments[j].text| && !White(segments[j].text[i]) ==>
                Chunked(segments[j], r.value, i)
  {
    var chunks, totalChars: nat := [], 0;
    for i := 0 to |segments|
      invariant Numbered(document, AllPieces(segments[..i], graphemes, s), chunks)
      invariant totalChars == Total(AllPieces(segments[..i], graphemes, s))
      invariant WithinLimits(AllPieces(segments[..i], graphemes, s), s)
    {
      var parts := SplitSegment(segments[i], graphemes, s);
      ghost var done := AllPieces(segments[..i], graphemes, s);
      AllPiecesStep(segments, i, graphemes, s);
      var limited;
      chunks, totalChars, limited := AppendParts(document, parts, chunks, totalChars, s, done);
      if limited {
        AllPiecesPrefix(segments, i + 1, graphemes, s);
        LimitsArePrefixClosed(done + parts, AllPieces(segments, graphemes, s), s);
        return None;
      }
    }
    assert segments[..|segments|] == segments;
    NumberedIsExact(document, segments, graphemes, s, chunks);
    r := Some(chunks);
  }

  lemma LimitsArePrefixClosed(part: seq<Piece>, whole: seq<Piece>, s: Settings)
    requires part <= whole && !WithinLimits(part, s)
    ensures !WithinLimits(whole, s)
  {
    if WithinLimits(whole, s) {
      assert whole[..|part|] == part;
      PrefixWithinLimits(whole, |part|, s);
    }
  }
}
