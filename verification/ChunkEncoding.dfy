/** Which chunks of the worker are well-formed UTF-8: the chunker cuts at byte offsets. */
module ChunkEncoding {
  import opened Domain
  import opened GoChunker
  import opened Utf8

  lemma FrontSpaceIsChar(s: Text)
    requires FrontSpace(s) > 0
    ensures CharLength(s) == FrontSpace(s)
  {
  }

  lemma BackSpaceIsChar(s: Text)
    requires BackSpace(s) > 0
    ensures Valid(s[|s| - BackSpace(s)..]) && !ContAt(s, |s| - BackSpace(s))
  {
    var t := s[|s| - BackSpace(s)..];
    assert CharLength(t) == |t| && t[|t|..] == [];
  }

  lemma SuffixOfSuffix(s: Text, n: nat, m: nat)
    requires n + m <= |s|
    ensures s[n..][m..] == s[n + m..]
  {
  }

  lemma {:induction false} LeadKeepsValidity(s: Text)
    ensures Valid(s[Lead(s)..]) <==> Valid(s)
    decreases |s|
  {
    var k := FrontSpace(s);
    if k == 0 {
      assert s[0..] == s;
    } else {
      FrontSpaceIsChar(s);
      LeadKeepsValidity(s[k..]);
      SuffixOfSuffix(s, k, Lead(s[k..]));
    }
  }

  lemma TrailStep(s: Text)
    requires BackSpace(s) > 0
    ensures var t := s[..|s| - BackSpace(s)]; s[..|s| - Trail(s)] == t[..|t| - Trail(t)]
  {
    var t := s[..|s| - BackSpace(s)];
    PrefixOfPrefix(s, |t|, |t| - Trail(t));
  }

  lemma PrefixOfPrefix(s: Text, n: nat, m: nat)
    requires m <= n <= |s|
    ensures s[..n][..m] == s[..m]
  {
  }

  lemma {:induction false} TrailKeepsValidity(s: Text)
    ensures Valid(s[..|s| - Trail(s)]) <==> Valid(s)
    decreases |s|
  {
    if BackSpace(s) == 0 {
      assert s[..|s|] == s;
    } else {
      BackSpaceIsChar(s);
      ValidByParts(s, |s| - BackSpace(s));
      TrailStep(s);
      TrailKeepsValidity(s[..|s| - BackSpace(s)]);
    }
  }

  /** Trimming white space neither breaks nor mends a text. */
  lemma TrimKeepsValidity(s: Text)
    ensures Valid(Trim(s)) <==> Valid(s)
  {
    LeadKeepsValidity(s);
    TrailKeepsValidity(s[Lead(s)..]);
  }

  /** Neither end of the window falls inside a character. */
  predicate Aligned(text: Text, w: Window) {
    !ContAt(text, w.start) && !ContAt(text, w.end)
  }

  lemma StartsInside(s: Text)
    requires ContAt(s, 0)
    ensures !Valid(s)
  {
  }

  /** A cut leaves a valid prefix exactly when it cuts no character. */
  lemma PrefixValidIff(s: Text, n: nat)
    requires Valid(s) && n <= |s|
    ensures Valid(s[..n]) <==> !ContAt(s, n)
  {
    if ContAt(s, n) {
      CutIsInvalid(s, n);
    } else {
      SplitValid(s, n);
    }
  }

  lemma WindowOfSuffix(s: Text, n: nat, m: nat)
    requires n <= m <= |s|
    ensures s[n..][..m - n] == s[n..m]
    ensures ContAt(s[n..], m - n) == ContAt(s, m)
  {
  }

  lemma ValidFromStart(s: Text, n: nat, m: nat)
    requires n <= m <= |s| && Valid(s[n..])
    ensures Valid(s[n..m]) <==> !ContAt(s, m)
  {
    PrefixValidIff(s[n..], m - n);
    WindowOfSuffix(s, n, m);
  }

  lemma WindowValidIff(text: Text, w: Window)
    requires Valid(text) && w.start < w.end <= |text|
    ensures Valid(text[w.start..w.end]) <==> Aligned(text, w)
  {
    if ContAt(text, w.start) {
      StartsInside(text[w.start..w.end]);
    } else {
      SplitValid(text, w.start);
      ValidFromStart(text, w.start, w.end);
    }
  }

  /** A piece of a valid segment is valid exactly when its window cuts no character. */
  lemma PieceValidIff(segment: Segment, w: Window)
    requires Valid(segment.text) && w.start < w.end <= |Trim(segment.text)|
    ensures Valid(PieceOf(BodyOf(segment), w).text) <==> Aligned(Trim(segment.text), w)
  {
    TrimKeepsValidity(segment.text);
    WindowValidIff(Trim(segment.text), w);
    TrimKeepsValidity(Trim(segment.text)[w.start..w.end]);
  }

  /** All pieces of a valid segment are valid exactly when none of its windows cuts a character. */
  lemma SegmentValidIff(segment: Segment)
    requires Valid(segment.text)
    ensures (forall i :: 0 <= i < |PiecesFrom(BodyOf(segment), 0)| ==>
                           Valid(PiecesFrom(BodyOf(segment), 0)[i].text)) <==>
            (forall w :: w in Windows(Trim(segment.text), 0) ==> Aligned(Trim(segment.text), w))
  {
    var pieces, ws := PiecesFrom(BodyOf(segment), 0), Windows(Trim(segment.text), 0);
    if forall i :: 0 <= i < |pieces| ==> Valid(pieces[i].text) {
      forall w | w in ws ensures Aligned(Trim(segment.text), w) {
        WindowHasPiece(BodyOf(segment), 0, w);
        PieceValidIff(segment, w);
        if PieceOf(BodyOf(segment), w).text != [] {
          var i :| 0 <= i < |pieces| && pieces[i] == PieceOf(BodyOf(segment), w);
        }
      }
    } else if forall w :: w in ws ==> Aligned(Trim(segment.text), w) {
      forall i | 0 <= i < |pieces| ensures Valid(pieces[i].text) {
        var w := PieceHasWindow(BodyOf(segment), 0, i);
        PieceValidIff(segment, w);
      }
    }
  }

  // ---- a text that is cut inside a character ----

  /** An a, then n times an e with an acute accent. */
  function Accented(n: nat): (s: Text)
    ensures |s| == 2 * n + 1 && s[0] == 0x61
    ensures forall i :: 1 <= i < |s| ==> s[i] == if i % 2 == 1 then 0xC3 else 0xA9
  {
    if n == 0 then [0x61] else Accented(n - 1) + [0xC3, 0xA9]
  }

  lemma {:induction false} AccentedIsValid(n: nat)
    ensures Valid(Accented(n))
    decreases n
  {
    if n == 0 {
      assert [0x61][1..] == [];
    } else {
      AccentedIsValid(n - 1);
      assert [0xC3, 0xA9][2..] == [];
      JoinValid(Accented(n - 1), [0xC3, 0xA9]);
    }
  }

  lemma AccentedIsTrimmed(n: nat)
    requires n > 0
    ensures Trim(Accented(n)) == Accented(n)
  {
    var s := Accented(n);
    assert FrontSpace(s) == 0 && s[0..] == s;
    assert BackSpace(s) == 0 && s[..|s|] == s;
  }

  /** From 750 such letters on, the first window ends inside one, at byte 1500. */
  lemma AccentedIsCut(n: nat)
    requires n >= 750
    ensures var segment := TextSegment(Accented(n));
            && Valid(segment.text)
            && AllPieces([segment]) != []
            && !Valid(AllPieces([segment])[0].text)
  {
    var s := Accented(n);
    var segment := TextSegment(s);
    AccentedIsValid(n);
    AccentedIsTrimmed(n);
    FirstWindowOf(n);
    PieceValidIff(segment, Window(0, 1500));
    PiecesOfOneSegment(segment);
    FirstPiece(BodyOf(segment));
  }

  lemma FirstWindowOf(n: nat)
    requires n >= 750
    ensures WindowEnd(Accented(n), 0) == 1500 && ContAt(Accented(n), 1500)
  {
    assert FirstBreak(Accented(n), 1200, 1500) == None;
  }

  lemma FirstPiece(body: Body)
    requires body.text != []
    ensures var piece := PieceOf(body, Window(0, WindowEnd(body.text, 0)));
            piece.text != [] ==> PiecesFrom(body, 0) != [] && PiecesFrom(body, 0)[0] == piece
  {
    PiecesStep(body, 0);
  }
}
