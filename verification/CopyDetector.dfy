/** The copied-sequence detector (app/src/modules/ai/quiz-generation-output.source-validation.ts). */
module CopyDetector {
  import opened Domain

  const MIN_TOKENS: nat := 6
  const MIN_CHARS: nat := 30
  const MAX_TOKENS: nat := 30
  const SEPARATOR: char := '\U{0001}'

  type Token = string

  // ---- tokens ----

  /** The input normalisation and the Unicode classes of the token pattern; neither class has the key separator. */
  datatype Classes = Classes(normalize: string -> string, letter: char -> bool, number: char -> bool)

  ghost predicate Proper(c: Classes) {
    !c.letter(SEPARATOR) && !c.number(SEPARATOR)
  }

  predicate InWord(c: Classes, ch: char) {
    c.letter(ch) || c.number(ch) || ch == '_' || ch == '-'
  }

  function WordEnd(c: Classes, text: string, start: nat): (end: nat)
    requires start <= |text|
    ensures start <= end <= |text|
    ensures forall i :: start <= i < end ==> InWord(c, text[i])
    ensures end < |text| ==> !InWord(c, text[end])
    decreases |text| - start
  {
    if start < |text| && InWord(c, text[start]) then WordEnd(c, text, start + 1) else start
  }

  /** All matches of a letter followed by letters, numbers, '_' and '-', each as long as possible. */
  function Tokens(c: Classes, text: string, start: nat): seq<Token>
    requires start <= |text|
    decreases |text| - start
  {
    if start == |text| then []
    else if c.letter(text[start]) then
      var end := WordEnd(c, text, start);
      [text[start..end]] + Tokens(c, text, end)
    else Tokens(c, text, start + 1)
  }

  function TokenizeWords(c: Classes, text: string): seq<Token> {
    Tokens(c, c.normalize(text), 0)
  }

  datatype Span = Span(start: nat, end: nat)

  /** One match of the token pattern: a letter, then as many letters, numbers, '_' and '-' as there are. */
  ghost predicate Match(c: Classes, text: string, s: Span) {
    && s.start < s.end <= |text|
    && c.letter(text[s.start])
    && (forall p :: s.start <= p < s.end ==>
          c.letter(text[p]) || c.number(text[p]) || text[p] == '_' || text[p] == '-')
    && (s.end < |text| ==>
          !c.letter(text[s.end]) && !c.number(text[s.end]) && text[s.end] != '_' && text[s.end] != '-')
  }

  /** Successive matches, which leave no letter out. */
  ghost predicate AllMatches(c: Classes, text: string, start: nat, spans: seq<Span>) {
    && (forall i :: 0 <= i < |spans| ==> start <= spans[i].start && Match(c, text, spans[i]))
    && (forall i, j :: 0 <= i < j < |spans| ==> spans[i].end <= spans[j].start)
    && (forall p :: start <= p < |text| && c.letter(text[p]) ==> InSomeSpan(spans, p))
  }

  ghost predicate InSomeSpan(spans: seq<Span>, p: nat) {
    exists i :: 0 <= i < |spans| && spans[i].start <= p < spans[i].end
  }

  lemma LaterSpan(first: seq<Span>, rest: seq<Span>, p: nat)
    requires InSomeSpan(rest, p)
    ensures InSomeSpan(first + rest, p)
  {
    var i :| 0 <= i < |rest| && rest[i].start <= p < rest[i].end;
    assert (first + rest)[|first| + i] == rest[i];
  }

  lemma SpanAt(s: Span, rest: seq<Span>, i: nat)
    requires i <= |rest|
    ensures ([s] + rest)[i] == if i == 0 then s else rest[i - 1]
  {
  }

  lemma SpansMatch(c: Classes, text: string, start: nat, s: Span, rest: seq<Span>)
    requires start <= s.start && Match(c, text, s) && AllMatches(c, text, s.end, rest)
    ensures forall i :: 0 <= i < |[s] + rest| ==> start <= ([s] + rest)[i].start && Match(c, text, ([s] + rest)[i])
  {
    forall i | 0 <= i < |[s] + rest| ensures start <= ([s] + rest)[i].start && Match(c, text, ([s] + rest)[i]) {
      SpanAt(s, rest, i);
    }
  }

  lemma SpansInOrder(c: Classes, text: string, s: Span, rest: seq<Span>)
    requires AllMatches(c, text, s.end, rest)
    ensures forall i, j :: 0 <= i < j < |[s] + rest| ==> ([s] + rest)[i].end <= ([s] + rest)[j].start
  {
    forall i, j | 0 <= i < j < |[s] + rest| ensures ([s] + rest)[i].end <= ([s] + rest)[j].start {
      SpanAt(s, rest, i);
      SpanAt(s, rest, j);
    }
  }

  lemma MatchesFollow(c: Classes, text: string, start: nat, s: Span, rest: seq<Span>)
    requires start == s.start && Match(c, text, s) && AllMatches(c, text, s.end, rest)
    ensures AllMatches(c, text, start, [s] + rest)
  {
    SpansMatch(c, text, start, s, rest);
    SpansInOrder(c, text, s, rest);
    forall p | start <= p < |text| && c.letter(text[p]) ensures InSomeSpan([s] + rest, p) {
      if p < s.end {
        assert ([s] + rest)[0] == s;
      } else {
        LaterSpan([s], rest, p);
      }
    }
  }

  /** The tokens are exactly the matches of the pattern, in order. */
  lemma {:induction false} TokensAreMatches(c: Classes, text: string, start: nat) returns (spans: seq<Span>)
    requires start <= |text|
    ensures AllMatches(c, text, start, spans) && |spans| == |Tokens(c, text, start)|
    ensures forall i :: 0 <= i < |spans| ==> Tokens(c, text, start)[i] == text[spans[i].start..spans[i].end]
    decreases |text| - start
  {
    if start == |text| {
      spans := [];
    } else if c.letter(text[start]) {
      var s := Span(start, WordEnd(c, text, start));
      var rest := TokensAreMatches(c, text, s.end);
      MatchesFollow(c, text, start, s, rest);
      spans := [s] + rest;
    } else {
      spans := TokensAreMatches(c, text, start + 1);
    }
  }

  /** Tokens are non-empty and free of the separator. */
  predicate Clean(token: Token) {
    token != [] && forall i :: 0 <= i < |token| ==> token[i] != SEPARATOR
  }

  lemma {:induction false} TokensAreClean(c: Classes, text: string, start: nat)
    requires Proper(c) && start <= |text|
    ensures forall t :: t in Tokens(c, text, start) ==> Clean(t)
    decreases |text| - start
  {
    if start < |text| {
      if c.letter(text[start]) {
        var end := WordEnd(c, text, start);
        TokensAreClean(c, text, end);
        assert Clean(text[start..end]);
      } else {
        TokensAreClean(c, text, start + 1);
      }
    }
  }

  /** The ENGLISH_LIKE pattern: an ASCII letter, then ASCII letters, digits, '_' and '-'. */
  predicate English(token: Token) {
    && token != []
    && AsciiLetter(token[0])
    && forall i :: 0 <= i < |token| ==>
         AsciiLetter(token[i]) || '0' <= token[i] <= '9' || token[i] == '_' || token[i] == '-'
  }

  predicate AsciiLetter(ch: char) { 'A' <= ch <= 'Z' || 'a' <= ch <= 'z' }

  /** The same by code points: a letter first, then letters, digits, '_' and '-'. */
  lemma EnglishIff(token: Token)
    ensures English(token) <==>
              && |token| >= 1
              && (65 <= token[0] as int <= 90 || 97 <= token[0] as int <= 122)
              && forall i :: 0 <= i < |token| ==>
                   var u := token[i] as int;
                   65 <= u <= 90 || 97 <= u <= 122 || 48 <= u <= 57 || u == 95 || u == 45
  {
  }

  // ---- windows ----

  function Chars(tokens: seq<Token>, start: nat, n: nat): nat
    requires start + n <= |tokens|
  {
    if n == 0 then 0 else Chars(tokens, start, n - 1) + |tokens[start + n - 1]|
  }

  /** A run of n tokens from start that is long enough to count as copied prose. */
  ghost predicate Qualifies(tokens: seq<Token>, start: nat, n: nat) {
    && n >= 6
    && start + n <= |tokens|
    && (forall k :: start <= k < start + n ==> English(tokens[k]))
    && Chars(tokens, start, n) >= 30
  }

  ghost predicate Shortest(tokens: seq<Token>, start: nat, n: nat) {
    Qualifies(tokens, start, n) && forall m: nat :: m < n ==> !Qualifies(tokens, start, m)
  }

  lemma {:induction false} CharsAtLeastTokens(tokens: seq<Token>, start: nat, n: nat)
    requires start + n <= |tokens| && forall k :: start <= k < start + n ==> English(tokens[k])
    ensures Chars(tokens, start, n) >= n
    decreases n
  {
    if n > 0 {
      CharsAtLeastTokens(tokens, start, n - 1);
    }
  }

  /** The two texts agree for n tokens. */
  ghost predicate Common(a: seq<Token>, i: nat, b: seq<Token>, j: nat, n: nat) {
    i + n <= |a| && j + n <= |b| && a[i..i + n] == b[j..j + n]
  }

  lemma ShorterCommon(a: seq<Token>, i: nat, b: seq<Token>, j: nat, n: nat, m: nat)
    requires Common(a, i, b, j, n) && m <= n
    ensures Common(a, i, b, j, m)
  {
    assert a[i..i + m] == a[i..i + n][..m] && b[j..j + m] == b[j..j + n][..m];
  }

  lemma {:induction false} CharsAgree(a: seq<Token>, i: nat, b: seq<Token>, j: nat, n: nat)
    requires Common(a, i, b, j, n)
    ensures Chars(a, i, n) == Chars(b, j, n)
    decreases n
  {
    if n > 0 {
      ShorterCommon(a, i, b, j, n, n - 1);
      CharsAgree(a, i, b, j, n - 1);
      assert a[i..i + n][n - 1] == a[i + n - 1] && b[j..j + n][n - 1] == b[j + n - 1];
    }
  }

  /** Each token has a character, so 30 of them are always enough. */
  lemma ThirtyTokensQualify(tokens: seq<Token>, start: nat)
    requires start + MAX_TOKENS <= |tokens| && forall k :: start <= k < start + MAX_TOKENS ==> English(tokens[k])
    ensures Qualifies(tokens, start, MAX_TOKENS)
  {
    CharsAtLeastTokens(tokens, start, MAX_TOKENS);
  }

  /** The loop stops at 30 tokens and loses nothing: no longer run can be the first to qualify. */
  method FindShortestQualifyingLength(tokens: seq<Token>, start: nat) returns (r: Option<nat>)
    requires start <= |tokens|
    ensures r.Some? ==> Shortest(tokens, start, r.value)
    ensures r.None? ==> forall n: nat :: !Qualifies(tokens, start, n)
  {
    var characterCount := 0;
    var maximumLength := if MAX_TOKENS < |tokens| - start then MAX_TOKENS else |tokens| - start;
    for offset := 0 to maximumLength
      invariant characterCount == Chars(tokens, start, offset)
      invariant forall k :: start <= k < start + offset ==> English(tokens[k])
      invariant forall n: nat :: n <= offset ==> !Qualifies(tokens, start, n)
    {
      if !English(tokens[start + offset]) {
        assert forall n: nat :: n > offset && Qualifies(tokens, start, n) ==> English(tokens[start + offset]);
        return None;
      }
      characterCount := characterCount + |tokens[start + offset]|;
      if offset + 1 >= MIN_TOKENS && characterCount >= MIN_CHARS {
        return Some(offset + 1);
      }
    }
    if maximumLength == MAX_TOKENS {
      ThirtyTokensQualify(tokens, start);
    }
    r := None;
  }

  /** token values joined with U+0001 */
  function Key(tokens: seq<Token>): string {
    if tokens == [] then []
    else if |tokens| == 1 then tokens[0]
    else tokens[0] + [SEPARATOR] + Key(tokens[1..])
  }

  lemma SplitNotLater(a: Token, b: Token, x: string, y: string)
    requires Clean(b) && a + [SEPARATOR] + x == b + [SEPARATOR] + y
    ensures |a| >= |b|
  {
    assert forall i :: 0 <= i < |b| ==> (b + [SEPARATOR] + y)[i] == b[i];
    assert (a + [SEPARATOR] + x)[|a|] == SEPARATOR;
  }

  lemma SplitUnique(a: Token, b: Token, x: string, y: string)
    requires Clean(a) && Clean(b) && a + [SEPARATOR] + x == b + [SEPARATOR] + y
    ensures a == b && x == y
  {
    SplitNotLater(a, b, x, y);
    SplitNotLater(b, a, y, x);
    var s, t := a + [SEPARATOR] + x, b + [SEPARATOR] + y;
    assert a == s[..|a|] && b == t[..|b|];
    assert x == s[|a| + 1..] && y == t[|b| + 1..];
  }

  lemma CleanHasNoSeparator(a: Token, b: Token, y: string)
    requires Clean(a)
    ensures a != b + [SEPARATOR] + y
  {
    assert (b + [SEPARATOR] + y)[|b|] == SEPARATOR;
  }

  /** The key is injective on windows of clean tokens. */
  lemma {:induction false} KeyInjective(a: seq<Token>, b: seq<Token>)
    requires a != [] && b != [] && (forall t :: t in a ==> Clean(t)) && (forall t :: t in b ==> Clean(t))
    requires Key(a) == Key(b)
    ensures a == b
    decreases |a|
  {
    assert a[0] in a && b[0] in b;
    if |a| > 1 && |b| > 1 {
      SplitUnique(a[0], b[0], Key(a[1..]), Key(b[1..]));
      KeyInjective(a[1..], b[1..]);
      assert a == [a[0]] + a[1..] && b == [b[0]] + b[1..];
    } else if |a| > 1 {
      CleanHasNoSeparator(b[0], a[0], Key(a[1..]));
    } else if |b| > 1 {
      CleanHasNoSeparator(a[0], b[0], Key(b[1..]));
    }
  }

  // ---- the detector ----

  /** Source and text share a contiguous run of English-like tokens: at least 6 tokens and 30 characters, any length. */
  ghost predicate SharesRun(source: seq<Token>, text: seq<Token>) {
    exists i: nat, j: nat, n: nat :: Common(source, i, text, j, n) && Qualifies(text, j, n)
  }

  /** The keys of the shortest qualifying windows that start before `limit`. */
  ghost predicate WindowKeys(tokens: seq<Token>, limit: nat, keys: set<string>) {
    && (forall key :: key in keys ==> exists i: nat, n: nat :: i < limit && HasKey(tokens, i, n, key))
    && (forall i: nat, n: nat :: i < limit && Shortest(tokens, i, n) ==> Key(tokens[i..i + n]) in keys)
  }

  ghost predicate HasKey(tokens: seq<Token>, i: nat, n: nat, key: string) {
    Shortest(tokens, i, n) && key == Key(tokens[i..i + n])
  }

  lemma ShortestUnique(tokens: seq<Token>, start: nat, m: nat, n: nat)
    requires Shortest(tokens, start, m) && Shortest(tokens, start, n)
    ensures m == n
  {
  }

  /** What the start `start` adds to the set. */
  lemma WindowKeysGrow(tokens: seq<Token>, start: nat, keys: set<string>, length: Option<nat>)
    requires WindowKeys(tokens, start, keys)
    requires length.Some? ==> Shortest(tokens, start, length.value)
    requires length.None? ==> forall n: nat :: !Qualifies(tokens, start, n)
    ensures WindowKeys(tokens, start + 1,
                       if length.Some? then keys + {Key(tokens[start..start + length.value])} else keys)
  {
    if length.Some? {
      assert HasKey(tokens, start, length.value, Key(tokens[start..start + length.value]));
      forall n: nat | Shortest(tokens, start, n) ensures n == length.value {
        ShortestUnique(tokens, start, n, length.value);
      }
    }
  }

  method CreateShortestQualifyingWindowSet(tokens: seq<Token>) returns (windows: set<string>)
    ensures WindowKeys(tokens, |tokens|, windows)
  {
    windows := {};
    var start := 0;
    while start + MIN_TOKENS <= |tokens|
      invariant start <= |tokens|
      invariant WindowKeys(tokens, start, windows)
    {
      var length := FindShortestQualifyingLength(tokens, start);
      WindowKeysGrow(tokens, start, windows, length);
      if length.Some? {
        windows := windows + {Key(tokens[start..start + length.value])};
      }
      start := start + 1;
    }
    assert forall i: nat, n: nat :: i >= start ==> !Qualifies(tokens, i, n);
  }

  lemma {:induction false} ShortestWithin(tokens: seq<Token>, start: nat, n: nat) returns (m: nat)
    requires Qualifies(tokens, start, n)
    ensures m <= n && Shortest(tokens, start, m)
    decreases n
  {
    if k: nat :| k < n && Qualifies(tokens, start, k) {
      m := ShortestWithin(tokens, start, k);
    } else {
      m := n;
    }
  }

  /** Qualifying depends only on the tokens of the window. */
  lemma QualifiesAgree(a: seq<Token>, i: nat, b: seq<Token>, j: nat, n: nat)
    requires Common(a, i, b, j, n)
    ensures Qualifies(a, i, n) == Qualifies(b, j, n)
  {
    CharsAgree(a, i, b, j, n);
    assert forall k :: i <= k < i + n ==> a[k] == a[i..i + n][k - i] == b[j..j + n][k - i] == b[k - i + j];
    assert forall k :: j <= k < j + n ==> b[k] == b[j..j + n][k - j] == a[i..i + n][k - j] == a[k - j + i];
  }

  /** Equal windows have the same shortest qualifying prefix. */
  lemma ShortestAgree(a: seq<Token>, i: nat, b: seq<Token>, j: nat, n: nat)
    requires Common(a, i, b, j, n) && Shortest(b, j, n)
    ensures Shortest(a, i, n)
  {
    QualifiesAgree(a, i, b, j, n);
    forall m: nat | m < n ensures !Qualifies(a, i, m) {
      ShorterCommon(a, i, b, j, n, m);
      QualifiesAgree(a, i, b, j, m);
    }
  }

  /** A shared run exists exactly when some shortest qualifying window of the text has a key in the source's set. */
  lemma SharedRunMeetsKey(source: seq<Token>, text: seq<Token>, windows: set<string>)
    requires WindowKeys(source, |source|, windows)
    requires (forall t :: t in source ==> Clean(t)) && (forall t :: t in text ==> Clean(t))
    ensures SharesRun(source, text) <==> exists j: nat, n: nat :: Shortest(text, j, n) && Key(text[j..j + n]) in windows
  {
    if SharesRun(source, text) {
      var i: nat, j: nat, n: nat :| Common(source, i, text, j, n) && Qualifies(text, j, n);
      SharedRunHasKey(source, i, text, j, n, windows);
    }
    if j: nat, n: nat :| Shortest(text, j, n) && Key(text[j..j + n]) in windows {
      KeyHasSharedRun(source, text, j, n, windows);
    }
  }

  lemma SharedRunHasKey(source: seq<Token>, i: nat, text: seq<Token>, j: nat, n: nat, windows: set<string>)
    requires WindowKeys(source, |source|, windows)
    requires Common(source, i, text, j, n) && Qualifies(text, j, n)
    ensures exists j: nat, n: nat :: Shortest(text, j, n) && Key(text[j..j + n]) in windows
  {
    var m := ShortestWithin(text, j, n);
    ShorterCommon(source, i, text, j, n, m);
    ShortestAgree(source, i, text, j, m);
    assert Key(source[i..i + m]) in windows;
  }

  lemma KeyHasSharedRun(source: seq<Token>, text: seq<Token>, j: nat, n: nat, windows: set<string>)
    requires WindowKeys(source, |source|, windows)
    requires (forall t :: t in source ==> Clean(t)) && (forall t :: t in text ==> Clean(t))
    requires Shortest(text, j, n) && Key(text[j..j + n]) in windows
    ensures SharesRun(source, text)
  {
    var i: nat, m: nat :| i < |source| && HasKey(source, i, m, Key(text[j..j + n]));
    KeyInjective(text[j..j + n], source[i..i + m]);
    assert |text[j..j + n]| == n && |source[i..i + m]| == m;
    assert Common(source, i, text, j, n);
  }

  method RejectIfCopied(text: seq<Token>, windows: set<string>) returns (rejected: bool)
    ensures rejected <==> exists j: nat, n: nat :: Shortest(text, j, n) && Key(text[j..j + n]) in windows
  {
    var start := 0;
    while start + MIN_TOKENS <= |text|
      invariant start <= |text|
      invariant forall j: nat, n: nat :: j < start && Shortest(text, j, n) ==> Key(text[j..j + n]) !in windows
    {
      var length := FindShortestQualifyingLength(text, start);
      if length.Some? {
        if Key(text[start..start + length.value]) in windows {
          return true;
        }
        forall n: nat | Shortest(text, start, n) ensures n == length.value {
          ShortestUnique(text, start, n, length.value);
        }
      }
      start := start + 1;
    }
    assert forall j: nat, n: nat :: j >= start ==> !Qualifies(text, j, n);
    rejected := false;
  }

  datatype Generated = Generated(stem: string, explanation: string, options: seq<string>)

  /** The learner-facing texts of a generated question, in the order they are checked. */
  function TextsOf(question: Generated): seq<string> {
    [question.stem, question.explanation] + question.options
  }

  ghost predicate Copies(c: Classes, sourceText: string, text: string) {
    SharesRun(Tokens(c, c.normalize(sourceText), 0), Tokens(c, c.normalize(text), 0))
  }

  ghost predicate SomeCopied(c: Classes, sourceText: string, texts: seq<string>) {
    exists k :: 0 <= k < |texts| && Copies(c, sourceText, texts[k])
  }

  /** The stem, the explanation or the content of an option is copied. */
  ghost predicate CopiedAnywhere(c: Classes, sourceText: string, question: Generated) {
    || Copies(c, sourceText, question.stem)
    || Copies(c, sourceText, question.explanation)
    || exists o :: 0 <= o < |question.options| && Copies(c, sourceText, question.options[o])
  }

  lemma AnywhereIff(c: Classes, sourceText: string, question: Generated)
    ensures CopiedAnywhere(c, sourceText, question) <==> SomeCopied(c, sourceText, TextsOf(question))
  {
    var texts := TextsOf(question);
    assert texts[0] == question.stem && texts[1] == question.explanation;
    assert forall o :: 0 <= o < |question.options| ==> texts[o + 2] == question.options[o];
    if k :| 0 <= k < |texts| && Copies(c, sourceText, texts[k]) {
      assert k >= 2 ==> texts[k] == question.options[k - 2];
    }
  }

  ghost predicate SourceKeys(c: Classes, sourceText: string, windows: set<string>) {
    WindowKeys(TokenizeWords(c, sourceText), |TokenizeWords(c, sourceText)|, windows)
  }

  method CheckText(c: Classes, ghost sourceText: string, text: string, windows: set<string>) returns (rejected: bool)
    requires Proper(c) && SourceKeys(c, sourceText, windows)
    ensures rejected <==> Copies(c, sourceText, text)
  {
    TokensAreClean(c, c.normalize(sourceText), 0);
    TokensAreClean(c, c.normalize(text), 0);
    SharedRunMeetsKey(TokenizeWords(c, sourceText), TokenizeWords(c, text), windows);
    rejected := RejectIfCopied(TokenizeWords(c, text), windows);
  }

  method CheckQuestion(c: Classes, ghost sourceText: string, question: Generated, windows: set<string>)
      returns (rejected: bool)
    requires Proper(c) && SourceKeys(c, sourceText, windows)
    ensures rejected <==> CopiedAnywhere(c, sourceText, question)
  {
    var texts := TextsOf(question);
    AnywhereIff(c, sourceText, question);
    for i := 0 to |texts|
      invariant forall k :: 0 <= k < i ==> !Copies(c, sourceText, texts[k])
    {
      var copied := CheckText(c, sourceText, texts[i], windows);
      if copied {
        return true;
      }
    }
    rejected := false;
  }

  /**
   Rejects the output exactly when one of its stems, explanations or option contents shares a qualifying run
   with the source.
   */
  method ValidateAgainstSource(c: Classes, sourceText: string, questions: seq<Generated>) returns (rejected: bool)
    requires Proper(c)
    ensures rejected <==> exists q :: 0 <= q < |questions| && CopiedAnywhere(c, sourceText, questions[q])
  {
    var source := TokenizeWords(c, sourceText);
    if |source| < MIN_TOKENS {
      assert forall text: string :: !Copies(c, sourceText, text);
      return false;
    }
    var windows := CreateShortestQualifyingWindowSet(source);
    for i := 0 to |questions|
      invariant forall q :: 0 <= q < i ==> !CopiedAnywhere(c, sourceText, questions[q])
    {
      var copied := CheckQuestion(c, sourceText, questions[i], windows);
      if copied {
        return true;
      }
    }
    rejected := false;
  }
}
