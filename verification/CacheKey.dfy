/** The texts hashed into prompt fingerprints and cache keys (app/src/modules/ai/quiz-generation.prompt.ts). */
module CacheKey {
  import opened CodeUnits
  import opened JsonText
  import opened CanonicalJson

  const NEWLINE: Unit := 10
  const RETURN: Unit := 13

  /** "source-text", "prompt-template", "provider-identity" and "parameters", in code units. */
  const SOURCE_TEXT: Units := [0x73, 0x6F, 0x75, 0x72, 0x63, 0x65, 0x2D, 0x74, 0x65, 0x78, 0x74]
  const PROMPT_TEMPLATE: Units :=
    [0x70, 0x72, 0x6F, 0x6D, 0x70, 0x74, 0x2D, 0x74, 0x65, 0x6D, 0x70, 0x6C, 0x61, 0x74, 0x65]
  const PROVIDER_IDENTITY: Units :=
    [0x70, 0x72, 0x6F, 0x76, 0x69, 0x64, 0x65, 0x72, 0x2D, 0x69, 0x64, 0x65, 0x6E, 0x74, 0x69, 0x74, 0x79]
  const PARAMETERS: Units := [0x70, 0x61, 0x72, 0x61, 0x6D, 0x65, 0x74, 0x65, 0x72, 0x73]

  function Join(lines: seq<Units>): Units
    requires lines != []
  {
    if |lines| == 1 then lines[0] else Join(lines[..|lines| - 1]) + [NEWLINE] + lines[|lines| - 1]
  }

  datatype Prompt = Prompt(template: Units, identity: Units, params: Json)

  /** What createPromptFingerprint hashes. */
  function FingerprintText(p: Prompt): Units {
    Join([PROMPT_TEMPLATE, p.template, PROVIDER_IDENTITY, p.identity, PARAMETERS, Canonicalize(p.params)])
  }

  /** What createGenerationCacheKey hashes, from the normalised source. */
  function CacheKeyText(source: Units, p: Prompt): Units {
    Join([SOURCE_TEXT, source, PROMPT_TEMPLATE, p.template, PROVIDER_IDENTITY, p.identity, PARAMETERS,
          Canonicalize(p.params)])
  }

  /** normalizeGenerationInput; `nfc` is Unicode normalisation. */
  function Normalize(nfc: Units -> Units, s: Units): Units { UnifyNewlines(nfc(s)) }

  /** Every CR LF and every CR becomes LF. */
  function UnifyNewlines(s: Units): (r: Units)
    ensures RETURN !in r
  {
    if s == [] then []
    else if s[0] == RETURN then [NEWLINE] + UnifyNewlines(if |s| > 1 && s[1] == NEWLINE then s[2..] else s[1..])
    else [s[0]] + UnifyNewlines(s[1..])
  }

  lemma {:induction false} UnifiedUnchanged(s: Units)
    ensures UnifyNewlines(s) == s <==> RETURN !in s
    decreases |s|
  {
    if s != [] {
      UnifiedUnchanged(s[1..]);
      assert s == [s[0]] + s[1..];
    }
  }

  /** Text before the first CR is kept; that CR, with an LF behind it, becomes one LF. */
  lemma {:induction false} FirstReturnUnified(before: Units, after: Units)
    requires 13 !in before
    ensures UnifyNewlines(before + [13, 10] + after) == before + [10] + UnifyNewlines(after)
    ensures (after == [] || after[0] != 10) ==>
              UnifyNewlines(before + [13] + after) == before + [10] + UnifyNewlines(after)
    decreases |before|
  {
    var crlf, cr := before + [13, 10] + after, before + [13] + after;
    if before == [] {
      assert crlf[2..] == after && cr[1..] == after;
      assert |cr| > 1 ==> cr[1] == after[0];
    } else {
      FirstReturnUnified(before[1..], after);
      assert crlf[1..] == before[1..] + [13, 10] + after && cr[1..] == before[1..] + [13] + after;
    }
  }

  // ---- splitting off the last line ----

  lemma LaterNewline(a: Units, b: Units, x: Units, y: Units)
    requires a + [NEWLINE] + x == b + [NEWLINE] + y && NEWLINE !in x
    ensures |b| <= |a|
  {
    var t := a + [NEWLINE] + x;
    assert forall i :: |a| < i < |t| ==> t[i] == x[i - |a| - 1];
    assert (b + [NEWLINE] + y)[|b|] == NEWLINE;
  }

  lemma LastLine(a: Units, b: Units, x: Units, y: Units)
    requires a + [NEWLINE] + x == b + [NEWLINE] + y && NEWLINE !in x && NEWLINE !in y
    ensures a == b && x == y
  {
    LaterNewline(a, b, x, y);
    LaterNewline(b, a, y, x);
    var s, t := a + [NEWLINE] + x, b + [NEWLINE] + y;
    assert a == s[..|a|] && b == t[..|b|];
    assert x == s[|a| + 1..] && y == t[|b| + 1..];
  }

  lemma SameHead(a: Units, x: Units, b: Units, y: Units)
    requires a + [NEWLINE] + x == b + [NEWLINE] + y && a == b
    ensures x == y
  {
    var s, t := a + [NEWLINE] + x, b + [NEWLINE] + y;
    assert x == s[|a| + 1..] && y == t[|b| + 1..];
  }

  lemma SameTail(a: Units, x: Units, b: Units, y: Units)
    requires a + [NEWLINE] + x == b + [NEWLINE] + y && x == y
    ensures a == b
  {
    var s, t := a + [NEWLINE] + x, b + [NEWLINE] + y;
    assert a == s[..|a|] && b == t[..|b|];
  }

  /** The lines that name the provider and the parameters, after whatever comes first. */
  function Ending(head: Units, p: Prompt): Units {
    head + [NEWLINE] + PROVIDER_IDENTITY + [NEWLINE] + p.identity + [NEWLINE] + PARAMETERS + [NEWLINE]
    + Canonicalize(p.params)
  }

  /** An identity is a single line; the parameters are a JavaScript value. */
  ghost predicate Wellformed(p: Prompt) {
    NEWLINE !in p.identity && Value(p.params)
  }

  lemma CanonicalIsOneLine(v: Json)
    requires Value(v)
    ensures NEWLINE !in Canonicalize(v)
  {
    OrderedIsCanonical(v);
    TextHasNoControls(Ordered(v));
  }

  lemma EndingDetermines(a: Units, p: Prompt, b: Units, q: Prompt)
    requires Wellformed(p) && Wellformed(q) && Ending(a, p) == Ending(b, q)
    ensures a == b && p.identity == q.identity && Meant(p.params) == Meant(q.params)
  {
    CanonicalIsOneLine(p.params);
    CanonicalIsOneLine(q.params);
    var a1, b1 := a + [NEWLINE] + PROVIDER_IDENTITY, b + [NEWLINE] + PROVIDER_IDENTITY;
    var a2, b2 := a1 + [NEWLINE] + p.identity, b1 + [NEWLINE] + q.identity;
    LastLine(a2 + [NEWLINE] + PARAMETERS, b2 + [NEWLINE] + PARAMETERS, Canonicalize(p.params), Canonicalize(q.params));
    SameTail(a2, PARAMETERS, b2, PARAMETERS);
    LastLine(a1, b1, p.identity, q.identity);
    SameTail(a, PROVIDER_IDENTITY, b, PROVIDER_IDENTITY);
    CanonicalTextIffSameMeaning(p.params, q.params);
  }

  lemma FingerprintShape(p: Prompt)
    ensures FingerprintText(p) == Ending(PROMPT_TEMPLATE + [NEWLINE] + p.template, p)
  {
    JoinSix(PROMPT_TEMPLATE, p.template, PROVIDER_IDENTITY, p.identity, PARAMETERS, Canonicalize(p.params));
  }

  function JoinedWith(head: Units, line: Units): Units { head + [NEWLINE] + line }

  lemma JoinLast(lines: seq<Units>, line: Units)
    requires lines != []
    ensures Join(lines + [line]) == JoinedWith(Join(lines), line)
  {
    assert (lines + [line])[..|lines|] == lines;
  }

  lemma JoinTwo(a: Units, b: Units)
    ensures Join([a, b]) == JoinedWith(a, b)
  {
    assert [a, b] == [a] + [b];
    JoinLast([a], b);
  }

  lemma JoinFour(a: Units, b: Units, c: Units, d: Units)
    ensures Join([a, b, c, d]) == JoinedWith(JoinedWith(JoinedWith(a, b), c), d)
  {
    JoinTwo(a, b);
    assert [a, b, c] == [a, b] + [c] && [a, b, c, d] == [a, b, c] + [d];
    JoinLast([a, b], c);
    JoinLast([a, b, c], d);
  }

  lemma JoinSix(a: Units, b: Units, c: Units, d: Units, e: Units, f: Units)
    ensures Join([a, b, c, d, e, f]) == JoinedWith(JoinedWith(Join([a, b, c, d]), e), f)
    ensures Join([a, b, c, d]) == JoinedWith(JoinedWith(JoinedWith(a, b), c), d)
  {
    JoinFour(a, b, c, d);
    assert [a, b, c, d, e] == [a, b, c, d] + [e] && [a, b, c, d, e, f] == [a, b, c, d, e] + [f];
    JoinLast([a, b, c, d], e);
    JoinLast([a, b, c, d, e], f);
  }

  /** The fingerprint text, written out. */
  lemma FingerprintReads(p: Prompt)
    ensures FingerprintText(p) ==
            Code("prompt-template\n") + p.template + Code("\nprovider-identity\n") + p.identity
            + Code("\nparameters\n") + Canonicalize(p.params)
  {
    FingerprintShape(p);
    TemplateLineReads();
    IdentityLineReads();
    ParametersLineReads();
  }

  lemma TemplateLineReads()
    ensures PROMPT_TEMPLATE + [NEWLINE] == Code("prompt-template\n")
  {
  }

  lemma IdentityLineReads()
    ensures [NEWLINE] + PROVIDER_IDENTITY + [NEWLINE] == Code("\nprovider-identity\n")
  {
  }

  lemma ParametersLineReads()
    ensures [NEWLINE] + PARAMETERS + [NEWLINE] == Code("\nparameters\n")
  {
  }

  /** A fingerprint text determines the template, the identity and what the parameters mean. */
  lemma FingerprintDetermines(p: Prompt, q: Prompt)
    requires Wellformed(p) && Wellformed(q)
    ensures FingerprintText(p) == FingerprintText(q) <==>
              p.template == q.template && p.identity == q.identity && Meant(p.params) == Meant(q.params)
  {
    FingerprintShape(p);
    FingerprintShape(q);
    CanonicalTextIffSameMeaning(p.params, q.params);
    if FingerprintText(p) == FingerprintText(q) {
      EndingDetermines(PROMPT_TEMPLATE + [NEWLINE] + p.template, p, PROMPT_TEMPLATE + [NEWLINE] + q.template, q);
      SameHead(PROMPT_TEMPLATE, p.template, PROMPT_TEMPLATE, q.template);
    }
  }

  /** The first four lines of a cache-key text. */
  function Opening(source: Units, template: Units): Units {
    JoinedWith(JoinedWith(JoinedWith(SOURCE_TEXT, source), PROMPT_TEMPLATE), template)
  }

  lemma CacheKeyShape(source: Units, p: Prompt)
    ensures CacheKeyText(source, p) == Ending(Opening(source, p.template), p)
  {
    var lines := [SOURCE_TEXT, source, PROMPT_TEMPLATE, p.template, PROVIDER_IDENTITY, p.identity];
    JoinSix(SOURCE_TEXT, source, PROMPT_TEMPLATE, p.template, PROVIDER_IDENTITY, p.identity);
    JoinLast(lines, PARAMETERS);
    JoinLast(lines + [PARAMETERS], Canonicalize(p.params));
    assert lines + [PARAMETERS] + [Canonicalize(p.params)] ==
           [SOURCE_TEXT, source, PROMPT_TEMPLATE, p.template, PROVIDER_IDENTITY, p.identity, PARAMETERS,
            Canonicalize(p.params)];
  }

  lemma SourceLineReads()
    ensures SOURCE_TEXT + [NEWLINE] == Code("source-text\n")
  {
  }

  /** The cache-key text is the fingerprint text behind the source. */
  lemma CacheKeyReads(source: Units, p: Prompt)
    ensures CacheKeyText(source, p) == Code("source-text\n") + source + Code("\n") + FingerprintText(p)
  {
    CacheKeyShape(source, p);
    FingerprintShape(p);
    SourceLineReads();
    assert [NEWLINE] == Code("\n");
    OpeningIsConcatenation(source, p.template);
    ShiftEnding(SOURCE_TEXT + [NEWLINE] + source + [NEWLINE], PROMPT_TEMPLATE + [NEWLINE] + p.template, p);
  }

  lemma ShiftEnding(front: Units, head: Units, p: Prompt)
    ensures Ending(front + head, p) == front + Ending(head, p)
  {
  }

  /**
   For one template, a cache-key text determines the normalised source, the identity and what the parameters mean.
   */
  lemma CacheKeyDetermines(nfc: Units -> Units, text: Units, p: Prompt, otherText: Units, q: Prompt)
    requires Wellformed(p) && Wellformed(q) && p.template == q.template
    ensures CacheKeyText(Normalize(nfc, text), p) == CacheKeyText(Normalize(nfc, otherText), q) <==>
              && Normalize(nfc, text) == Normalize(nfc, otherText)
              && p.identity == q.identity && Meant(p.params) == Meant(q.params)
  {
    var source, other := Normalize(nfc, text), Normalize(nfc, otherText);
    CacheKeyShape(source, p);
    CacheKeyShape(other, q);
    CanonicalTextIffSameMeaning(p.params, q.params);
    if CacheKeyText(source, p) == CacheKeyText(other, q) {
      EndingDetermines(Opening(source, p.template), p, Opening(other, q.template), q);
      OpeningDetermines(source, other, p.template);
    }
  }

  lemma OpeningDetermines(source: Units, other: Units, template: Units)
    requires Opening(source, template) == Opening(other, template)
    ensures source == other
  {
    var a, b := JoinedWith(SOURCE_TEXT, source), JoinedWith(SOURCE_TEXT, other);
    SameTail(JoinedWith(a, PROMPT_TEMPLATE), template, JoinedWith(b, PROMPT_TEMPLATE), template);
    SameTail(a, PROMPT_TEMPLATE, b, PROMPT_TEMPLATE);
    SameHead(SOURCE_TEXT, source, SOURCE_TEXT, other);
  }

  const HEADING: Units := [NEWLINE] + PROMPT_TEMPLATE + [NEWLINE]

  lemma OpeningIsConcatenation(source: Units, template: Units)
    ensures Opening(source, template) == SOURCE_TEXT + [NEWLINE] + (source + HEADING + template)
  {
  }

  lemma KeysAgreeIffMiddlesDo(source: Units, p: Prompt, other: Units, q: Prompt)
    requires Wellformed(p) && Wellformed(q)
    ensures CacheKeyText(source, p) == CacheKeyText(other, q) <==>
              && source + HEADING + p.template == other + HEADING + q.template
              && p.identity == q.identity && Meant(p.params) == Meant(q.params)
  {
    CacheKeyShape(source, p);
    CacheKeyShape(other, q);
    CanonicalTextIffSameMeaning(p.params, q.params);
    OpeningIsConcatenation(source, p.template);
    OpeningIsConcatenation(other, q.template);
    if CacheKeyText(source, p) == CacheKeyText(other, q) {
      EndingDetermines(Opening(source, p.template), p, Opening(other, q.template), q);
      SameHead(SOURCE_TEXT, source + HEADING + p.template, SOURCE_TEXT, other + HEADING + q.template);
    }
  }

  // ---- keys of different templates ----

  /** Behind the heading line, the outer template ends like the inner one behind its own heading line. */
  predicate Embeds(inner: Units, outer: Units) {
    |inner| <= |outer| && (HEADING + outer)[|outer| - |inner|..] == HEADING + inner
  }

  /** What the outer template has in front of that. */
  function Surplus(inner: Units, outer: Units): Units
    requires |inner| <= |outer|
  {
    (HEADING + outer)[..|outer| - |inner|]
  }

  lemma MiddlesAgreeIff(source: Units, inner: Units, other: Units, outer: Units)
    requires |inner| <= |outer|
    ensures source + HEADING + inner == other + HEADING + outer <==>
              Embeds(inner, outer) && source == other + Surplus(inner, outer)
  {
    var n, tail := |outer| - |inner|, HEADING + outer;
    assert source + HEADING + inner == source + (HEADING + inner);
    assert other + HEADING + outer == other + tail;
    assert tail == tail[..n] + tail[n..];
    assert other + tail == (other + tail[..n]) + tail[n..];
    SameSplit(source, HEADING + inner, other + tail[..n], tail[n..]);
  }

  lemma SameSplit(a: Units, x: Units, b: Units, y: Units)
    requires |x| == |y|
    ensures a + x == b + y <==> a == b && x == y
  {
    if a + x == b + y {
      assert a == (a + x)[..|a|] && b == (b + y)[..|b|];
      assert x == (a + x)[|a|..] && y == (b + y)[|b|..];
    }
  }

  /**
   For any templates: one embeds the other, the source of the inner one has just the surplus more, and identity
   and parameters agree.
   */
  lemma CacheKeysAgreeIff(source: Units, p: Prompt, other: Units, q: Prompt)
    requires Wellformed(p) && Wellformed(q) && |p.template| <= |q.template|
    ensures CacheKeyText(source, p) == CacheKeyText(other, q) <==>
              && Embeds(p.template, q.template) && source == other + Surplus(p.template, q.template)
              && p.identity == q.identity && Meant(p.params) == Meant(q.params)
  {
    KeysAgreeIffMiddlesDo(source, p, other, q);
    MiddlesAgreeIff(source, p.template, other, q.template);
  }

  /** Normalised sources have no carriage return, so neither may the surplus. */
  predicate Collides(inner: Units, outer: Units) {
    Embeds(inner, outer) && RETURN !in Surplus(inner, outer)
  }

  ghost predicate ShareAKey(p: Prompt, q: Prompt) {
    exists source, other :: RETURN !in source && RETURN !in other && CacheKeyText(source, p) == CacheKeyText(other, q)
  }

  lemma LongerTemplateSharesIff(p: Prompt, q: Prompt)
    requires Wellformed(p) && Wellformed(q) && p.identity == q.identity && Meant(p.params) == Meant(q.params)
    requires |p.template| <= |q.template|
    ensures ShareAKey(p, q) <==> Collides(p.template, q.template)
  {
    if source, other :| RETURN !in source && RETURN !in other && CacheKeyText(source, p) == CacheKeyText(other, q) {
      CacheKeysAgreeIff(source, p, other, q);
    }
    if Collides(p.template, q.template) {
      var surplus := Surplus(p.template, q.template);
      assert surplus == [] + surplus;
      CacheKeysAgreeIff(surplus, p, [], q);
      assert RETURN !in surplus && RETURN !in [];
    }
  }

  /** Two prompts of one identity and meaning can share a key exactly when one template embeds the other. */
  lemma PromptsShareAKeyIff(p: Prompt, q: Prompt)
    requires Wellformed(p) && Wellformed(q) && p.identity == q.identity && Meant(p.params) == Meant(q.params)
    ensures ShareAKey(p, q) <==> Collides(p.template, q.template) || Collides(q.template, p.template)
  {
    if |p.template| <= |q.template| {
      LongerTemplateSharesIff(p, q);
      if |p.template| == |q.template| && Embeds(q.template, p.template) {
        EmbedsSameLength(q.template, p.template);
      }
    } else {
      LongerTemplateSharesIff(q, p);
      if source, other :| RETURN !in source && RETURN !in other && CacheKeyText(source, p) == CacheKeyText(other, q) {
        assert ShareAKey(q, p);
      }
      if source, other :| RETURN !in source && RETURN !in other && CacheKeyText(source, q) == CacheKeyText(other, p) {
        assert ShareAKey(p, q);
      }
    }
  }

  /** Among templates of one length only equal ones embed each other. */
  lemma EmbedsSameLength(inner: Units, outer: Units)
    requires |inner| == |outer| && Embeds(inner, outer)
    ensures inner == outer
  {
    SameSplit(HEADING, inner, HEADING, outer);
    assert (HEADING + outer)[0..] == HEADING + outer;
  }

  /** Templates that hold the heading line collide, and so does one that only starts with its text. */
  lemma CollidingTemplates(y: Units, z: Units)
    requires RETURN !in y
    ensures Collides(z, y + HEADING + z)
    ensures Collides([], PROMPT_TEMPLATE + [NEWLINE])
  {
    var outer := y + HEADING + z;
    assert HEADING + outer == (HEADING + y) + (HEADING + z);
    assert |outer| - |z| == |HEADING + y|;
    assert (HEADING + outer)[|HEADING + y|..] == HEADING + z;
    assert Surplus(z, outer) == HEADING + y;
    var heading := PROMPT_TEMPLATE + [NEWLINE];
    assert (HEADING + heading)[|heading|..] == HEADING + [];
    assert Surplus([], heading) == [NEWLINE] + PROMPT_TEMPLATE;
  }
}
