/** Well-formed UTF-8, as section 4 of RFC 3629 defines it. */
module Utf8 {
  import opened Domain

  /** A byte that continues a character. */
  predicate Cont(b: byte) { 0x80 <= b <= 0xBF }

  predicate Two(a: byte, b: byte) { 0xC2 <= a <= 0xDF && Cont(b) }

  predicate Three(a: byte, b: byte, c: byte) {
    && 0xE0 <= a <= 0xEF && Cont(b) && Cont(c)
    && (a == 0xE0 ==> b >= 0xA0)
    && (a == 0xED ==> b <= 0x9F)
  }

  predicate Four(a: byte, b: byte, c: byte, d: byte) {
    && 0xF0 <= a <= 0xF4 && Cont(b) && Cont(c) && Cont(d)
    && (a == 0xF0 ==> b >= 0x90)
    && (a == 0xF4 ==> b <= 0x8F)
  }

  /** The length of the first character, or 0 when there is none. */
  function CharLength(s: Text): (n: nat)
    ensures n <= |s|
    ensures n > 0 ==> !Cont(s[0])
    ensures forall i :: 1 <= i < n ==> Cont(s[i])
  {
    if |s| >= 1 && s[0] < 0x80 then 1
    else if |s| >= 2 && Two(s[0], s[1]) then 2
    else if |s| >= 3 && Three(s[0], s[1], s[2]) then 3
    else if |s| >= 4 && Four(s[0], s[1], s[2], s[3]) then 4
    else 0
  }

  predicate Valid(s: Text) {
    s == [] || (CharLength(s) > 0 && Valid(s[CharLength(s)..]))
  }

  predicate ContAt(s: Text, i: nat) { i < |s| && Cont(s[i]) }

  lemma FirstCharIsLocal(s: Text, t: Text)
    requires CharLength(s) > 0 && CharLength(s) <= |t| && t[..CharLength(s)] == s[..CharLength(s)]
    ensures CharLength(t) == CharLength(s)
  {
    var n := CharLength(s);
    assert forall i :: 0 <= i < n ==> s[i] == s[..n][i] == t[..n][i] == t[i];
  }

  /** The first byte fixes the length. */
  lemma FirstByteFixesLength(s: Text, t: Text)
    requires CharLength(s) > 0 && CharLength(t) > 0 && s[0] == t[0]
    ensures CharLength(s) == CharLength(t)
  {
  }

  lemma {:induction false} JoinValid(a: Text, b: Text)
    requires Valid(b)
    requires Valid(a)
    ensures Valid(a + b)
    decreases |a|
  {
    if a == [] {
      assert a + b == b;
    } else {
      var n := CharLength(a);
      assert (a + b)[..n] == a[..n] && (a + b)[n..] == a[n..] + b;
      FirstCharIsLocal(a, a + b);
      JoinValid(a[n..], b);
    }
  }

  lemma Slices(s: Text, n: nat, i: nat)
    requires n <= i <= |s|
    ensures s[n..][i - n..] == s[i..] && s[n..][..i - n] == s[n..i]
    ensures s[..i][..n] == s[..n] && s[..i][n..] == s[n..i]
  {
  }

  /** A valid text falls into two valid parts wherever no character is cut. */
  lemma {:induction false} SplitValid(s: Text, i: nat)
    requires Valid(s) && i <= |s| && !ContAt(s, i)
    ensures Valid(s[..i]) && Valid(s[i..])
    decreases |s|
  {
    if i == 0 {
      assert s[0..] == s;
    } else {
      var n := CharLength(s);
      Slices(s, n, i);
      assert s[n..] == [] || s[n..][0] == s[n];
      SplitValid(s[n..], i - n);
      FirstCharIsLocal(s, s[..i]);
    }
  }

  /** In front of valid characters, validity is that of the rest. */
  lemma ValidByParts(s: Text, n: nat)
    requires n <= |s| && !ContAt(s, n) && Valid(s[n..])
    ensures Valid(s[..n]) <==> Valid(s)
  {
    if Valid(s) {
      SplitValid(s, n);
    }
    if Valid(s[..n]) {
      JoinValid(s[..n], s[n..]);
      assert s == s[..n] + s[n..];
    }
  }

  /** What precedes a continuation byte is not valid by itself. */
  lemma {:induction false} CutIsInvalid(s: Text, i: nat)
    requires Valid(s) && ContAt(s, i)
    ensures !Valid(s[..i])
    decreases |s|
  {
    var n, head := CharLength(s), s[..i];
    if i < n {
      if CharLength(head) > 0 {
        FirstByteFixesLength(s, head);
      }
    } else {
      assert ContAt(s[n..], i - n);
      CutIsInvalid(s[n..], i - n);
      Slices(s, n, i);
      FirstCharIsLocal(s, head);
    }
  }
}
