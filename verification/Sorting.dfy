/** Stable sorting by a total preorder, as the library sorts the source calls are specified. */
module Sorting {

  ghost predicate Preorder<T(!new)>(le: (T, T) -> bool) {
    && (forall x, y :: le(x, y) || le(y, x))
    && (forall x, y, z :: le(x, y) && le(y, z) ==> le(x, z))
  }

  ghost predicate Sorted<T>(le: (T, T) -> bool, s: seq<T>) {
    forall i, j :: 0 <= i < j < |s| ==> le(s[i], s[j])
  }

  /** Elements the order cannot tell apart are equal. */
  ghost predicate Discriminates<T>(le: (T, T) -> bool, s: seq<T>) {
    forall x, y :: x in s && y in s && le(x, y) && le(y, x) ==> x == y
  }

  /** In front of the elements it is not above. */
  function Insert<T>(le: (T, T) -> bool, x: T, s: seq<T>): (r: seq<T>)
    ensures |r| == |s| + 1
  {
    if s == [] || le(x, s[0]) then [x] + s else [s[0]] + Insert(le, x, s[1..])
  }

  function Sort<T>(le: (T, T) -> bool, s: seq<T>): (r: seq<T>)
    ensures |r| == |s|
  {
    if s == [] then [] else Insert(le, s[0], Sort(le, s[1..]))
  }

  lemma {:induction false} InsertKeeps<T>(le: (T, T) -> bool, x: T, s: seq<T>)
    ensures multiset(Insert(le, x, s)) == multiset(s) + multiset{x}
    decreases |s|
  {
    if !(s == [] || le(x, s[0])) {
      InsertKeeps(le, x, s[1..]);
      assert s == [s[0]] + s[1..];
    }
  }

  lemma {:induction false} InsertSorts<T(!new)>(le: (T, T) -> bool, x: T, s: seq<T>)
    requires Preorder(le) && Sorted(le, s)
    ensures Sorted(le, Insert(le, x, s))
    decreases |s|
  {
    if !(s == [] || le(x, s[0])) {
      var rest := Insert(le, x, s[1..]);
      InsertSorts(le, x, s[1..]);
      InsertKeeps(le, x, s[1..]);
      forall y | y in rest ensures le(s[0], y) {
        assert y in multiset(rest);
        assert y == x || y in s[1..];
      }
    }
  }

  lemma {:induction false} SortKeeps<T>(le: (T, T) -> bool, s: seq<T>)
    ensures multiset(Sort(le, s)) == multiset(s)
    decreases |s|
  {
    if s != [] {
      SortKeeps(le, s[1..]);
      InsertKeeps(le, s[0], Sort(le, s[1..]));
      assert s == [s[0]] + s[1..];
    }
  }

  /** A sorted sequence is left as it is. */
  lemma {:induction false} SortOfSorted<T>(le: (T, T) -> bool, s: seq<T>)
    requires Sorted(le, s)
    ensures Sort(le, s) == s
    decreases |s|
  {
    if s != [] {
      SortOfSorted(le, s[1..]);
      assert s == [s[0]] + s[1..];
    }
  }

  lemma {:induction false} SortSorts<T(!new)>(le: (T, T) -> bool, s: seq<T>)
    requires Preorder(le)
    ensures Sorted(le, Sort(le, s)) && multiset(Sort(le, s)) == multiset(s)
    decreases |s|
  {
    if s != [] {
      SortSorts(le, s[1..]);
      InsertSorts(le, s[0], Sort(le, s[1..]));
      InsertKeeps(le, s[0], Sort(le, s[1..]));
      assert s == [s[0]] + s[1..];
    }
  }

  lemma SameElements<T>(a: seq<T>, b: seq<T>)
    requires multiset(a) == multiset(b)
    ensures |a| == |b|
    ensures forall x :: x in a <==> x in b
  {
    assert |multiset(a)| == |a| && |multiset(b)| == |b|;
    assert forall x :: x in a <==> x in multiset(a);
    assert forall x :: x in b <==> x in multiset(b);
  }

  lemma HeadsAgree<T>(le: (T, T) -> bool, a: seq<T>, b: seq<T>)
    requires Sorted(le, a) && Sorted(le, b) && multiset(a) == multiset(b) && Discriminates(le, a) && a != []
    ensures b != [] && a[0] == b[0]
  {
    SameElements(a, b);
    assert a[0] in a && b[0] in b;
    var i :| 0 <= i < |b| && b[i] == a[0];
    var j :| 0 <= j < |a| && a[j] == b[0];
    assert (j == 0 || le(a[0], a[j])) && (i == 0 || le(b[0], b[i]));
  }

  lemma TailElements<T>(s: seq<T>)
    requires s != []
    ensures multiset(s[1..]) == multiset(s) - multiset{s[0]}
  {
    assert s == [s[0]] + s[1..];
  }

  lemma HeadAndTail<T>(s: seq<T>)
    requires s != []
    ensures s == [s[0]] + s[1..]
  {
  }

  lemma TailSorted<T>(le: (T, T) -> bool, s: seq<T>)
    requires s != [] && Sorted(le, s)
    ensures Sorted(le, s[1..])
    ensures Discriminates(le, s) ==> Discriminates(le, s[1..])
  {
  }

  lemma {:induction false} SortedUnique<T>(le: (T, T) -> bool, a: seq<T>, b: seq<T>)
    requires Sorted(le, a) && Sorted(le, b) && multiset(a) == multiset(b) && Discriminates(le, a)
    ensures a == b
    decreases |a|
  {
    SameElements(a, b);
    if a != [] {
      HeadsAgree(le, a, b);
      TailElements(a);
      TailElements(b);
      TailSorted(le, a);
      TailSorted(le, b);
      SortedUnique(le, a[1..], b[1..]);
      HeadAndTail(a);
      HeadAndTail(b);
    }
  }

  /** The order of the input does not matter. */
  lemma SortIgnoresOrder<T(!new)>(le: (T, T) -> bool, s: seq<T>, t: seq<T>)
    requires Preorder(le) && multiset(s) == multiset(t) && Discriminates(le, s)
    ensures Sort(le, s) == Sort(le, t)
  {
    SortSorts(le, s);
    SortSorts(le, t);
    SameElements(s, Sort(le, s));
    SortedUnique(le, Sort(le, s), Sort(le, t));
  }

  // ---- stability ----

  ghost predicate Before<T>(s: seq<T>, x: T, y: T) {
    exists i, j :: 0 <= i < j < |s| && s[i] == x && s[j] == y
  }

  lemma BeforeInTail<T>(s: seq<T>, x: T, y: T)
    requires s != [] && Before(s[1..], x, y)
    ensures Before(s, x, y)
  {
    var i, j :| 0 <= i < j < |s[1..]| && s[1..][i] == x && s[1..][j] == y;
    assert s[i + 1] == x && s[j + 1] == y;
  }

  lemma {:induction false} InsertedBefore<T(!new)>(le: (T, T) -> bool, x: T, s: seq<T>, y: T)
    requires y in s && le(x, y)
    ensures Before(Insert(le, x, s), x, y)
    decreases |s|
  {
    var r := Insert(le, x, s);
    if le(x, s[0]) {
      var j :| 0 <= j < |s| && s[j] == y;
      assert r[0] == x && r[j + 1] == y;
    } else {
      InsertedBefore(le, x, s[1..], y);
      assert r[1..] == Insert(le, x, s[1..]);
      BeforeInTail(r, x, y);
    }
  }

  lemma {:induction false} InsertKeepsBefore<T(!new)>(le: (T, T) -> bool, z: T, s: seq<T>, x: T, y: T)
    requires Before(s, x, y)
    ensures Before(Insert(le, z, s), x, y)
    decreases |s|
  {
    var r := Insert(le, z, s);
    if le(z, s[0]) {
      assert r[1..] == s;
      BeforeInTail(r, x, y);
    } else {
      var i, j :| 0 <= i < j < |s| && s[i] == x && s[j] == y;
      assert r[1..] == Insert(le, z, s[1..]);
      if i > 0 {
        assert s[1..][i - 1] == x && s[1..][j - 1] == y;
        InsertKeepsBefore(le, z, s[1..], x, y);
        BeforeInTail(r, x, y);
      } else {
        InsertKeeps(le, z, s[1..]);
        assert s[1..][j - 1] == y && y in multiset(Insert(le, z, s[1..]));
        var k :| 0 <= k < |r[1..]| && r[1..][k] == y;
        assert r[0] == x && r[k + 1] == y;
      }
    }
  }

  /** Elements in order stay in order, tied or not. */
  lemma {:induction false} SortIsStable<T(!new)>(le: (T, T) -> bool, s: seq<T>, i: nat, j: nat)
    requires i < j < |s| && le(s[i], s[j])
    ensures Before(Sort(le, s), s[i], s[j])
    decreases |s|
  {
    if i == 0 {
      SortKeeps(le, s[1..]);
      SameElements(s[1..], Sort(le, s[1..]));
      assert s[1..][j - 1] == s[j];
      InsertedBefore(le, s[0], Sort(le, s[1..]), s[j]);
    } else {
      SortIsStable(le, s[1..], i - 1, j - 1);
      InsertKeepsBefore(le, s[0], Sort(le, s[1..]), s[i], s[j]);
    }
  }

  lemma {:induction false} InsertAgrees<T(!new)>(le: (T, T) -> bool, ge: (T, T) -> bool, x: T, s: seq<T>)
    requires forall y :: y in s ==> (le(x, y) <==> ge(x, y))
    ensures Insert(le, x, s) == Insert(ge, x, s)
    decreases |s|
  {
    if s != [] && !le(x, s[0]) {
      InsertAgrees(le, ge, x, s[1..]);
    }
  }

  lemma {:induction false} SortAgrees<T(!new)>(le: (T, T) -> bool, ge: (T, T) -> bool, s: seq<T>)
    requires forall i, j :: 0 <= i < j < |s| ==> (le(s[i], s[j]) <==> ge(s[i], s[j]))
    ensures Sort(le, s) == Sort(ge, s)
    decreases |s|
  {
    if s != [] {
      SortAgrees(le, ge, s[1..]);
      SortKeeps(le, s[1..]);
      SameElements(s[1..], Sort(le, s[1..]));
      InsertAgrees(le, ge, s[0], Sort(le, s[1..]));
    }
  }

  lemma SortedBoth<T(!new)>(le: (T, T) -> bool, ge: (T, T) -> bool, s: seq<T>, i: nat, j: nat)
    requires Preorder(ge) && Sort(le, s) == Sort(ge, s) && i < j < |s| && le(s[i], s[j])
    ensures ge(s[i], s[j])
  {
    SortIsStable(le, s, i, j);
    SortSorts(ge, s);
    var p, q :| 0 <= p < q < |Sort(le, s)| && Sort(le, s)[p] == s[i] && Sort(le, s)[q] == s[j];
  }

  /** Two orders sort a sequence alike exactly when they compare each element alike with every later one. */
  lemma SortsAgreeIff<T(!new)>(le: (T, T) -> bool, ge: (T, T) -> bool, s: seq<T>)
    requires Preorder(le) && Preorder(ge)
    ensures Sort(le, s) == Sort(ge, s) <==>
              forall i, j :: 0 <= i < j < |s| ==> (le(s[i], s[j]) <==> ge(s[i], s[j]))
  {
    if Sort(le, s) == Sort(ge, s) {
      forall i, j | 0 <= i < j < |s| ensures le(s[i], s[j]) <==> ge(s[i], s[j]) {
        if le(s[i], s[j]) {
          SortedBoth(le, ge, s, i, j);
        }
        if ge(s[i], s[j]) {
          SortedBoth(ge, le, s, i, j);
        }
      }
    } else if forall i, j :: 0 <= i < j < |s| ==> (le(s[i], s[j]) <==> ge(s[i], s[j])) {
      SortAgrees(le, ge, s);
    }
  }

  ghost predicate Pairwise<T>(apart: (T, T) -> bool, s: seq<T>) {
    forall i, j :: 0 <= i < j < |s| ==> apart(s[i], s[j])
  }

  lemma {:induction false} InsertKeepsApart<T(!new)>(le: (T, T) -> bool, apart: (T, T) -> bool, x: T, s: seq<T>)
    requires (forall y, z :: apart(y, z) ==> apart(z, y)) && Pairwise(apart, s) && forall y :: y in s ==> apart(x, y)
    ensures Pairwise(apart, Insert(le, x, s))
    ensures forall y :: y in Insert(le, x, s) <==> y == x || y in s
    decreases |s|
  {
    if s != [] {
      assert s == [s[0]] + s[1..];
      if !le(x, s[0]) {
        InsertKeepsApart(le, apart, x, s[1..]);
        var rest := Insert(le, x, s[1..]);
        forall i | 0 <= i < |rest| ensures apart(s[0], rest[i]) {
          assert rest[i] in rest;
        }
      }
    }
  }

  /** What holds between any two elements of a sequence holds between any two of its sort. */
  lemma {:induction false} SortKeepsApart<T(!new)>(le: (T, T) -> bool, apart: (T, T) -> bool, s: seq<T>)
    requires (forall y, z :: apart(y, z) ==> apart(z, y)) && Pairwise(apart, s)
    ensures Pairwise(apart, Sort(le, s))
    ensures forall y :: y in Sort(le, s) <==> y in s
    decreases |s|
  {
    if s != [] {
      assert s == [s[0]] + s[1..];
      SortKeepsApart(le, apart, s[1..]);
      InsertKeepsApart(le, apart, s[0], Sort(le, s[1..]));
    }
  }
}
