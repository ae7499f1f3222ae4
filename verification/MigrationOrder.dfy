/** The two orders in which migrations are sorted: by version number (Node) and by name (Go). */
module MigrationOrder {
  import opened CodeUnits
  import opened Sorting

  /** A migration is named `<version>_<rest>`. */
  type Name = Units

  const UNDERSCORE: Unit := 0x5F

  // ---- names and versions ----

  function VersionLength(name: Name): (n: nat)
    ensures n <= |name|
    ensures n < |name| ==> name[n] == UNDERSCORE
    ensures forall i :: 0 <= i < n ==> name[i] != UNDERSCORE
  {
    if name == [] || name[0] == UNDERSCORE then 0 else 1 + VersionLength(name[1..])
  }

  function VersionOf(name: Name): Units { name[..VersionLength(name)] }

  predicate HasUnderscore(name: Name) { VersionLength(name) < |name| }

  predicate Digits(version: Units) {
    forall i :: 0 <= i < |version| ==> 0x30 <= version[i] <= 0x39
  }

  function Power(n: nat): (p: nat)
    ensures p > 0
  {
    if n == 0 then 1 else 10 * Power(n - 1)
  }

  /** The number the digits denote, as numeric collation compares them. */
  function Number(version: Units): int {
    if version == [] then 0 else (version[0] - 0x30) * Power(|version| - 1) + Number(version[1..])
  }

  /** localeCompare with numeric: true, on digit strings. */
  function ByNumber(): (Name, Name) -> bool {
    (a: Name, b: Name) => Number(VersionOf(a)) <= Number(VersionOf(b))
  }

  /** Text order: the Go runner sorts whole names by it, and the tracking table its versions. */
  function ByText(): (Name, Name) -> bool {
    (a: Name, b: Name) => UnitsLe(a, b)
  }

  // ---- digit strings ----

  lemma {:induction false} NumberBounded(version: Units)
    requires Digits(version)
    ensures 0 <= Number(version) < Power(|version|)
    decreases |version|
  {
    if version != [] {
      NumberBounded(version[1..]);
      Scale(version[0] - 0x30, 9, Power(|version| - 1));
    }
  }

  lemma Scale(a: nat, b: nat, p: nat)
    requires a <= b
    ensures 0 <= a * p <= b * p
  {
  }

  lemma Dominates(x: nat, y: nat, p: nat, r: nat, t: nat)
    requires x < y && r < p
    ensures x * p + r < y * p + t
  {
    Scale(x + 1, y, p);
    assert (x + 1) * p == x * p + p;
  }

  lemma HeadDecides(a: Units, b: Units)
    requires |a| == |b| > 0 && Digits(a) && Digits(b) && a[0] < b[0]
    ensures Number(a) < Number(b)
  {
    NumberBounded(a[1..]);
    NumberBounded(b[1..]);
    Dominates(a[0] - 0x30, b[0] - 0x30, Power(|a| - 1), Number(a[1..]), Number(b[1..]));
  }

  /** For digit strings of one length, numeric order and text order are the same. */
  lemma {:induction false} EqualWidthOrders(a: Units, b: Units)
    requires |a| == |b| && Digits(a) && Digits(b)
    ensures Number(a) <= Number(b) <==> UnitsLe(a, b)
    decreases |a|
  {
    if a != [] {
      if a[0] < b[0] {
        HeadDecides(a, b);
      } else if b[0] < a[0] {
        HeadDecides(b, a);
      } else {
        EqualWidthOrders(a[1..], b[1..]);
      }
    }
  }

  lemma {:induction false} PowersGrow(m: nat, n: nat)
    requires m <= n
    ensures Power(m) <= Power(n)
    decreases n
  {
    if m < n {
      PowersGrow(m, n - 1);
    }
  }

  lemma ScaledPowersGrow(d: nat, m: nat, n: nat)
    requires m <= n
    ensures d * Power(m) <= d * Power(n)
  {
    PowersGrow(m, n);
    Scale(Power(m), Power(n), d);
  }

  lemma {:induction false} PrefixIsNoGreater(version: Units, n: nat)
    requires Digits(version) && n <= |version|
    ensures Number(version[..n]) <= Number(version)
    decreases n
  {
    if n == 0 {
      NumberBounded(version);
    } else {
      PrefixIsNoGreater(version[1..], n - 1);
      assert version[..n][1..] == version[1..][..n - 1];
      ScaledPowersGrow(version[0] - 0x30, n - 1, |version| - 1);
    }
  }

  /** Digit strings of one width are equal when their numbers are. */
  lemma EqualWidthNumbers(a: Units, b: Units)
    requires |a| == |b| && Digits(a) && Digits(b) && Number(a) == Number(b)
    ensures a == b
  {
    EqualWidthOrders(a, b);
    EqualWidthOrders(b, a);
    UnitsAntisymmetric(a, b);
  }

  // ---- the two orders on names ----

  predicate Versioned(name: Name) { HasUnderscore(name) && Digits(VersionOf(name)) }

  ghost predicate AllVersioned(ups: seq<Name>) {
    forall m :: m in ups ==> Versioned(m)
  }

  lemma {:induction false} TextOrderOfPrefixes(a: Units, b: Units, n: nat)
    requires n <= |a| && n <= |b| && a[..n] != b[..n]
    ensures UnitsLe(a, b) <==> UnitsLe(a[..n], b[..n])
    decreases n
  {
    if n > 0 && a[0] == b[0] {
      assert a[..n] == [a[0]] + a[1..][..n - 1] && b[..n] == [b[0]] + b[1..][..n - 1];
      TextOrderOfPrefixes(a[1..], b[1..], n - 1);
    }
  }

  lemma {:induction false} TextDecidedAt(a: Units, b: Units, n: nat)
    requires n < |a| && n < |b| && a[..n] == b[..n] && a[n] > b[n]
    ensures !UnitsLe(a, b)
    decreases n
  {
    if n > 0 {
      assert a[0] == a[..n][0] == b[..n][0] == b[0];
      assert a[1..][..n - 1] == a[..n][1..] && b[1..][..n - 1] == b[..n][1..];
      TextDecidedAt(a[1..], b[1..], n - 1);
    }
  }

  lemma ByTextIsPreorder()
    ensures Preorder(ByText())
  {
    forall x, y ensures ByText()(x, y) || ByText()(y, x) {
      UnitsTotal(x, y);
    }
    forall x, y, z | ByText()(x, y) && ByText()(y, z) ensures ByText()(x, z) {
      UnitsTransitive(x, y, z);
    }
  }

  /**
   The narrower version's number lies between the number of as many digits of the wider one, inclusive, and the
   wider one's own: 9 and 10, or 1 and 10, or 5 and 007.
   */
  predicate Crossed(a: Name, b: Name) {
    var n := |VersionOf(a)|;
    n < |VersionOf(b)| && Number(VersionOf(b)[..n]) <= Number(VersionOf(a)) < Number(VersionOf(b))
  }

  ghost predicate Uncrossed(ups: seq<Name>) {
    forall a, b :: a in ups && b in ups ==> !Crossed(a, b)
  }

  lemma SameWidthAgrees(a: Name, b: Name)
    requires Versioned(a) && Versioned(b) && |VersionOf(a)| == |VersionOf(b)| && VersionOf(a) != VersionOf(b)
    ensures ByNumber()(a, b) <==> ByText()(a, b)
  {
    EqualWidthOrders(VersionOf(a), VersionOf(b));
    TextOrderOfPrefixes(a, b, |VersionOf(a)|);
  }

  /** In text, a name comes before one with a wider version exactly when it comes before as many of its digits. */
  lemma NarrowerFirstIff(a: Name, b: Name)
    requires Versioned(a) && Versioned(b) && |VersionOf(a)| < |VersionOf(b)|
    ensures ByText()(a, b) <==> Number(VersionOf(a)) < Number(VersionOf(b)[..|VersionOf(a)|])
  {
    var n := |VersionOf(a)|;
    var narrow, head := VersionOf(a), VersionOf(b)[..n];
    assert head == b[..n];
    if narrow == head {
      assert b[n] == VersionOf(b)[n];
      TextDecidedAt(a, b, n);
    } else {
      TextOrderOfPrefixes(a, b, n);
      EqualWidthOrders(narrow, head);
      if Number(narrow) == Number(head) {
        EqualWidthNumbers(narrow, head);
      }
    }
  }

  lemma DifferentOnce(a: Name, b: Name)
    requires Number(VersionOf(a)) != Number(VersionOf(b))
    ensures ByText()(a, b) <==> !ByText()(b, a)
  {
    UnitsTotal(a, b);
    if UnitsLe(a, b) && UnitsLe(b, a) {
      UnitsAntisymmetric(a, b);
    }
  }

  /** The two orders compare a pair alike exactly when it is not crossed. */
  lemma PairAgreesIff(a: Name, b: Name)
    requires Versioned(a) && Versioned(b) && Number(VersionOf(a)) != Number(VersionOf(b))
    ensures (ByNumber()(a, b) <==> ByText()(a, b)) <==> !Crossed(a, b) && !Crossed(b, a)
  {
    if |VersionOf(a)| == |VersionOf(b)| {
      SameWidthAgrees(a, b);
    } else if |VersionOf(a)| < |VersionOf(b)| {
      NarrowerFirstIff(a, b);
      PrefixIsNoGreater(VersionOf(b), |VersionOf(a)|);
    } else {
      NarrowerFirstIff(b, a);
      PrefixIsNoGreater(VersionOf(a), |VersionOf(b)|);
      DifferentOnce(a, b);
    }
  }

  /** Files whose versions have the same number, such as 7 and 007, are listed in text order. */
  ghost predicate TiesInTextOrder(ups: seq<Name>) {
    forall i, j :: 0 <= i < j < |ups| && Number(VersionOf(ups[i])) == Number(VersionOf(ups[j])) ==>
      ByText()(ups[i], ups[j])
  }

  ghost predicate AgreesAt(ups: seq<Name>, i: nat, j: nat)
    requires i < j < |ups|
  {
    && !Crossed(ups[i], ups[j]) && !Crossed(ups[j], ups[i])
    && (Number(VersionOf(ups[i])) == Number(VersionOf(ups[j])) ==> ByText()(ups[i], ups[j]))
  }

  lemma AgreesAtIff(ups: seq<Name>, i: nat, j: nat)
    requires AllVersioned(ups) && i < j < |ups|
    ensures (ByNumber()(ups[i], ups[j]) <==> ByText()(ups[i], ups[j])) <==> AgreesAt(ups, i, j)
  {
    if Number(VersionOf(ups[i])) != Number(VersionOf(ups[j])) {
      PairAgreesIff(ups[i], ups[j]);
    }
  }

  lemma EverywhereIff(ups: seq<Name>)
    ensures (forall i, j :: 0 <= i < j < |ups| ==> AgreesAt(ups, i, j)) <==> Uncrossed(ups) && TiesInTextOrder(ups)
  {
    if forall i, j :: 0 <= i < j < |ups| ==> AgreesAt(ups, i, j) {
      forall a, b | a in ups && b in ups ensures !Crossed(a, b) {
        var i :| 0 <= i < |ups| && ups[i] == a;
        var j :| 0 <= j < |ups| && ups[j] == b;
        assert i < j ==> AgreesAt(ups, i, j);
        assert j < i ==> AgreesAt(ups, j, i);
      }
      forall i, j | 0 <= i < j < |ups| && Number(VersionOf(ups[i])) == Number(VersionOf(ups[j]))
        ensures ByText()(ups[i], ups[j])
      {
        assert AgreesAt(ups, i, j);
      }
    }
  }

  lemma AlikeEverywhereIff(ups: seq<Name>)
    requires AllVersioned(ups)
    ensures (forall i, j :: 0 <= i < j < |ups| ==> (ByNumber()(ups[i], ups[j]) <==> ByText()(ups[i], ups[j]))) <==>
            Uncrossed(ups) && TiesInTextOrder(ups)
  {
    forall i, j | 0 <= i < j < |ups|
      ensures (ByNumber()(ups[i], ups[j]) <==> ByText()(ups[i], ups[j])) <==> AgreesAt(ups, i, j)
    {
      AgreesAtIff(ups, i, j);
    }
    EverywhereIff(ups);
  }

  /** The runners apply the migrations in one order exactly when no pair is crossed and ties are listed in order. */
  lemma OrdersAgreeIff(ups: seq<Name>)
    requires AllVersioned(ups)
    ensures Sort(ByNumber(), ups) == Sort(ByText(), ups) <==> Uncrossed(ups) && TiesInTextOrder(ups)
  {
    ByTextIsPreorder();
    SortsAgreeIff(ByNumber(), ByText(), ups);
    AlikeEverywhereIff(ups);
  }

  /** Without ties there is nothing to list in order. */
  lemma NoTies(ups: seq<Name>)
    requires Discriminates(ByNumber(), ups)
    ensures TiesInTextOrder(ups)
  {
    forall i, j | 0 <= i < j < |ups| && Number(VersionOf(ups[i])) == Number(VersionOf(ups[j]))
      ensures ByText()(ups[i], ups[j])
    {
      assert ups[i] in ups && ups[j] in ups;
      assert ByNumber()(ups[i], ups[j]) && ByNumber()(ups[j], ups[i]);
      UnitsTotal(ups[i], ups[j]);
    }
  }

  /** Different versions of one width are never crossed; the repository's versions are timestamps of 13 digits. */
  lemma OneWidthIsUncrossed(ups: seq<Name>, width: nat)
    requires AllVersioned(ups) && forall m :: m in ups ==> |VersionOf(m)| == width
    requires forall a, b :: a in ups && b in ups && VersionOf(a) == VersionOf(b) ==> a == b
    ensures Discriminates(ByNumber(), ups) && Uncrossed(ups)
  {
    forall a, b | a in ups && b in ups && ByNumber()(a, b) && ByNumber()(b, a) ensures a == b {
      EqualWidthNumbers(VersionOf(a), VersionOf(b));
    }
  }

  /** Widths matter: 9_a and 10_b. */
  lemma WidthsMatter()
    ensures var a: Name := [0x39, UNDERSCORE, 0x61]; var b: Name := [0x31, 0x30, UNDERSCORE, 0x62];
            Crossed(a, b) && ByNumber()(a, b) && !ByNumber()(b, a) && ByText()(b, a) && !ByText()(a, b)
  {
    var a: Name := [0x39, UNDERSCORE, 0x61];
    var b: Name := [0x31, 0x30, UNDERSCORE, 0x62];
    assert a[1..] == [UNDERSCORE, 0x61] && VersionLength(a[1..]) == 0;
    assert b[1..] == [0x30, UNDERSCORE, 0x62] && b[1..][1..] == [UNDERSCORE, 0x62] && VersionLength(b[1..][1..]) == 0;
    assert VersionLength(b[1..]) == 1;
    assert VersionOf(a) == [0x39] && VersionOf(b) == [0x31, 0x30];
    assert [0x39][1..] == [] && [0x31, 0x30][1..] == [0x30];
    assert [0x31, 0x30][..1] == [0x31] && [0x31][1..] == [];
    assert Power(1) == 10;
    assert Number([0x30]) == 0 && Number([0x31, 0x30]) == 10 && Number([0x39]) == 9;
  }

  /** The narrower version's number lies strictly between: 9 and 10, but not 1 and 10. */
  predicate StrictlyCrossed(a: Name, b: Name) {
    var n := |VersionOf(a)|;
    n < |VersionOf(b)| && Number(VersionOf(b)[..n]) < Number(VersionOf(a)) < Number(VersionOf(b))
  }

  lemma {:induction false} PrefixComesFirst(a: Units, b: Units)
    requires a <= b
    ensures UnitsLe(a, b)
    decreases |a|
  {
    if a != [] {
      PrefixComesFirst(a[1..], b[1..]);
    }
  }

  /** Versions alone, as the tracking table compares them, follow their numbers unless strictly crossed. */
  lemma VersionTextIff(a: Name, b: Name)
    requires Versioned(a) && Versioned(b) && Number(VersionOf(a)) < Number(VersionOf(b))
    ensures UnitsLe(VersionOf(a), VersionOf(b)) <==> !StrictlyCrossed(a, b)
  {
    var v, w := VersionOf(a), VersionOf(b);
    if |v| == |w| {
      EqualWidthOrders(v, w);
    } else if |v| < |w| {
      EqualWidthOrders(v, w[..|v|]);
      if v == w[..|v|] {
        PrefixComesFirst(v, w);
      } else {
        assert v[..|v|] == v;
        TextOrderOfPrefixes(v, w, |v|);
      }
    } else {
      PrefixIsNoGreater(v, |w|);
      EqualWidthOrders(v[..|w|], w);
      assert w[..|w|] == w;
      TextOrderOfPrefixes(v, w, |w|);
    }
  }

  lemma LaterVersionIsGreater(a: Name, b: Name)
    requires Versioned(a) && Versioned(b) && Number(VersionOf(a)) < Number(VersionOf(b)) && !StrictlyCrossed(a, b)
    ensures !UnitsLe(VersionOf(b), VersionOf(a))
  {
    VersionTextIff(a, b);
    if UnitsLe(VersionOf(b), VersionOf(a)) {
      UnitsAntisymmetric(VersionOf(a), VersionOf(b));
    }
  }
}
