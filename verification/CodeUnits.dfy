/** JavaScript strings, and the order their code units give them. */
module CodeUnits {

  /** A UTF-16 code unit. */
  type Unit = u: nat | u < 0x10000
  type Units = seq<Unit>

  /** The code units of an ASCII text. */
  function Code(s: string): (units: Units)
    requires forall i :: 0 <= i < |s| ==> s[i] as int < 128
    ensures |units| == |s| && forall i :: 0 <= i < |s| ==> units[i] == s[i] as int
  {
    seq(|s|, i requires 0 <= i < |s| => s[i] as int)
  }

  predicate UnitsLe(a: Units, b: Units) {
    a == [] || (b != [] && (a[0] < b[0] || (a[0] == b[0] && UnitsLe(a[1..], b[1..]))))
  }

  lemma {:induction false} UnitsTotal(a: Units, b: Units)
    ensures UnitsLe(a, b) || UnitsLe(b, a)
    decreases |a|
  {
    if a != [] && b != [] {
      UnitsTotal(a[1..], b[1..]);
    }
  }

  lemma {:induction false} UnitsTransitive(a: Units, b: Units, c: Units)
    requires UnitsLe(a, b) && UnitsLe(b, c)
    ensures UnitsLe(a, c)
    decreases |a|
  {
    if a != [] && a[0] == b[0] && b[0] == c[0] {
      UnitsTransitive(a[1..], b[1..], c[1..]);
    }
  }

  lemma {:induction false} UnitsAntisymmetric(a: Units, b: Units)
    requires UnitsLe(a, b) && UnitsLe(b, a)
    ensures a == b
    decreases |a|
  {
    if a != [] {
      UnitsAntisymmetric(a[1..], b[1..]);
      assert a == [a[0]] + a[1..] && b == [b[0]] + b[1..];
    }
  }
}
