/** The container-image retention selector (deploy/dev/select-ghcr-versions.py). */
module Retention {
  import opened Domain
  import opened Sorting

  const KEEP_COUNT: nat := 10
  /** 30 days, in microseconds. */
  const MINIMUM_AGE: int := 30 * 24 * 60 * 60 * 1000000

  /** A version as the registry lists it; a field of another type, or a time that does not parse, is None. */
  datatype Raw = Raw(id: Option<int>, name: Option<string>, createdAt: Option<int>, tags: Option<seq<Option<string>>>)

  datatype Version = Version(createdAt: int, digest: string, id: int)

  predicate HexText(s: string, length: nat) {
    |s| == length && forall i :: 0 <= i < |s| ==> '0' <= s[i] <= '9' || 'a' <= s[i] <= 'f'
  }

  predicate IsDigest(s: string) { |s| >= 7 && s[..7] == "sha256:" && HexText(s[7..], 64) }

  predicate IsShaTag(s: string) { |s| >= 4 && s[..4] == "sha-" && HexText(s[4..], 40) }

  /** None for everything that is not a plain build: exactly one tag, and that a commit. */
  function ParseVersion(raw: Raw): (r: Option<Version>)
    ensures r.Some? <==>
              && raw.id.Some? && raw.id.value > 0
              && raw.name.Some? && IsDigest(raw.name.value)
              && raw.createdAt.Some?
              && raw.tags.Some? && |raw.tags.value| == 1 && raw.tags.value[0].Some? && IsShaTag(raw.tags.value[0].value)
    ensures r.Some? ==> r.value == Version(raw.createdAt.value, raw.name.value, raw.id.value)
  {
    if raw.id.None? || raw.id.value <= 0 then None
    else if raw.name.None? || !IsDigest(raw.name.value) then None
    else if raw.createdAt.None? then None
    else if raw.tags.None? || exists i :: 0 <= i < |raw.tags.value| && raw.tags.value[i].None? then None
    else if |raw.tags.value| != 1 || !IsShaTag(raw.tags.value[0].value) then None
    else Some(Version(raw.createdAt.value, raw.name.value, raw.id.value))
  }

  /** The fixed prefix, and then so many lower-case hexadecimal digits. */
  ghost predicate Hashes(s: string, prefix: string, digits: nat) {
    && |s| == |prefix| + digits && prefix <= s
    && forall i :: |prefix| <= i < |s| ==> s[i] in "0123456789abcdef"
  }

  lemma DigestIff(s: string)
    ensures IsDigest(s) <==> Hashes(s, "sha256:", 64)
  {
    if Hashes(s, "sha256:", 64) {
      assert forall i :: 0 <= i < 64 ==> s[7..][i] == s[i + 7];
    }
    if IsDigest(s) {
      assert forall i :: 7 <= i < |s| ==> s[i] == s[7..][i - 7];
    }
  }

  lemma ShaTagIff(s: string)
    ensures IsShaTag(s) <==> Hashes(s, "sha-", 40)
  {
    if Hashes(s, "sha-", 40) {
      assert forall i :: 0 <= i < 40 ==> s[4..][i] == s[i + 4];
    }
    if IsShaTag(s) {
      assert forall i :: 4 <= i < |s| ==> s[i] == s[4..][i - 4];
    }
  }

  /** A version is considered exactly if its fields are well formed and its one tag is a commit. */
  lemma PlainBuildIff(raw: Raw)
    ensures ParseVersion(raw).Some? <==>
              && raw.id.Some? && raw.id.value > 0 && raw.createdAt.Some?
              && raw.name.Some? && Hashes(raw.name.value, "sha256:", 64)
              && raw.tags.Some? && |raw.tags.value| == 1
              && raw.tags.value[0].Some? && Hashes(raw.tags.value[0].value, "sha-", 40)
  {
    if raw.name.Some? {
      DigestIff(raw.name.value);
    }
    if raw.tags.Some? && |raw.tags.value| == 1 && raw.tags.value[0].Some? {
      ShaTagIff(raw.tags.value[0].value);
    }
  }

  function Eligible(raws: seq<Raw>): seq<Version> {
    if raws == [] then [] else Parsed(raws[0]) + Eligible(raws[1..])
  }

  lemma {:induction false} EligibleElements(raws: seq<Raw>, v: Version)
    ensures v in Eligible(raws) <==> exists raw :: raw in raws && ParseVersion(raw) == Some(v)
    decreases |raws|
  {
    if raws != [] {
      EligibleElements(raws[1..], v);
      assert raws == [raws[0]] + raws[1..];
      assert forall raw :: raw in raws <==> raw == raws[0] || raw in raws[1..];
    }
  }

  function Parsed(raw: Raw): (versions: seq<Version>)
    ensures forall v :: v in versions <==> ParseVersion(raw) == Some(v)
  {
    match ParseVersion(raw)
    case Some(v) => [v]
    case None => []
  }

  predicate Newer(a: Version, b: Version) {
    a.createdAt > b.createdAt || (a.createdAt == b.createdAt && a.id > b.id)
  }

  /** Newest first, by time and then by id. */
  function NewestFirst(): (Version, Version) -> bool {
    (a: Version, b: Version) => !Newer(b, a)
  }

  predicate Deletable(v: Version, protected: set<string>, asOf: int) {
    v.createdAt <= asOf - MINIMUM_AGE && v.digest !in protected
  }

  function DeletableIds(versions: seq<Version>, protected: set<string>, asOf: int): (ids: seq<int>)
    ensures forall id :: id in ids <==> exists v :: v in versions && v.id == id && Deletable(v, protected, asOf)
  {
    if versions == [] then []
    else
      assert versions == [versions[0]] + versions[1..];
      (if Deletable(versions[0], protected, asOf) then [versions[0].id] else [])
      + DeletableIds(versions[1..], protected, asOf)
  }

  function Drop<T>(s: seq<T>, n: nat): seq<T> {
    if |s| <= n then [] else s[n..]
  }

  function SelectDeletableIds(raws: seq<Raw>, protected: set<string>, asOf: int): seq<int> {
    DeletableIds(Drop(Sort(NewestFirst(), Eligible(raws)), KEEP_COUNT), protected, asOf)
  }

  /** The registry gives every version its own id. */
  ghost predicate DistinctIds(versions: seq<Version>) {
    forall i, j :: 0 <= i < j < |versions| ==> versions[i].id != versions[j].id
  }

  // ---- what is selected, without sorting ----

  ghost function NewerThan(versions: seq<Version>, v: Version): set<Version> {
    set u | u in versions && (u.createdAt > v.createdAt || (u.createdAt == v.createdAt && u.id > v.id))
  }

  /** Eligible, 30 days old, unprotected, and at least ten eligible versions are newer. */
  ghost predicate Expendable(versions: seq<Version>, protected: set<string>, asOf: int, v: Version) {
    && v in versions
    && v.createdAt + 30 * 24 * 3600 * 1000000 <= asOf && v.digest !in protected
    && |NewerThan(versions, v)| >= 10
  }

  ghost function Elements<T>(s: seq<T>): set<T> {
    set x | x in s
  }

  lemma {:induction false} DistinctCount(versions: seq<Version>)
    requires DistinctIds(versions)
    ensures |Elements(versions)| == |versions|
    decreases |versions|
  {
    if versions != [] {
      var last := |versions| - 1;
      DistinctCount(versions[..last]);
      assert versions == versions[..last] + [versions[last]];
      assert Elements(versions) == Elements(versions[..last]) + {versions[last]};
    }
  }

  lemma NewestFirstIsPreorder()
    ensures Preorder(NewestFirst())
  {
  }

  /** In the sorted list, the position of a version is the number of newer ones. */
  lemma PositionCountsNewer(sorted: seq<Version>, i: nat)
    requires Sorted(NewestFirst(), sorted) && DistinctIds(sorted) && i < |sorted|
    ensures |NewerThan(sorted, sorted[i])| == i
  {
    forall j | 0 <= j < |sorted| ensures Newer(sorted[j], sorted[i]) <==> j < i {
      if j < i {
        assert NewestFirst()(sorted[j], sorted[i]);
      } else if i < j {
        assert NewestFirst()(sorted[i], sorted[j]);
      }
    }
    assert NewerThan(sorted, sorted[i]) == Elements(sorted[..i]);
    DistinctCount(sorted[..i]);
  }

  lemma SortedEligible(raws: seq<Raw>)
    requires DistinctIds(Eligible(raws))
    ensures var sorted := Sort(NewestFirst(), Eligible(raws));
            Sorted(NewestFirst(), sorted) && DistinctIds(sorted) && forall v :: v in sorted <==> v in Eligible(raws)
  {
    NewestFirstIsPreorder();
    SortSorts(NewestFirst(), Eligible(raws));
    var apart := (a: Version, b: Version) => a.id != b.id;
    SortKeepsApart(NewestFirst(), apart, Eligible(raws));
    var sorted := Sort(NewestFirst(), Eligible(raws));
    assert forall i, j :: 0 <= i < j < |sorted| ==> apart(sorted[i], sorted[j]);
  }

  lemma PositionIsRank(raws: seq<Raw>, i: nat)
    requires DistinctIds(Eligible(raws)) && i < |Eligible(raws)|
    ensures |NewerThan(Eligible(raws), Sort(NewestFirst(), Eligible(raws))[i])| == i
  {
    var sorted := Sort(NewestFirst(), Eligible(raws));
    SortedEligible(raws);
    PositionCountsNewer(sorted, i);
    assert NewerThan(Eligible(raws), sorted[i]) == NewerThan(sorted, sorted[i]);
  }

  lemma Dropped<T>(s: seq<T>, n: nat, i: nat)
    requires i < |s|
    ensures i >= n ==> s[i] in Drop(s, n)
  {
    if i >= n {
      assert s[n..][i - n] == s[i];
    }
  }

  lemma DroppedIffManyNewer(raws: seq<Raw>, v: Version)
    requires DistinctIds(Eligible(raws)) && v in Eligible(raws)
    ensures v in Drop(Sort(NewestFirst(), Eligible(raws)), KEEP_COUNT) <==> |NewerThan(Eligible(raws), v)| >= KEEP_COUNT
  {
    var sorted := Sort(NewestFirst(), Eligible(raws));
    SortedEligible(raws);
    var rest := Drop(sorted, KEEP_COUNT);
    var i :| 0 <= i < |sorted| && sorted[i] == v;
    PositionIsRank(raws, i);
    Dropped(sorted, KEEP_COUNT, i);
    if v in rest {
      var j :| 0 <= j < |rest| && rest[j] == v;
      PositionIsRank(raws, j + KEEP_COUNT);
    }
  }

  /** An id is selected exactly when it is that of an expendable version. */
  lemma SelectedIffExpendable(raws: seq<Raw>, protected: set<string>, asOf: int, id: int)
    requires DistinctIds(Eligible(raws))
    ensures id in SelectDeletableIds(raws, protected, asOf) <==>
              exists v: Version :: v.id == id && Expendable(Eligible(raws), protected, asOf, v)
  {
    SortedEligible(raws);
    if v: Version :| v.id == id && Expendable(Eligible(raws), protected, asOf, v) {
      DroppedIffManyNewer(raws, v);
    }
    if id in SelectDeletableIds(raws, protected, asOf) {
      var v :|
        v in Drop(Sort(NewestFirst(), Eligible(raws)), KEEP_COUNT) && v.id == id && Deletable(v, protected, asOf);
      assert v in Eligible(raws);
      DroppedIffManyNewer(raws, v);
    }
  }

  /** Protecting more selects less, for any listing. */
  lemma ProtectionIsMonotone(raws: seq<Raw>, protected: set<string>, more: set<string>, asOf: int, id: int)
    requires protected <= more
    ensures id in SelectDeletableIds(raws, more, asOf) ==> id in SelectDeletableIds(raws, protected, asOf)
  {
  }

  /** What is left in the registry after the selected ids are deleted. */
  function Survivors(raws: seq<Raw>, ids: seq<int>): (left: seq<Raw>)
    ensures forall raw :: raw in left <==> raw in raws && !(raw.id.Some? && raw.id.value in ids)
  {
    if raws == [] then []
    else
      assert raws == [raws[0]] + raws[1..];
      (if raws[0].id.Some? && raws[0].id.value in ids then [] else [raws[0]]) + Survivors(raws[1..], ids)
  }

  lemma FewerNewer(versions: seq<Version>, fewer: seq<Version>, v: Version)
    requires forall u :: u in fewer ==> u in versions
    ensures |NewerThan(fewer, v)| <= |NewerThan(versions, v)|
  {
    SubsetCount(NewerThan(fewer, v), NewerThan(versions, v));
  }

  lemma {:induction false} SubsetCount<T>(a: set<T>, b: set<T>)
    requires a <= b
    ensures |a| <= |b|
  {
    assert b == a + (b - a);
  }

  lemma SurvivorsEligible(raws: seq<Raw>, ids: seq<int>)
    ensures forall v :: v in Eligible(Survivors(raws, ids)) ==> v in Eligible(raws) && v.id !in ids
  {
    forall v | v in Eligible(Survivors(raws, ids)) ensures v in Eligible(raws) && v.id !in ids {
      EligibleElements(Survivors(raws, ids), v);
      EligibleElements(raws, v);
      var raw :| raw in Survivors(raws, ids) && ParseVersion(raw) == Some(v);
      assert raw in raws;
    }
  }

  lemma ConsDistinct(v: Version, rest: seq<Version>)
    ensures DistinctIds([v] + rest) <==> DistinctIds(rest) && forall u :: u in rest ==> u.id != v.id
  {
    var all := [v] + rest;
    assert all[1..] == rest;
    if DistinctIds(all) {
      forall i, j | 0 <= i < j < |rest| ensures rest[i].id != rest[j].id {
        assert all[i + 1] == rest[i] && all[j + 1] == rest[j];
      }
      forall u | u in rest ensures u.id != v.id {
        var i :| 0 <= i < |rest| && rest[i] == u;
        assert all[0].id != all[i + 1].id;
      }
    }
  }

  lemma {:induction false} SurvivorsDistinct(raws: seq<Raw>, ids: seq<int>)
    requires DistinctIds(Eligible(raws))
    ensures DistinctIds(Eligible(Survivors(raws, ids)))
    decreases |raws|
  {
    if raws != [] {
      if Parsed(raws[0]) == [] {
        assert Eligible(raws) == Eligible(raws[1..]);
      } else {
        ConsDistinct(Parsed(raws[0])[0], Eligible(raws[1..]));
      }
      SurvivorsDistinct(raws[1..], ids);
      SurvivorsEligible(raws[1..], ids);
      KeepOne(raws[0], raws[1..], ids);
      var rest := Survivors(raws[1..], ids);
      assert Survivors(raws, ids) == [raws[0]] + rest || Survivors(raws, ids) == rest;
    }
  }

  lemma KeepOne(raw: Raw, raws: seq<Raw>, ids: seq<int>)
    requires DistinctIds(Eligible(Survivors(raws, ids)))
    requires forall v :: v in Eligible(Survivors(raws, ids)) ==> v in Eligible(raws)
    requires Parsed(raw) != [] ==> forall u :: u in Eligible(raws) ==> u.id != Parsed(raw)[0].id
    ensures DistinctIds(Eligible([raw] + Survivors(raws, ids)))
  {
    var rest := Survivors(raws, ids);
    assert ([raw] + rest)[1..] == rest;
    if Parsed(raw) == [] {
      assert Eligible([raw] + rest) == Eligible(rest);
    } else {
      ConsDistinct(Parsed(raw)[0], Eligible(rest));
    }
  }

  /** Selecting again among the survivors, at the same instant, selects nothing. */
  lemma NothingLeftToSelect(raws: seq<Raw>, protected: set<string>, asOf: int)
    requires DistinctIds(Eligible(raws))
    ensures SelectDeletableIds(Survivors(raws, SelectDeletableIds(raws, protected, asOf)), protected, asOf) == []
  {
    var ids := SelectDeletableIds(raws, protected, asOf);
    var left := Survivors(raws, ids);
    SurvivorsDistinct(raws, ids);
    SurvivorsEligible(raws, ids);
    var again := SelectDeletableIds(left, protected, asOf);
    if again != [] {
      SelectedIffExpendable(left, protected, asOf, again[0]);
      var v: Version :| v.id == again[0] && Expendable(Eligible(left), protected, asOf, v);
      FewerNewer(Eligible(raws), Eligible(left), v);
      assert Expendable(Eligible(raws), protected, asOf, v);
      SelectedIffExpendable(raws, protected, asOf, v.id);
      assert false;
    }
  }

  // ---- the order of the listing ----

  lemma {:induction false} EligibleAppend(a: seq<Raw>, b: seq<Raw>)
    ensures Eligible(a + b) == Eligible(a) + Eligible(b)
    decreases |a|
  {
    if a == [] {
      assert a + b == b;
    } else {
      assert (a + b)[1..] == a[1..] + b;
      EligibleAppend(a[1..], b);
    }
  }

  lemma ElementsWithout<T>(s: seq<T>, i: nat)
    requires i < |s|
    ensures multiset(s[..i] + s[i + 1..]) == multiset(s) - multiset{s[i]}
  {
    assert s == s[..i] + ([s[i]] + s[i + 1..]);
  }

  lemma EligibleWithout(before: seq<Raw>, raw: Raw, after: seq<Raw>)
    ensures multiset(Eligible(before + ([raw] + after))) == multiset(Parsed(raw)) + multiset(Eligible(before + after))
  {
    EligibleAppend(before, [raw] + after);
    EligibleAppend(before, after);
    assert ([raw] + after)[1..] == after;
  }

  lemma {:induction false} EligiblePermutation(a: seq<Raw>, b: seq<Raw>)
    requires multiset(a) == multiset(b)
    ensures multiset(Eligible(a)) == multiset(Eligible(b))
    decreases |a|
  {
    SameElements(a, b);
    if a != [] {
      assert a[0] in a;
      var i :| 0 <= i < |b| && b[i] == a[0];
      TailElements(a);
      ElementsWithout(b, i);
      assert b == b[..i] + ([b[i]] + b[i + 1..]);
      EligibleWithout(b[..i], b[i], b[i + 1..]);
      EligiblePermutation(a[1..], b[..i] + b[i + 1..]);
    }
  }

  /** The selection, order included, does not depend on the order of the listing. */
  lemma ListingOrderIrrelevant(raws: seq<Raw>, others: seq<Raw>, protected: set<string>, asOf: int)
    requires multiset(raws) == multiset(others) && DistinctIds(Eligible(raws))
    ensures SelectDeletableIds(raws, protected, asOf) == SelectDeletableIds(others, protected, asOf)
  {
    EligiblePermutation(raws, others);
    NewestFirstIsPreorder();
    assert Discriminates(NewestFirst(), Eligible(raws));
    SortIgnoresOrder(NewestFirst(), Eligible(raws), Eligible(others));
  }
}
