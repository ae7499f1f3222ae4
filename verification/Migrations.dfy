/**
 The two migration runners over one tracking table (app/src/database/migrate.ts, worker/internal/migrations/runner.go).
 The advisory lock serialises them, so a run of the system is a list of commands.
 */
module Migrations {
  import opened CodeUnits
  import opened Domain
  import opened MigrationOrder
  import opened Sorting

  /** The migration directory: names with an up script, and names with a down script. */
  datatype Directory = Directory(ups: seq<Name>, downs: set<Name>)

  datatype Row = Row(version: Units, name: Name)

  datatype Script = Up(name: Name) | Down(name: Name)

  /** The tracking table, in the order of its inserts, and the scripts the schema is the effect of. */
  datatype Tables = Tables(rows: seq<Row>, schema: seq<Script>)

  datatype Command = NodeUp(files: Directory) | NodeDown(files: Directory) | GoUp(files: Directory)

  // ---- tables ----

  /** The tracking rows of the migrations, in the order they are applied. */
  function RowsOf(names: seq<Name>): (rows: seq<Row>)
    ensures |rows| == |names|
    ensures forall i :: 0 <= i < |names| ==> rows[i] == Row(VersionOf(names[i]), names[i])
  {
    if names == [] then [] else RowsOf(names[..|names| - 1]) + [Row(VersionOf(names[|names| - 1]), names[|names| - 1])]
  }

  function Ups(names: seq<Name>): (scripts: seq<Script>)
    ensures |scripts| == |names|
    ensures forall i :: 0 <= i < |names| ==> scripts[i] == Up(names[i])
  {
    if names == [] then [] else Ups(names[..|names| - 1]) + [Up(names[|names| - 1])]
  }

  /** A down script undoes its own up script when that ran last; anything else leaves a trace. */
  function Execute(schema: seq<Script>, script: Script): seq<Script> {
    if script.Down? && schema != [] && schema[|schema| - 1] == Up(script.name) then schema[..|schema| - 1]
    else schema + [script]
  }

  predicate Recorded(rows: seq<Row>, version: Units) {
    exists i :: 0 <= i < |rows| && rows[i].version == version
  }

  function Without(rows: seq<Row>, version: Units): seq<Row> {
    if rows == [] then []
    else Without(rows[..|rows| - 1], version) + if rows[|rows| - 1].version == version then [] else [rows[|rows| - 1]]
  }

  /** The row whose version is greatest as text, which is the one to revert. */
  function Latest(rows: seq<Row>): Row
    requires rows != []
  {
    if |rows| == 1 then rows[0]
    else
      var before, last := Latest(rows[..|rows| - 1]), rows[|rows| - 1];
      if UnitsLe(before.version, last.version) then last else before
  }

  function Applied(t: Tables, names: seq<Name>): Tables {
    Tables(t.rows + RowsOf(names), t.schema + Ups(names))
  }

  function Reverted(t: Tables, name: Name): Tables {
    Tables(Without(t.rows, VersionOf(name)), Execute(t.schema, Down(name)))
  }

  lemma AppliedNone(t: Tables)
    ensures Applied(t, []) == t
  {
  }

  lemma AppliedOneMore(t: Tables, names: seq<Name>, name: Name)
    ensures Applied(t, names + [name]) == Applied(Applied(t, names), [name])
  {
    assert (names + [name])[..|names|] == names;
  }

  // ---- what each runner selects ----

  /** The migrations whose version is not recorded. */
  function Pending(all: seq<Name>, rows: seq<Row>): seq<Name> {
    if all == [] then []
    else (if Recorded(rows, VersionOf(all[0])) then [] else [all[0]]) + Pending(all[1..], rows)
  }

  /** The same, with each version looked up after the inserts for the names before it. */
  function Fresh(names: seq<Name>, rows: seq<Row>): seq<Name> {
    if names == [] then []
    else if Recorded(rows, VersionOf(names[0])) then Fresh(names[1..], rows)
    else [names[0]] + Fresh(names[1..], rows + RowsOf([names[0]]))
  }

  lemma {:induction false} NothingSelectedIff(names: seq<Name>, rows: seq<Row>)
    ensures Pending(names, rows) == [] <==> forall m :: m in names ==> Recorded(rows, VersionOf(m))
    ensures Fresh(names, rows) == [] <==> forall m :: m in names ==> Recorded(rows, VersionOf(m))
    decreases |names|
  {
    if names != [] {
      NothingSelectedIff(names[1..], rows);
      assert forall m :: m in names <==> m == names[0] || m in names[1..];
      assert names[0] in names;
    }
  }

  lemma StillRecorded(rows: seq<Row>, more: seq<Row>, version: Units)
    requires Recorded(rows, version) || Recorded(more, version)
    ensures Recorded(rows + more, version)
  {
    if i :| 0 <= i < |rows| && rows[i].version == version {
      assert (rows + more)[i].version == version;
    } else {
      var j :| 0 <= j < |more| && more[j].version == version;
      assert (rows + more)[|rows| + j].version == version;
    }
  }

  lemma SelectedAreRecorded(names: seq<Name>, name: Name)
    requires name in names
    ensures Recorded(RowsOf(names), VersionOf(name))
  {
    var i :| 0 <= i < |names| && names[i] == name;
    assert RowsOf(names)[i].version == VersionOf(name);
  }

  lemma {:induction false} PendingElements(all: seq<Name>, rows: seq<Row>, m: Name)
    requires m in all && !Recorded(rows, VersionOf(m))
    ensures m in Pending(all, rows)
    decreases |all|
  {
    if m != all[0] {
      PendingElements(all[1..], rows, m);
    }
  }

  /** After a complete run of the Node runner nothing is pending, in any directory. */
  lemma NothingPendingAfter(all: seq<Name>, rows: seq<Row>)
    ensures Pending(all, rows + RowsOf(Pending(all, rows))) == []
  {
    var more := RowsOf(Pending(all, rows));
    forall m | m in all ensures Recorded(rows + more, VersionOf(m)) {
      if !Recorded(rows, VersionOf(m)) {
        PendingElements(all, rows, m);
        SelectedAreRecorded(Pending(all, rows), m);
      }
      StillRecorded(rows, more, VersionOf(m));
    }
    NothingSelectedIff(all, rows + more);
  }

  lemma {:induction false} FreshRecordsAll(names: seq<Name>, rows: seq<Row>, m: Name)
    requires m in names
    ensures Recorded(rows + RowsOf(Fresh(names, rows)), VersionOf(m))
    decreases |names|
  {
    if Recorded(rows, VersionOf(names[0])) {
      if m == names[0] {
        StillRecorded(rows, RowsOf(Fresh(names, rows)), VersionOf(m));
      } else {
        FreshRecordsAll(names[1..], rows, m);
      }
    } else if m == names[0] {
      SelectedAreRecorded(Fresh(names, rows), m);
      StillRecorded(rows, RowsOf(Fresh(names, rows)), VersionOf(m));
    } else {
      var first, rest := RowsOf([names[0]]), Fresh(names[1..], rows + RowsOf([names[0]]));
      FreshRecordsAll(names[1..], rows + first, m);
      assert RowsOf([names[0]] + rest) == first + RowsOf(rest);
      assert rows + first + RowsOf(rest) == rows + (first + RowsOf(rest));
    }
  }

  /** Nor, after a complete run of the Go runner, is anything left for it to select. */
  lemma NothingFreshAfter(names: seq<Name>, rows: seq<Row>)
    ensures Fresh(names, rows + RowsOf(Fresh(names, rows))) == []
  {
    var more := RowsOf(Fresh(names, rows));
    forall m | m in names ensures Recorded(rows + more, VersionOf(m)) {
      FreshRecordsAll(names, rows, m);
    }
    NothingSelectedIff(names, rows + more);
  }

  predicate Listed(names: seq<Name>, version: Units) {
    exists i :: 0 <= i < |names| && VersionOf(names[i]) == version
  }

  /** The first migration of that version. */
  function FindVersion(names: seq<Name>, version: Units): (name: Name)
    requires Listed(names, version)
    ensures VersionOf(name) == version
    ensures exists i ::
              0 <= i < |names| && names[i] == name && forall j :: 0 <= j < i ==> VersionOf(names[j]) != version
  {
    if VersionOf(names[0]) == version then names[0]
    else
      assert exists i :: 0 <= i < |names[1..]| && VersionOf(names[1..][i]) == version by {
        var i :| 0 <= i < |names| && VersionOf(names[i]) == version;
        assert names[1..][i - 1] == names[i];
      }
      FoundBehind(names, version, FindVersion(names[1..], version));
      FindVersion(names[1..], version)
  }

  lemma FoundBehind(names: seq<Name>, version: Units, name: Name)
    requires names != [] && VersionOf(names[0]) != version
    requires exists i :: 0 <= i < |names[1..]| && names[1..][i] == name
                         && forall j :: 0 <= j < i ==> VersionOf(names[1..][j]) != version
    ensures exists i ::
              0 <= i < |names| && names[i] == name && forall j :: 0 <= j < i ==> VersionOf(names[j]) != version
  {
    var i :| 0 <= i < |names[1..]| && names[1..][i] == name
             && forall j :: 0 <= j < i ==> VersionOf(names[1..][j]) != version;
    assert names[i + 1] == name;
    forall j | 0 <= j < i + 1 ensures VersionOf(names[j]) != version {
      if j > 0 {
        assert names[j] == names[1..][j - 1];
      }
    }
  }

  predicate HasAllDowns(files: Directory) {
    forall m :: m in files.ups ==> m in files.downs
  }

  /** Every migration has its down script, and the greatest recorded version has a file. */
  ghost predicate CanGoDown(files: Directory, rows: seq<Row>) {
    HasAllDowns(files) && (rows != [] ==> Listed(Sort(ByNumber(), files.ups), Latest(rows).version))
  }

  /** The next migration's version is recorded already, so that the primary key refuses it. */
  predicate Conflicts(rows: seq<Row>, pending: seq<Name>, n: nat) {
    n < |pending| && Recorded(rows, VersionOf(pending[n]))
  }

  ghost predicate DownStep(files: Directory, t: Tables, t': Tables) {
    && t.rows != []
    && var all := Sort(ByNumber(), files.ups);
       Listed(all, Latest(t.rows).version) && t' == Reverted(t, FindVersion(all, Latest(t.rows).version))
  }

  lemma SelectedNext(selected: seq<Name>, n: nat, name: Name, rest: seq<Name>)
    requires n <= |selected| && selected[n..] == [name] + rest
    ensures n < |selected| && selected[..n + 1] == selected[..n] + [name] && selected[n + 1..] == rest
  {
    assert selected[n] == selected[n..][0] && selected[n + 1..] == selected[n..][1..];
  }

  // ---- prefixes of one lineage ----

  /** All migrations there will ever be, oldest first: different numbers, and no pair crossed. */
  ghost predicate Lineage(all: seq<Name>) {
    && AllVersioned(all)
    && (forall i, j :: 0 <= i < j < |all| ==> Number(VersionOf(all[i])) < Number(VersionOf(all[j])))
    && Uncrossed(all)
  }

  /** The tables hold exactly the first |rows| migrations. */
  ghost predicate AtPrefixOf(all: seq<Name>, t: Tables) {
    |t.rows| <= |all| && t == At(all, |t.rows|)
  }

  /** The tables after exactly the first k migrations. */
  function At(all: seq<Name>, k: nat): (t: Tables)
    requires k <= |all|
    ensures |t.rows| == k
  {
    Tables(RowsOf(all[..k]), Ups(all[..k]))
  }

  ghost predicate OneVersionEach(all: seq<Name>) {
    forall i, j :: 0 <= i < j < |all| ==> VersionOf(all[i]) != VersionOf(all[j])
  }

  lemma RecordedIffBefore(all: seq<Name>, k: nat, i: nat)
    requires OneVersionEach(all) && k <= |all| && i < |all|
    ensures Recorded(RowsOf(all[..k]), VersionOf(all[i])) <==> i < k
  {
    var rows := RowsOf(all[..k]);
    assert forall j :: 0 <= j < k ==> rows[j].version == VersionOf(all[j]);
  }

  lemma PrefixGrows(all: seq<Name>, i: nat)
    requires i < |all|
    ensures RowsOf(all[..i + 1]) == RowsOf(all[..i]) + [Row(VersionOf(all[i]), all[i])]
    ensures Ups(all[..i + 1]) == Ups(all[..i]) + [Up(all[i])]
  {
    assert all[..i + 1][..i] == all[..i];
  }

  lemma {:induction false} WithoutAbsent(rows: seq<Row>, version: Units)
    requires !Recorded(rows, version)
    ensures Without(rows, version) == rows
    decreases |rows|
  {
    if rows != [] {
      var before := rows[..|rows| - 1];
      assert forall i :: 0 <= i < |before| ==> before[i] == rows[i];
      WithoutAbsent(before, version);
      assert rows == before + [rows[|rows| - 1]];
    }
  }

  lemma PrefixShrinks(all: seq<Name>, k: nat)
    requires OneVersionEach(all) && 0 < k <= |all|
    ensures Without(RowsOf(all[..k]), VersionOf(all[k - 1])) == RowsOf(all[..k - 1])
    ensures Execute(Ups(all[..k]), Down(all[k - 1])) == Ups(all[..k - 1])
  {
    PrefixGrows(all, k - 1);
    RecordedIffBefore(all, k - 1, k - 1);
    WithoutAbsent(RowsOf(all[..k - 1]), VersionOf(all[k - 1]));
    var rows := RowsOf(all[..k]);
    assert rows[..k - 1] == RowsOf(all[..k - 1]);
    var scripts := Ups(all[..k]);
    assert scripts[..k - 1] == Ups(all[..k - 1]);
  }

  /** The names from the i-th on that are not among the first k. */
  function Behind(all: seq<Name>, k: nat, i: nat): seq<Name>
    requires i <= |all|
  {
    if k <= i then all[i..] else if k <= |all| then all[k..] else []
  }

  lemma PendingStep(all: seq<Name>, rows: seq<Row>, i: nat)
    requires i < |all|
    ensures Pending(all[i..], rows) ==
            (if Recorded(rows, VersionOf(all[i])) then [] else [all[i]]) + Pending(all[i + 1..], rows)
  {
    assert all[i..][0] == all[i] && all[i..][1..] == all[i + 1..];
  }

  lemma BehindStep(all: seq<Name>, k: nat, i: nat)
    requires i < |all|
    ensures Behind(all, k, i) == (if i < k then [] else [all[i]]) + Behind(all, k, i + 1)
  {
    if k <= i {
      assert all[i..] == [all[i]] + all[i + 1..];
    }
  }

  lemma {:induction false} PendingIsRest(all: seq<Name>, rows: seq<Row>, k: nat, i: nat)
    requires i <= |all| && forall j :: 0 <= j < |all| ==> (Recorded(rows, VersionOf(all[j])) <==> j < k)
    ensures Pending(all[i..], rows) == Behind(all, k, i)
    decreases |all| - i
  {
    if i == |all| {
      assert all[i..] == [];
    } else {
      PendingStep(all, rows, i);
      PendingIsRest(all, rows, k, i + 1);
      BehindStep(all, k, i);
    }
  }

  lemma PrefixElements<T>(part: seq<T>, whole: seq<T>)
    requires part <= whole
    ensures |part| <= |whole| && forall i :: 0 <= i < |part| ==> part[i] == whole[i]
  {
  }

  lemma PrefixRest<T>(part: seq<T>, whole: seq<T>, k: nat)
    requires k <= |part| <= |whole| && forall i :: 0 <= i < |part| ==> part[i] == whole[i]
    ensures part[k..] == whole[k..|part|]
  {
    forall i | 0 <= i < |part| - k ensures part[k..][i] == whole[k..|part|][i] {
      assert part[k + i] == whole[k + i];
    }
  }

  /** In a directory that is a prefix of the lineage, what is pending is what lies behind the prefix applied. */
  lemma PendingIsBehind(lineage: seq<Name>, all: seq<Name>, k: nat)
    requires OneVersionEach(lineage) && all <= lineage && k <= |lineage|
    ensures Pending(all, RowsOf(lineage[..k])) == if k <= |all| then lineage[k..|all|] else []
  {
    var rows := RowsOf(lineage[..k]);
    PrefixElements(all, lineage);
    forall j | 0 <= j < |all| ensures Recorded(rows, VersionOf(all[j])) <==> j < k {
      RecordedIffBefore(lineage, k, j);
    }
    PendingFromStart(all, rows, k);
    if k <= |all| {
      PrefixRest(all, lineage, k);
    }
  }

  lemma PendingFromStart(all: seq<Name>, rows: seq<Row>, k: nat)
    requires forall j :: 0 <= j < |all| ==> (Recorded(rows, VersionOf(all[j])) <==> j < k)
    ensures Pending(all, rows) == if k <= |all| then all[k..] else []
  {
    PendingIsRest(all, rows, k, 0);
    assert all[0..] == all;
  }

  lemma AppliedExtends(lineage: seq<Name>, k: nat, n: nat)
    requires k + n <= |lineage|
    ensures Applied(At(lineage, k), lineage[k..k + n]) == At(lineage, k + n)
  {
    assert lineage[..k + n] == lineage[..k] + lineage[k..k + n];
    Concatenated(lineage[..k], lineage[k..k + n]);
  }

  lemma Concatenated(a: seq<Name>, b: seq<Name>)
    ensures RowsOf(a + b) == RowsOf(a) + RowsOf(b)
    ensures Ups(a + b) == Ups(a) + Ups(b)
  {
  }

  lemma PendingOfTables(lineage: seq<Name>, all: seq<Name>, t: Tables)
    requires Lineage(lineage) && AtPrefixOf(lineage, t) && all <= lineage
    ensures |all| <= |lineage|
    ensures Pending(all, t.rows) == if |t.rows| <= |all| then lineage[|t.rows|..|all|] else []
  {
    PendingIsBehind(lineage, all, |t.rows|);
  }

  /** The names are the next ones of the lineage. */
  ghost predicate Follows(lineage: seq<Name>, k: nat, names: seq<Name>) {
    names == [] || (k + |names| <= |lineage| && names == lineage[k..k + |names|])
  }

  lemma FirstFollow(lineage: seq<Name>, k: nat, names: seq<Name>, n: nat)
    requires Follows(lineage, k, names) && n <= |names|
    ensures Follows(lineage, k, names[..n])
  {
    if n > 0 {
      assert lineage[k..k + |names|][..n] == lineage[k..k + n];
    }
  }

  lemma PendingFollows(lineage: seq<Name>, all: seq<Name>, t: Tables)
    requires Lineage(lineage) && AtPrefixOf(lineage, t) && all <= lineage
    ensures Follows(lineage, |t.rows|, Pending(all, t.rows))
    ensures |all| <= |t.rows| + |Pending(all, t.rows)|
  {
    PendingOfTables(lineage, all, t);
  }

  lemma FollowingKeepsPrefix(lineage: seq<Name>, t: Tables, names: seq<Name>)
    requires AtPrefixOf(lineage, t) && Follows(lineage, |t.rows|, names)
    ensures AtPrefixOf(lineage, Applied(t, names)) && |Applied(t, names).rows| == |t.rows| + |names|
  {
    if names == [] {
      AppliedNone(t);
    } else {
      AppliedExtends(lineage, |t.rows|, |names|);
    }
  }

  lemma UpKeepsPrefix(lineage: seq<Name>, all: seq<Name>, t: Tables, n: nat)
    requires Lineage(lineage) && AtPrefixOf(lineage, t) && all <= lineage && n <= |Pending(all, t.rows)|
    ensures AtPrefixOf(lineage, Applied(t, Pending(all, t.rows)[..n]))
    ensures n == |Pending(all, t.rows)| ==> |all| <= |Applied(t, Pending(all, t.rows)[..n]).rows|
  {
    PendingFollows(lineage, all, t);
    FirstFollow(lineage, |t.rows|, Pending(all, t.rows), n);
    FollowingKeepsPrefix(lineage, t, Pending(all, t.rows)[..n]);
  }

  /** In one lineage no version is refused. */
  lemma NoConflict(lineage: seq<Name>, all: seq<Name>, t: Tables, n: nat)
    requires Lineage(lineage) && AtPrefixOf(lineage, t) && all <= lineage && n <= |Pending(all, t.rows)|
    ensures !Conflicts(Applied(t, Pending(all, t.rows)[..n]).rows, Pending(all, t.rows), n)
  {
    var pending, k := Pending(all, t.rows), |t.rows|;
    PendingFollows(lineage, all, t);
    if n < |pending| {
      FirstFollow(lineage, k, pending, n);
      FollowingKeepsPrefix(lineage, t, pending[..n]);
      FollowIndex(lineage, k, pending, n);
      NextIsUnrecorded(lineage, Applied(t, pending[..n]));
    }
  }

  lemma FollowIndex(lineage: seq<Name>, k: nat, names: seq<Name>, n: nat)
    requires Follows(lineage, k, names) && n < |names|
    ensures k + n < |lineage| && names[n] == lineage[k + n]
  {
  }

  lemma NextIsUnrecorded(lineage: seq<Name>, t: Tables)
    requires Lineage(lineage) && AtPrefixOf(lineage, t) && |t.rows| < |lineage|
    ensures !Recorded(t.rows, VersionOf(lineage[|t.rows|]))
  {
    RecordedIffBefore(lineage, |t.rows|, |t.rows|);
  }

  lemma NamesAreVersioned(lineage: seq<Name>, ups: seq<Name>)
    requires Lineage(lineage) && Sort(ByNumber(), ups) <= lineage
    ensures forall m :: m in Sort(ByText(), ups) ==> HasUnderscore(m)
  {
    PrefixOfLineage(lineage, Sort(ByNumber(), ups));
    SortKeeps(ByNumber(), ups);
    SortKeeps(ByText(), ups);
    SameElements(Sort(ByNumber(), ups), Sort(ByText(), ups));
  }

  lemma {:induction false} PendingIgnores(names: seq<Name>, rows: seq<Row>, row: Row)
    requires forall m :: m in names ==> VersionOf(m) != row.version
    ensures Pending(names, rows + [row]) == Pending(names, rows)
    decreases |names|
  {
    if names != [] {
      PendingIgnores(names[1..], rows, row);
      OtherVersionUnaffected(rows, row, VersionOf(names[0]));
    }
  }

  lemma OtherVersionUnaffected(rows: seq<Row>, row: Row, version: Units)
    requires version != row.version
    ensures Recorded(rows + [row], version) <==> Recorded(rows, version)
  {
    if Recorded(rows, version) {
      var i :| 0 <= i < |rows| && rows[i].version == version;
      assert (rows + [row])[i].version == version;
    }
  }

  /** When each version is used once, it makes no difference when it is looked up. */
  lemma {:induction false} FreshIsPending(names: seq<Name>, rows: seq<Row>)
    requires OneVersionEach(names)
    ensures Fresh(names, rows) == Pending(names, rows)
    decreases |names|
  {
    if names != [] {
      var row := Row(VersionOf(names[0]), names[0]);
      assert RowsOf([names[0]]) == [row];
      FreshIsPending(names[1..], rows);
      FreshIsPending(names[1..], rows + [row]);
      PendingIgnores(names[1..], rows, row);
    }
  }

  lemma PrefixOfLineage(lineage: seq<Name>, all: seq<Name>)
    requires Lineage(lineage) && all <= lineage
    ensures AllVersioned(all) && Uncrossed(all) && Discriminates(ByNumber(), all) && OneVersionEach(all)
  {
    PrefixElements(all, lineage);
    forall m | m in all ensures m in lineage {
      var i :| 0 <= i < |all| && all[i] == m;
      assert lineage[i] == m;
    }
    forall a, b | a in all && b in all && ByNumber()(a, b) && ByNumber()(b, a) ensures a == b {
      var i :| 0 <= i < |all| && all[i] == a;
      var j :| 0 <= j < |all| && all[j] == b;
    }
  }

  /** In one lineage the Go runner selects what the Node runner does. */
  lemma GoSelectsPending(lineage: seq<Name>, ups: seq<Name>, rows: seq<Row>)
    requires Lineage(lineage) && Sort(ByNumber(), ups) <= lineage
    ensures Fresh(Sort(ByText(), ups), rows) == Pending(Sort(ByNumber(), ups), rows)
  {
    var all := Sort(ByNumber(), ups);
    PrefixOfLineage(lineage, all);
    SortSorts(ByNumber(), ups);
    SameElements(ups, all);
    NoTies(ups);
    OrdersAgreeIff(ups);
    FreshIsPending(all, rows);
  }

  // ---- going down ----

  lemma {:induction false} LatestIsGreatest(rows: seq<Row>, i: nat)
    requires i < |rows|
    ensures Latest(rows) in rows && UnitsLe(rows[i].version, Latest(rows).version)
    decreases |rows|
  {
    var before, last := rows[..|rows| - 1], rows[|rows| - 1];
    UnitsTotal(last.version, last.version);
    if |rows| > 1 {
      LatestIsGreatest(before, if i < |before| then i else 0);
      UnitsTotal(Latest(before).version, last.version);
      if i < |before| && UnitsLe(Latest(before).version, last.version) {
        UnitsTransitive(rows[i].version, Latest(before).version, last.version);
      }
    }
  }

  /** The versions are listed by number, each number once. */
  ghost predicate ByNumbers(all: seq<Name>) {
    AllVersioned(all) && forall i, j :: 0 <= i < j < |all| ==> Number(VersionOf(all[i])) < Number(VersionOf(all[j]))
  }

  lemma LatestIsLast(all: seq<Name>, k: nat)
    requires ByNumbers(all) && 0 < k <= |all|
    requires forall i :: 0 <= i < k - 1 ==> !StrictlyCrossed(all[i], all[k - 1])
    ensures Latest(RowsOf(all[..k])) == Row(VersionOf(all[k - 1]), all[k - 1])
  {
    var rows, last := RowsOf(all[..k]), all[k - 1];
    LatestIsGreatest(rows, k - 1);
    var i :| 0 <= i < k && rows[i] == Latest(rows);
    if i < k - 1 {
      LaterIsGreater(all, i, k - 1);
    }
  }

  lemma LaterIsGreater(all: seq<Name>, i: nat, j: nat)
    requires ByNumbers(all) && i < j < |all| && !StrictlyCrossed(all[i], all[j])
    ensures !UnitsLe(VersionOf(all[j]), VersionOf(all[i]))
  {
    assert all[i] in all && all[j] in all;
    LaterVersionIsGreater(all[i], all[j]);
  }

  /** With the first k migrations applied, going down picks the one applied last. */
  predicate PicksLast(all: seq<Name>, k: nat)
    requires 0 < k <= |all|
  {
    Latest(RowsOf(all[..k])) == Row(VersionOf(all[k - 1]), all[k - 1])
  }

  lemma PickedIsGreatest(all: seq<Name>, i: nat, j: nat)
    requires ByNumbers(all) && i < j < |all| && PicksLast(all, j + 1)
    ensures !StrictlyCrossed(all[i], all[j])
  {
    assert all[i] in all && all[j] in all;
    LatestIsGreatest(RowsOf(all[..j + 1]), i);
    VersionTextIff(all[i], all[j]);
  }

  /** Going down picks the migration applied last, at every prefix, exactly when no pair is strictly crossed. */
  lemma LatestIsLastIff(all: seq<Name>)
    requires ByNumbers(all)
    ensures (forall k :: 0 < k <= |all| ==> PicksLast(all, k)) <==>
            (forall i, j :: 0 <= i < j < |all| ==> !StrictlyCrossed(all[i], all[j]))
  {
    if forall k :: 0 < k <= |all| ==> PicksLast(all, k) {
      forall i, j | 0 <= i < j < |all| ensures !StrictlyCrossed(all[i], all[j]) {
        PickedIsGreatest(all, i, j);
      }
    } else if forall i, j :: 0 <= i < j < |all| ==> !StrictlyCrossed(all[i], all[j]) {
      forall k | 0 < k <= |all| ensures PicksLast(all, k) {
        LatestIsLast(all, k);
      }
    }
  }

  lemma LineageGoesDownInOrder(lineage: seq<Name>, k: nat)
    requires Lineage(lineage) && 0 < k <= |lineage|
    ensures Latest(RowsOf(lineage[..k])) == Row(VersionOf(lineage[k - 1]), lineage[k - 1])
  {
    forall i | 0 <= i < k - 1 ensures !StrictlyCrossed(lineage[i], lineage[k - 1]) {
      assert lineage[i] in lineage && lineage[k - 1] in lineage;
      assert !Crossed(lineage[i], lineage[k - 1]);
    }
    LatestIsLast(lineage, k);
  }

  lemma FoundInLineage(lineage: seq<Name>, all: seq<Name>, k: nat)
    requires OneVersionEach(lineage) && all <= lineage && k < |lineage| && Listed(all, VersionOf(lineage[k]))
    ensures FindVersion(all, VersionOf(lineage[k])) == lineage[k]
  {
    var found := FindVersion(all, VersionOf(lineage[k]));
    PrefixElements(all, lineage);
    var i :| 0 <= i < |all| && all[i] == found;
    assert lineage[i] == found;
  }

  lemma DownKeepsPrefix(lineage: seq<Name>, all: seq<Name>, t: Tables)
    requires Lineage(lineage) && AtPrefixOf(lineage, t) && all <= lineage && t.rows != []
    requires Listed(all, Latest(t.rows).version)
    ensures AtPrefixOf(lineage, Reverted(t, FindVersion(all, Latest(t.rows).version)))
    ensures |Reverted(t, FindVersion(all, Latest(t.rows).version)).rows| == |t.rows| - 1
  {
    LineageGoesDownInOrder(lineage, |t.rows|);
    FoundInLineage(lineage, all, |t.rows| - 1);
    PrefixShrinks(lineage, |t.rows|);
  }

  // ---- the runners ----

  class Database {
    /** Whether the i-th script or commit breaks. */
    const breaks: nat -> bool
    var statements: nat
    var rows: seq<Row>
    var schema: seq<Script>

    constructor (breaks: nat -> bool, rows: seq<Row>, schema: seq<Script>)
      ensures this.breaks == breaks && statements == 0 && this.rows == rows && this.schema == schema
    {
      this.breaks, statements, this.rows, this.schema := breaks, 0, rows, schema;
    }

    ghost function Contents(): Tables
      reads this
    {
      Tables(rows, schema)
    }

    /**
     One migration in its own transaction: script and tracking row are committed together or not at all; a
     connection lost around the commit leaves the runner with an error either way.
     */
    method Apply(name: Name) returns (ok: bool)
      modifies this
      ensures Contents() == old(Contents()) || Contents() == Applied(old(Contents()), [name])
      ensures ok ==> Contents() == Applied(old(Contents()), [name])
      ensures Recorded(old(rows), VersionOf(name)) ==> !ok && Contents() == old(Contents())
      ensures statements == old(statements) + 1
      ensures ok <==> !breaks(old(statements)) && !Recorded(old(rows), VersionOf(name))
    {
      var broken := breaks(statements);
      statements := statements + 1;
      var commits: bool := *;
      if Recorded(rows, VersionOf(name)) || (broken && !commits) {
        return false;
      }
      rows, schema := rows + [Row(VersionOf(name), name)], Execute(schema, Up(name));
      ok := !broken;
      assert RowsOf([name]) == [Row(VersionOf(name), name)] && Ups([name]) == [Up(name)];
    }

    method Revert(name: Name) returns (ok: bool)
      modifies this
      ensures Contents() == old(Contents()) || Contents() == Reverted(old(Contents()), name)
      ensures ok ==> Contents() == Reverted(old(Contents()), name)
      ensures statements == old(statements) + 1 && ok == !breaks(old(statements))
    {
      var broken := breaks(statements);
      statements := statements + 1;
      var commits: bool := *;
      if broken && !commits {
        return false;
      }
      rows, schema := Without(rows, VersionOf(name)), Execute(schema, Down(name));
      ok := !broken;
    }

    /** Apply up to the first error. */
    method ApplyInOrder(pending: seq<Name>) returns (ok: bool, ghost n: nat)
      modifies this
      ensures n <= |pending| && Contents() == Applied(old(Contents()), pending[..n])
      ensures ok ==> n == |pending|
      ensures pending == [] ==> ok
      ensures statements >= old(statements)
      ensures !ok ==> !Smooth(breaks, old(statements), statements) || Conflicts(rows, pending, n)
    {
      ghost var before := Contents();
      n := 0;
      AppliedNone(before);
      for i := 0 to |pending|
        invariant n == i && Contents() == Applied(before, pending[..i]) && statements >= old(statements)
      {
        AppliedOneMore(before, pending[..i], pending[i]);
        assert pending[..i + 1] == pending[..i] + [pending[i]];
        ghost var previous := Contents();
        var applied := Apply(pending[i]);
        if !applied {
          return false, if Contents() == previous then i else i + 1;
        }
        n := n + 1;
      }
      ok := true;
    }

    /** The Node runner going up: what is pending is read once, then applied in order up to the first error. */
    method RunUp(files: Directory) returns (ok: bool, ghost n: nat)
      modifies this
      ensures var pending := Pending(Sort(ByNumber(), files.ups), old(rows));
              && n <= |pending|
              && Contents() == Applied(old(Contents()), pending[..n])
              && (ok ==> n == |pending| && HasAllDowns(files))
              && (pending == [] && HasAllDowns(files) ==> ok)
              && (!ok ==>
                    || !Smooth(breaks, old(statements), statements) || !HasAllDowns(files)
                    || Conflicts(rows, pending, n))
      ensures statements >= old(statements)
    {
      if exists m :: m in files.ups && m !in files.downs {
        AppliedNone(Contents());
        return false, 0;
      }
      ok, n := ApplyInOrder(Pending(Sort(ByNumber(), files.ups), rows));
    }

    /** The Go runner: sorted by whole name, each version looked up just before its script. */
    method Run(files: Directory) returns (ok: bool, ghost n: nat)
      modifies this
      ensures var selection := Fresh(Sort(ByText(), files.ups), old(rows));
              && n <= |selection|
              && Contents() == Applied(old(Contents()), selection[..n])
              && (ok ==> n == |selection| && forall m :: m in Sort(ByText(), files.ups) ==> HasUnderscore(m))
              && (selection == [] && (forall m :: m in Sort(ByText(), files.ups) ==> HasUnderscore(m)) ==> ok)
      ensures statements >= old(statements)
      ensures !ok ==>
                || !Smooth(breaks, old(statements), statements)
                || exists m :: m in Sort(ByText(), files.ups) && !HasUnderscore(m)
    {
      ghost var before := Contents();
      var names := Sort(ByText(), files.ups);
      ghost var selected := Fresh(names, rows);
      n := 0;
      AppliedNone(before);
      assert names[0..] == names;
      for i := 0 to |names|
        invariant n <= |selected| && Contents() == Applied(before, selected[..n]) && statements >= old(statements)
        invariant selected[n..] == Fresh(names[i..], rows)
        invariant forall j :: 0 <= j < i ==> HasUnderscore(names[j])
      {
        assert names[i..][0] == names[i] && names[i..][1..] == names[i + 1..];
        if !HasUnderscore(names[i]) {
          assert names[i] in names;
          return false, n;
        }
        if !Recorded(rows, VersionOf(names[i])) {
          SelectedNext(selected, n, names[i], Fresh(names[i + 1..], rows + RowsOf([names[i]])));
          AppliedOneMore(before, selected[..n], names[i]);
          ghost var previous := Contents();
          var applied := Apply(names[i]);
          if !applied {
            return false, if Contents() == previous then n else n + 1;
          }
          n := n + 1;
        }
      }
      assert names[|names|..] == [];
      ok := true;
    }

    /** The Node runner going down by one: the row with the greatest version, and the first file of that version. */
    method RunDown(files: Directory) returns (ok: bool)
      modifies this
      ensures Contents() == old(Contents()) || DownStep(files, old(Contents()), Contents())
      ensures ok && old(rows) != [] ==> DownStep(files, old(Contents()), Contents())
      ensures old(rows) == [] ==> ok && Contents() == old(Contents())
      ensures statements >= old(statements)
      ensures !ok ==> !Smooth(breaks, old(statements), statements) || !CanGoDown(files, old(rows))
    {
      if rows == [] {
        return true;
      }
      var last := Latest(rows);
      if exists m :: m in files.ups && m !in files.downs {
        return false;
      }
      var all := Sort(ByNumber(), files.ups);
      if !Listed(all, last.version) {
        return false;
      }
      ok := Revert(FindVersion(all, last.version));
    }

    method Obey(command: Command, ghost lineage: seq<Name>, ghost first: nat) returns (ok: bool)
      requires Lineage(lineage) && AtPrefixOf(lineage, Contents()) && first <= statements
      requires Sort(ByNumber(), command.files.ups) <= lineage
      modifies this
      ensures AtPrefixOf(lineage, Contents())
      ensures ok && !command.NodeDown? ==> |command.files.ups| <= |rows|
      ensures statements >= old(statements)
      ensures !ok ==>
                || !Smooth(breaks, first, statements)
                || (if command.NodeDown? then !CanGoDown(command.files, old(rows)) else !HasAllDowns(command.files))
    {
      ghost var before, n := Contents(), 0;
      ghost var all, middle := Sort(ByNumber(), command.files.ups), statements;
      match command {
        case NodeUp(files) =>
          ok, n := RunUp(files);
          UpKeepsPrefix(lineage, all, before, n);
          NoConflict(lineage, all, before, n);
        case GoUp(files) =>
          GoSelectsPending(lineage, files.ups, before.rows);
          NamesAreVersioned(lineage, files.ups);
          ok, n := Run(files);
          UpKeepsPrefix(lineage, all, before, n);
        case NodeDown(files) =>
          ok := RunDown(files);
          if Contents() != before {
            DownKeepsPrefix(lineage, all, before);
          }
      }
      if !Smooth(breaks, middle, statements) {
        BrokeEarlier(breaks, first, middle, statements);
      }
    }

    /**
     A history of deployments with failures anywhere.  Each command carries the directory of its own release: the
     migrations of one lineage up to some point, in any order of releases.  The tables are always at a prefix of
     the lineage, and an up command that succeeds leaves nothing of its directory behind.
     */
    method Serve(commands: seq<Command>, ghost lineage: seq<Name>) returns (lastOk: bool)
      requires Lineage(lineage) && AtPrefixOf(lineage, Contents())
      requires forall c :: c in commands ==> Sort(ByNumber(), c.files.ups) <= lineage
      modifies this
      ensures AtPrefixOf(lineage, Contents())
      ensures lastOk && commands != [] && !commands[|commands| - 1].NodeDown? ==>
                |commands[|commands| - 1].files.ups| <= |rows|
      ensures statements >= old(statements)
      ensures Smooth(breaks, old(statements), statements) && commands != [] ==>
                (!commands[|commands| - 1].NodeDown? && HasAllDowns(commands[|commands| - 1].files) ==> lastOk)
    {
      lastOk := true;
      for i := 0 to |commands|
        invariant AtPrefixOf(lineage, Contents())
        invariant lastOk && i > 0 && !commands[i - 1].NodeDown? ==> |commands[i - 1].files.ups| <= |rows|
        invariant statements >= old(statements)
        invariant !lastOk && i > 0 && !commands[i - 1].NodeDown? && HasAllDowns(commands[i - 1].files) ==>
                    !Smooth(breaks, old(statements), statements)
      {
        lastOk := Obey(commands[i], lineage, old(statements));
      }
    }
  }
}
