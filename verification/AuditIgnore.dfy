/** The npm audit filter (deploy/dev/audit-high.js): which findings are excused by the patched brace-expansion. */
module AuditIgnore {
  // ---- installed versions ----

  datatype Field = Absent | Text(value: string) | Other

  datatype Tree = Tree(name: Field, version: Field, dependencies: seq<Dependency>)
  datatype Dependency = Dependency(key: string, tree: Tree)

  /** A dependency is named by its key unless its own record has a name field. */
  function NameOf(dependency: Dependency): (name: Field)
    ensures dependency.tree.name.Absent? <==> name != dependency.tree.name
    ensures dependency.tree.name.Absent? ==> name == Text(dependency.key)
  {
    if dependency.tree.name.Absent? then Text(dependency.key) else dependency.tree.name
  }

  /** The version of an installed package called `wanted`. */
  predicate Installs(name: Field, tree: Tree, wanted: string, version: string) {
    name == Text(wanted) && tree.version == Text(version)
  }

  /** Some node of the tree, at any depth, installs that version. */
  ghost predicate InstalledIn(name: Field, tree: Tree, wanted: string, version: string)
    decreases tree
  {
    || Installs(name, tree, wanted, version)
    || exists d :: d in tree.dependencies && InstalledIn(NameOf(d), d.tree, wanted, version)
  }

  method CollectDependencyVersions(name: Field, tree: Tree, wanted: string, versions: set<string>)
      returns (r: set<string>)
    ensures forall v :: v in r <==> v in versions || InstalledIn(name, tree, wanted, v)
    decreases tree
  {
    r := versions;
    if name == Text(wanted) && tree.version.Text? {
      r := r + {tree.version.value};
    }
    for i := 0 to |tree.dependencies|
      invariant forall v :: v in r <==>
        || v in versions
        || Installs(name, tree, wanted, v)
        || exists d :: d in tree.dependencies[..i] && InstalledIn(NameOf(d), d.tree, wanted, v)
    {
      var d := tree.dependencies[i];
      r := CollectDependencyVersions(NameOf(d), d.tree, wanted, r);
      assert tree.dependencies[..i + 1] == tree.dependencies[..i] + [d];
    }
    assert tree.dependencies[..|tree.dependencies|] == tree.dependencies;
  }

  // ---- which findings are ignored ----

  datatype Via = Name(name: string) | Advisory(url: string)

  datatype Vulnerability = Vulnerability(name: string, via: seq<Via>)

  datatype Report = Report(found: map<string, Vulnerability>, installed: set<string>)

  const PATCHED_VERSIONS: set<string> := {"1.1.18", "2.1.4", "5.0.9"}
  const PATCHED_ADVISORIES: set<string> :=
    {"https://github.com/advisories/GHSA-mh99-v99m-4gvg", "https://github.com/advisories/GHSA-rgw5-rvv9-x895"}

  predicate Patched(v: Vulnerability, installed: set<string>) {
    && v.name == "brace-expansion"
    && installed != {}
    && (exists e :: e in v.via && e.Advisory?)
    && (forall e :: e in v.via && e.Advisory? ==> e.url in PATCHED_ADVISORIES)
    && installed <= PATCHED_VERSIONS
  }

  /** The finding is only inherited: it names other findings and carries no advisory of its own. */
  predicate Inherited(v: Vulnerability) {
    v.via != [] && forall e :: e in v.via ==> e.Name?
  }

  /** Excused by at most k rounds of the rule, never through a name in `without`. */
  ghost predicate Excused(report: Report, k: nat, without: set<string>, name: string) {
    && name !in without
    && name in report.found
    && var v := report.found[name];
       || Patched(v, report.installed)
       || (k > 0 && Inherited(v) && forall e :: e in v.via ==> Excused(report, k - 1, without, e.name))
  }

  /** The least set closed under the rule; IgnorableIsClosed and IgnorableIsLeast say that it is. */
  ghost predicate Ignorable(report: Report, name: string) {
    exists k: nat :: Excused(report, k, {}, name)
  }

  /** The rule derives name from the given set of names. */
  predicate Rule(report: Report, names: set<string>, name: string) {
    && name in report.found
    && var v := report.found[name];
       || Patched(v, report.installed)
       || (Inherited(v) && forall e :: e in v.via ==> e.name in names)
  }

  lemma {:induction false} MoreRounds(report: Report, k: nat, m: nat, without: set<string>, name: string)
    requires Excused(report, k, without, name) && k <= m
    ensures Excused(report, m, without, name)
    decreases k
  {
    var v := report.found[name];
    if !Patched(v, report.installed) {
      forall e | e in v.via ensures Excused(report, m - 1, without, e.name) {
        MoreRounds(report, k - 1, m - 1, without, e.name);
      }
    }
  }

  lemma {:induction false} RoundsForAll(report: Report, via: seq<Via>) returns (k: nat)
    requires forall e :: e in via ==> e.Name? && Ignorable(report, e.name)
    ensures forall e :: e in via ==> Excused(report, k, {}, e.name)
    decreases |via|
  {
    if via == [] {
      k := 0;
    } else {
      var rest := RoundsForAll(report, via[1..]);
      var first: nat :| Excused(report, first, {}, via[0].name);
      k := if first < rest then rest else first;
      forall e | e in via ensures Excused(report, k, {}, e.name) {
        if e == via[0] {
          MoreRounds(report, first, k, {}, e.name);
        } else {
          MoreRounds(report, rest, k, {}, e.name);
        }
      }
    }
  }

  /** The ignorable names are closed under the rule ... */
  lemma IgnorableIsClosed(report: Report, names: set<string>, name: string)
    requires (forall n :: n in names ==> Ignorable(report, n)) && Rule(report, names, name)
    ensures Ignorable(report, name)
  {
    var v := report.found[name];
    if Patched(v, report.installed) {
      assert Excused(report, 0, {}, name);
    } else {
      var k := RoundsForAll(report, v.via);
      assert Excused(report, k + 1, {}, name);
    }
  }

  /** ... and contained in every set closed under it. */
  lemma IgnorableIsLeast(report: Report, closed: set<string>, name: string)
    requires forall n :: Rule(report, closed, n) ==> n in closed
    requires Ignorable(report, name)
    ensures name in closed
  {
    var k: nat :| Excused(report, k, {}, name);
    ExcusedIsLeast(report, closed, k, name);
  }

  lemma {:induction false} ExcusedIsLeast(report: Report, closed: set<string>, k: nat, name: string)
    requires forall n :: Rule(report, closed, n) ==> n in closed
    requires Excused(report, k, {}, name)
    ensures name in closed
    decreases k
  {
    var v := report.found[name];
    if !Patched(v, report.installed) {
      forall e | e in v.via ensures e.name in closed {
        ExcusedIsLeast(report, closed, k - 1, e.name);
      }
    }
    assert Rule(report, closed, name);
  }

  // ---- what the rule amounts to ----

  /** A finding in brace-expansion itself, all of whose advisories are the two that were patched. */
  predicate OnlyPatchedAdvisories(v: Vulnerability) {
    && v.name == "brace-expansion"
    && (exists e :: e in v.via && e.Advisory?)
    && forall e :: e in v.via && e.Advisory? ==>
         || e.url == "https://github.com/advisories/GHSA-mh99-v99m-4gvg"
         || e.url == "https://github.com/advisories/GHSA-rgw5-rvv9-x895"
  }

  /** Something is installed, and nothing but the three patched versions. */
  predicate OnlyPatchedVersions(installed: set<string>) {
    installed != {} && forall v :: v in installed ==> v == "1.1.18" || v == "2.1.4" || v == "5.0.9"
  }

  lemma PatchedIff(v: Vulnerability, installed: set<string>)
    ensures Patched(v, installed) <==> OnlyPatchedAdvisories(v) && OnlyPatchedVersions(installed)
  {
  }

  /**
   A name is ignorable exactly if it is reported and either its own advisories are all patched and only patched versions
   are installed, or it has no advisory of its own, at least one cause, and only ignorable causes.
   */
  lemma IgnorableIff(report: Report, name: string)
    ensures Ignorable(report, name) <==>
              && name in report.found
              && var v := report.found[name];
                 || (OnlyPatchedAdvisories(v) && OnlyPatchedVersions(report.installed))
                 || (v.via != [] && forall e :: e in v.via ==> e.Name? && Ignorable(report, e.name))
  {
    if Ignorable(report, name) {
      var k: nat :| Excused(report, k, {}, name);
      PatchedIff(report.found[name], report.installed);
      assert Patched(report.found[name], report.installed) ||
             forall e :: e in report.found[name].via ==> Excused(report, k - 1, {}, e.name);
    }
    if name in report.found {
      var v := report.found[name];
      PatchedIff(v, report.installed);
      if Patched(v, report.installed) {
        assert Excused(report, 0, {}, name);
      } else if v.via != [] && forall e :: e in v.via ==> e.Name? && Ignorable(report, e.name) {
        IgnorableIsClosed(report, set e | e in v.via :: e.name, name);
      }
    }
  }

  /** One installed version outside the three, or none at all, excuses nothing. */
  lemma {:induction false} UnpatchedVersionExcusesNothing(report: Report, k: nat, without: set<string>, name: string)
    requires !OnlyPatchedVersions(report.installed)
    ensures !Excused(report, k, without, name)
    decreases k
  {
    if Excused(report, k, without, name) {
      var v := report.found[name];
      PatchedIff(v, report.installed);
      assert v.via[0] in v.via;
      UnpatchedVersionExcusesNothing(report, k - 1, without, v.via[0].name);
      assert false;
    }
  }

  /** No member is patched, and each has an advisory, no cause, or a cause that is a member or not in the report. */
  ghost predicate Unfounded(report: Report, names: set<string>) {
    forall n :: n in names && n in report.found ==>
      var v := report.found[n];
      && !Patched(v, report.installed)
      && (!Inherited(v) || exists e :: e in v.via && e.name in names)
  }

  lemma {:induction false} UnfoundedNotExcused(report: Report, names: set<string>, k: nat, name: string)
    requires Unfounded(report, names) && name in names
    ensures !Excused(report, k, {}, name)
    decreases k
  {
    if name in report.found && k > 0 && Inherited(report.found[name]) {
      var e :| e in report.found[name].via && e.name in names;
      UnfoundedNotExcused(report, names, k - 1, e.name);
    }
  }

  /** Every name the report mentions. */
  function Mentioned(report: Report): set<string> {
    report.found.Keys + (set n, e | n in report.found && e in report.found[n].via && e.Name? :: e.name)
  }

  /** A finding survives exactly when it lies in an unfounded group: a cycle excuses nobody. */
  lemma SurvivesIffUnfounded(report: Report, name: string)
    requires name in report.found
    ensures !Ignorable(report, name) <==> exists names: set<string> :: name in names && Unfounded(report, names)
  {
    if names: set<string> :| name in names && Unfounded(report, names) {
      forall k: nat ensures !Excused(report, k, {}, name) {
        UnfoundedNotExcused(report, names, k, name);
      }
    }
    if !Ignorable(report, name) {
      SurvivorsUnfounded(report);
    }
  }

  ghost function Survivors(report: Report): set<string> {
    set n | n in Mentioned(report) && !Ignorable(report, n)
  }

  lemma SurvivorsUnfounded(report: Report)
    ensures Unfounded(report, Survivors(report))
  {
    forall n | n in Survivors(report) && n in report.found
      ensures !Patched(report.found[n], report.installed)
      ensures !Inherited(report.found[n]) || exists e :: e in report.found[n].via && e.name in Survivors(report)
    {
      var v := report.found[n];
      assert Patched(v, report.installed) ==> Excused(report, 0, {}, n);
      if Inherited(v) && forall e :: e in v.via ==> e.name !in Survivors(report) {
        assert forall e :: e in v.via ==> e.name in Mentioned(report);
        var names := set e | e in v.via :: e.name;
        IgnorableIsClosed(report, names, n);
      }
    }
  }

  // ---- the search ----

  /** The heart of the cycle check: a name with no short excuse is of no use in anybody's short excuse. */
  lemma {:induction false} UselessCanBeRemoved(report: Report, j: nat, i: nat, without: set<string>, x: string,
                                               y: string)
    requires !Excused(report, j, without, x) && i <= j
    requires Excused(report, i, without, y)
    ensures Excused(report, i, without + {x}, y)
    decreases i
  {
    if y == x {
      MoreRounds(report, i, j, without, y);
    } else {
      var v := report.found[y];
      if !Patched(v, report.installed) {
        forall e | e in v.via ensures Excused(report, i - 1, without + {x}, e.name) {
          UselessCanBeRemoved(report, j, i - 1, without, x, e.name);
        }
      }
    }
  }

  lemma {:induction false} BlockedCauseBlocks(report: Report, k: nat, without: set<string>, x: string, e: Via)
    requires x in report.found && !Patched(report.found[x], report.installed) && e in report.found[x].via && e.Name?
    requires forall i: nat :: !Excused(report, i, without + {x}, e.name)
    ensures !Excused(report, k, without, x)
    decreases k
  {
    if k > 0 && Excused(report, k, without, x) {
      BlockedCauseBlocks(report, k - 1, without, x, e);
      UselessCanBeRemoved(report, k - 1, k - 1, without, x, e.name);
      assert false;
    }
  }

  lemma SmallerOutside(keys: set<string>, visiting: set<string>, name: string)
    requires name in keys && name !in visiting
    ensures |keys - (visiting + {name})| < |keys - visiting|
  {
    assert keys - visiting == (keys - (visiting + {name})) + {name};
  }

  ghost function Unresolved(report: Report, keys: seq<string>): (unresolved: seq<string>)
    ensures forall n :: n in unresolved <==> n in keys && !Ignorable(report, n)
  {
    if keys == [] then []
    else
      var rest := Unresolved(report, keys[..|keys| - 1]);
      if Ignorable(report, keys[|keys| - 1]) then rest else rest + [keys[|keys| - 1]]
  }

  lemma {:induction false} NothingExcused(report: Report, keys: seq<string>)
    requires !OnlyPatchedVersions(report.installed)
    ensures Unresolved(report, keys) == keys
  {
    if keys != [] {
      var last := keys[|keys| - 1];
      NothingExcused(report, keys[..|keys| - 1]);
      forall k: nat ensures !Excused(report, k, {}, last) {
        UnpatchedVersionExcusesNothing(report, k, {}, last);
      }
    }
  }

  class Audit {
    const report: Report
    var ignored: set<string>

    constructor (report: Report)
      ensures this.report == report && ignored == {}
    {
      this.report := report;
      ignored := {};
    }

    ghost predicate Valid()
      reads this
    {
      forall n :: n in ignored ==> Ignorable(report, n)
    }

    /** The memo holds only positive answers; a negative answer is about the names not being visited. */
    method IsIgnored(name: string, visiting: set<string>) returns (r: bool)
      requires Valid()
      modifies this
      ensures Valid() && old(ignored) <= ignored
      ensures r ==> name in ignored
      ensures !r ==> forall k: nat :: !Excused(report, k, visiting, name)
      decreases |report.found.Keys - visiting|
    {
      if name in ignored {
        return true;
      }
      if name in visiting || name !in report.found {
        return false;
      }
      var v := report.found[name];
      if Patched(v, report.installed) {
        assert Excused(report, 0, {}, name);
        ignored := ignored + {name};
        return true;
      }
      if !Inherited(v) {
        return false;
      }
      SmallerOutside(report.found.Keys, visiting, name);
      for i := 0 to |v.via|
        invariant Valid() && old(ignored) <= ignored
        invariant forall j :: 0 <= j < i ==> v.via[j].name in ignored
      {
        assert v.via[i] in v.via;
        var every := IsIgnored(v.via[i].name, visiting + {name});
        if !every {
          forall k: nat ensures !Excused(report, k, visiting, name) {
            BlockedCauseBlocks(report, k, visiting, name, v.via[i]);
          }
          return false;
        }
      }
      IgnorableIsClosed(report, ignored, name);
      ignored := ignored + {name};
      r := true;
    }

    /** The findings that are not ignorable, in the report's own order. */
    method UnresolvedVulnerabilities(keys: seq<string>) returns (unresolved: seq<string>)
      requires Valid()
      modifies this
      ensures unresolved == Unresolved(report, keys)
      ensures forall name :: name in unresolved <==> name in keys && !Ignorable(report, name)
      ensures !OnlyPatchedVersions(report.installed) ==> unresolved == keys
    {
      unresolved := [];
      for i := 0 to |keys|
        invariant Valid()
        invariant unresolved == Unresolved(report, keys[..i])
      {
        var skip := IsIgnored(keys[i], {});
        assert keys[..i + 1][..i] == keys[..i];
        if !skip {
          unresolved := unresolved + [keys[i]];
        }
      }
      assert keys[..|keys|] == keys;
      if !OnlyPatchedVersions(report.installed) {
        NothingExcused(report, keys);
      }
    }
  }
  /** The whole filter: an installed version beside the three patched ones, anywhere in the tree, excuses nothing. */
  method Filter(found: map<string, Vulnerability>, root: Tree, keys: seq<string>)
      returns (unresolved: seq<string>, ghost report: Report)
    ensures report.found == found
    ensures forall v :: v in report.installed <==> InstalledIn(root.name, root, "brace-expansion", v)
    ensures unresolved == Unresolved(report, keys)
    ensures (exists v ::
               && InstalledIn(root.name, root, "brace-expansion", v)
               && v != "1.1.18" && v != "2.1.4" && v != "5.0.9") ==> unresolved == keys
    ensures (forall v :: !InstalledIn(root.name, root, "brace-expansion", v)) ==> unresolved == keys
  {
    var installed := CollectDependencyVersions(root.name, root, "brace-expansion", {});
    report := Report(found, installed);
    var audit := new Audit(Report(found, installed));
    unresolved := audit.UnresolvedVulnerabilities(keys);
  }
}
