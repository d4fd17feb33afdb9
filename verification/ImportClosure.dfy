/** The dependency closure of scripts/generate_hardening_manifest.py: a worklist over the local imports of governed files. */
module ImportClosure {
  import opened Common

  type File = nat

  /** The project's files and, for each, the local files it imports. */
  datatype Project = Project(files: set<File>, imports: map<File, set<File>>)

  /** Imports are resolved only to files that exist. */
  predicate ProjectOk(p: Project) {
    p.imports.Keys == p.files && forall f :: f in p.imports ==> p.imports[f] <= p.files
  }

  function ImportsOf(p: Project, f: File): set<File> {
    if f in p.imports then p.imports[f] else {}
  }

  /** A chain of imports from an existing entry point to f. */
  predicate Chain(p: Project, entries: set<File>, path: seq<File>, f: File) {
    && path != [] && path[0] in entries && path[0] in p.files && path[|path| - 1] == f
    && forall i :: 0 <= i < |path| - 1 ==> path[i + 1] in ImportsOf(p, path[i])
  }

  ghost predicate Reachable(p: Project, entries: set<File>, f: File) {
    exists path: seq<File> :: Chain(p, entries, path, f)
  }

  /** Contains the existing entry points and every import of its members. */
  predicate ClosedUnderImports(p: Project, entries: set<File>, s: set<File>) {
    && entries * p.files <= s
    && forall f :: f in s ==> ImportsOf(p, f) <= s
  }

  lemma {:induction false} ChainStaysInside(p: Project, entries: set<File>, s: set<File>, path: seq<File>, f: File)
    requires ClosedUnderImports(p, entries, s) && Chain(p, entries, path, f)
    ensures f in s
    decreases |path|
  {
    if |path| > 1 {
      var shorter := path[..|path| - 1];
      assert Chain(p, entries, shorter, shorter[|shorter| - 1]);
      ChainStaysInside(p, entries, s, shorter, shorter[|shorter| - 1]);
      assert path[|path| - 2 + 1] in ImportsOf(p, path[|path| - 2]);
    } else {
      assert f in entries * p.files;
    }
  }

  lemma ReachableStep(p: Project, entries: set<File>, f: File, g: File)
    requires Reachable(p, entries, f) && g in ImportsOf(p, f)
    ensures Reachable(p, entries, g)
  {
    var path :| Chain(p, entries, path, f);
    var longer := path + [g];
    assert forall i :: 0 <= i < |path| - 1 ==> path[i + 1] in ImportsOf(p, path[i]);
    assert Chain(p, entries, longer, g);
  }

  lemma ReachableEntry(p: Project, entries: set<File>, f: File)
    requires f in entries * p.files
    ensures Reachable(p, entries, f)
  {
    assert Chain(p, entries, [f], f);
  }

  /** A closed set of reachable files is the set of all reachable files, and the least closed set. */
  lemma ClosedReachableIsLeast(p: Project, entries: set<File>, s: set<File>)
    requires ClosedUnderImports(p, entries, s) && forall f :: f in s ==> Reachable(p, entries, f)
    ensures forall f :: f in s <==> Reachable(p, entries, f)
    ensures forall t: set<File> :: ClosedUnderImports(p, entries, t) ==> s <= t
  {
    forall f | Reachable(p, entries, f)
      ensures f in s
    {
      var path :| Chain(p, entries, path, f);
      ChainStaysInside(p, entries, s, path, f);
    }
    forall t: set<File> | ClosedUnderImports(p, entries, t)
      ensures s <= t
    {
      forall f | f in s
        ensures f in t
      {
        var path :| Chain(p, entries, path, f);
        ChainStaysInside(p, entries, t, path, f);
      }
    }
  }

  /** `discover_critical_source_files`: pop a file, add its new imports, until nothing is pending. */
  method Discover(p: Project, entries: set<File>) returns (discovered: set<File>)
    requires ProjectOk(p)
    ensures discovered <= p.files
    ensures forall f :: f in discovered <==> Reachable(p, entries, f)
    ensures ClosedUnderImports(p, entries, discovered)
    ensures forall t: set<File> :: ClosedUnderImports(p, entries, t) ==> discovered <= t
  {
    var pending := ListOf(entries * p.files);
    discovered := entries * p.files;
    forall f | f in discovered
      ensures Reachable(p, entries, f)
    {
      ReachableEntry(p, entries, f);
    }
    while pending != []
      invariant entries * p.files <= discovered <= p.files
      invariant forall f :: f in pending ==> f in discovered
      invariant forall f :: f in discovered ==> Reachable(p, entries, f)
      invariant forall f :: f in discovered && f !in pending ==> ImportsOf(p, f) <= discovered
      decreases |p.files| - |discovered|, |pending|
    {
      hide Reachable;
      var relative := pending[|pending| - 1];
      pending := pending[..|pending| - 1];
      var dependencies := ListOf(ImportsOf(p, relative));
      ghost var before, waiting := discovered, pending;
      assert forall f :: f in before && f !in waiting && f != relative ==> ImportsOf(p, f) <= before;
      for i := 0 to |dependencies|
        invariant before <= discovered <= p.files
        invariant discovered == before ==> pending == waiting
        invariant forall f :: f in pending <==> f in waiting || (f in discovered && f !in before)
        invariant forall f :: f in discovered ==> Reachable(p, entries, f)
        invariant forall k :: 0 <= k < i ==> dependencies[k] in discovered
      {
        var dependency := dependencies[i];
        assert dependency in ImportsOf(p, relative);
        if dependency !in discovered {
          ReachableStep(p, entries, relative, dependency);
          discovered := discovered + {dependency};
          pending := pending + [dependency];
        }
      }
      SmallerRemains(before, discovered, p.files);
    }
    ClosedReachableIsLeast(p, entries, discovered);
  }

  lemma SmallerRemains(before: set<File>, after: set<File>, files: set<File>)
    requires before <= after <= files
    ensures |before| <= |after| <= |files| && (before != after ==> |before| < |after|)
  {
    Subset(before, after);
    Subset(after, files);
  }

  lemma Subset(a: set<File>, b: set<File>)
    requires a <= b
    ensures |a| <= |b| && (a != b ==> |a| < |b|)
  {
    assert b == a + (b - a);
  }

  /** `verify_critical_source_coverage`: succeeds exactly when every reachable file is listed. */
  method VerifyCoverage(p: Project, entries: set<File>, critical: set<File>) returns (covered: bool)
    requires ProjectOk(p)
    ensures covered <==> forall f :: Reachable(p, entries, f) ==> f in critical
  {
    var discovered := Discover(p, entries);
    var omitted := discovered - critical;
    covered := omitted == {};
    if !covered {
      var f :| f in omitted;
      assert Reachable(p, entries, f) && f !in critical;
    } else {
      forall f | Reachable(p, entries, f)
        ensures f in critical
      {
        assert f !in omitted;
      }
    }
  }
}
