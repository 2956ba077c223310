/** `readPackageSources`: the recursive walk over package manifests.

    The source recurses into every dependency with no cycle guard, so a
    dependency cycle ends only when the engine's call stack is exhausted. The
    model makes that limit explicit: `depth` is the number of nested
    `readPackageSources` frames still available, and a call made with none
    left fails with `CallStackExceeded`. */
module Resolver {
  import opened Wrappers
  import opened Manifest

  /** `enbSources.map(s => packageDir + '/' + s)` */
  function OwnPaths(dir: string, sources: seq<string>): (paths: seq<string>)
    ensures |paths| == |sources|
    ensures forall i :: 0 <= i < |sources| ==> dir + "/" <= paths[i] && paths[i][|dir| + 1..] == sources[i]
  {
    seq(|sources|, i requires 0 <= i < |sources| => dir + "/" + sources[i])
  }

  /** A `ParseError` always names an existing manifest that failed to parse,
      and carries that file's own diagnostic. */
  predicate ErrorFromManifest(fs: FileSystem, r: Result<seq<string>, BuildError>) {
    r.Err? && r.error.ParseError? ==> r.error.file in fs && fs[r.error.file] == Malformed(r.error.detail)
  }

  /** Every path in `paths` starts with `prefix`. */
  predicate AllUnder(paths: seq<string>, prefix: string) {
    forall p :: p in paths ==> prefix <= p
  }

  lemma PrefixTransitive(a: string, b: string, c: string)
    requires a <= b && b <= c
    ensures a <= c
  {
  }

  /** The sources collected for the package in `dir`, or the error that
      aborts the walk. */
  function Collect(fs: FileSystem, profile: string, root: string, dir: string, depth: nat): (r: Result<seq<string>, BuildError>)
    decreases depth, 0
    ensures ErrorFromManifest(fs, r)
    ensures r.Ok? ==> forall p :: p in r.value ==> dir + "/" <= p || PackagesDirectory(root) + "/" <= p
  {
    if depth == 0 then Err(CallStackExceeded)
    else
      var file := ManifestPath(dir);
      if file !in fs then Ok([])
      else match fs[file]
        case Malformed(d) => Err(ParseError(file, d))
        case Parsed(json) =>
          if json.enb.None? then Ok([])
          else
            var lists := MergeProfile(json.enb.value, profile);
            match CollectAll(fs, profile, root, lists.dependencies, depth - 1)
            case Err(e) => Err(e)
            case Ok(deps) => Ok(deps + OwnPaths(dir, lists.sources))
  }

  /** The `forEach` over a list of package names: each name's collected
      sources appended in order, the first error aborting. Every name is
      looked up under the project's `node_modules`. */
  function CollectAll(fs: FileSystem, profile: string, root: string, names: seq<string>, depth: nat): (r: Result<seq<string>, BuildError>)
    decreases depth, 1, |names|
    ensures ErrorFromManifest(fs, r)
    ensures r.Ok? ==> AllUnder(r.value, PackagesDirectory(root) + "/")
  {
    if names == [] then Ok([])
    else
      var name := names[|names| - 1];
      match CollectAll(fs, profile, root, names[..|names| - 1], depth)
      case Err(e) => Err(e)
      case Ok(init) =>
        match Collect(fs, profile, root, PackageDir(root, name), depth)
        case Err(e) => Err(e)
        case Ok(last) =>
          var r := init + last;
          assert AllUnder(last, PackagesDirectory(root) + "/") by {
            forall p | p in last ensures PackagesDirectory(root) + "/" <= p {
              var pkg := PackageDir(root, name);
              assert PackagesDirectory(root) + "/" <= pkg + "/";
              if pkg + "/" <= p {
                PrefixTransitive(PackagesDirectory(root) + "/", pkg + "/", p);
              }
            }
          }
          Ok(r)
  }

  /** Once a prefix of the names has failed, the whole list fails with the
      same error: later names are never visited. */
  lemma {:induction false} CollectAllErrorSticks(fs: FileSystem, profile: string, root: string, names: seq<string>, i: nat, depth: nat)
    requires i <= |names|
    requires CollectAll(fs, profile, root, names[..i], depth).Err?
    ensures CollectAll(fs, profile, root, names, depth) == CollectAll(fs, profile, root, names[..i], depth)
    decreases |names| - i
  {
    if i < |names| {
      assert names[..i + 1][..i] == names[..i];
      CollectAllErrorSticks(fs, profile, root, names, i + 1, depth);
    } else {
      assert names[..i] == names;
    }
  }

  /** The source's `readPackageSources`: reads the manifest, merges the
      profile, walks the dependencies in a loop that reassigns `sources`, then
      appends the package's own sources. */
  method ReadPackageSources(fs: FileSystem, profile: string, root: string, dir: string, depth: nat)
    returns (r: Result<seq<string>, BuildError>)
    decreases depth
    ensures r == Collect(fs, profile, root, dir, depth)
  {
    if depth == 0 {
      return Err(CallStackExceeded);
    }
    var sources: seq<string> := [];
    var file := ManifestPath(dir);
    if file in fs {
      match fs[file]
      case Malformed(d) =>
        return Err(ParseError(file, d));
      case Parsed(json) =>
        if json.enb.Some? {
          var lists := MergeProfile(json.enb.value, profile);
          var deps := lists.dependencies;
          var i := 0;
          while i < |deps|
            invariant 0 <= i <= |deps|
            invariant CollectAll(fs, profile, root, deps[..i], depth - 1) == Ok(sources)
          {
            assert deps[..i + 1][..i] == deps[..i];
            var sub := ReadPackageSources(fs, profile, root, PackageDir(root, deps[i]), depth - 1);
            if sub.Err? {
              CollectAllErrorSticks(fs, profile, root, deps, i + 1, depth - 1);
              return Err(sub.error);
            }
            sources := sources + sub.value;
            i := i + 1;
          }
          assert deps[..i] == deps;
          sources := sources + OwnPaths(dir, lists.sources);
        }
    }
    return Ok(sources);
  }

  /** The concatenation, in order, of a list of lists. */
  function Flatten(ls: seq<seq<string>>): seq<string> {
    if ls == [] then [] else Flatten(ls[..|ls| - 1]) + ls[|ls| - 1]
  }

  /** The list each name's package collects on its own (empty on failure). */
  function PerPackage(fs: FileSystem, profile: string, root: string, names: seq<string>, depth: nat): (ls: seq<seq<string>>)
    ensures |ls| == |names|
  {
    seq(|names|, i requires 0 <= i < |names| => Collect(fs, profile, root, PackageDir(root, names[i]), depth).GetOr([]))
  }

  /** A list of names succeeds exactly when every named package succeeds. */
  lemma {:induction false} CollectAllOkIff(fs: FileSystem, profile: string, root: string, names: seq<string>, depth: nat)
    ensures CollectAll(fs, profile, root, names, depth).Ok? <==>
      forall i :: 0 <= i < |names| ==> Collect(fs, profile, root, PackageDir(root, names[i]), depth).Ok?
    decreases |names|
  {
    if names != [] {
      var n := |names| - 1;
      var init := names[..n];
      CollectAllOkIff(fs, profile, root, init, depth);
      assert forall j :: 0 <= j < n ==> init[j] == names[j];
    }
  }

  /** A successful list of names yields the concatenation, in declaration
      order, of each named package's own list. */
  lemma {:induction false} CollectAllIsConcatenation(fs: FileSystem, profile: string, root: string, names: seq<string>, depth: nat)
    requires CollectAll(fs, profile, root, names, depth).Ok?
    ensures CollectAll(fs, profile, root, names, depth).value == Flatten(PerPackage(fs, profile, root, names, depth))
    decreases |names|
  {
    if names != [] {
      var n := |names| - 1;
      var init := names[..n];
      CollectAllIsConcatenation(fs, profile, root, init, depth);
      var ls := PerPackage(fs, profile, root, names, depth);
      assert ls[..n] == PerPackage(fs, profile, root, init, depth);
    }
  }

  /** A failing list of names fails with the error of its FIRST failing
      package, every earlier package having succeeded. */
  lemma {:induction false} CollectAllFirstError(fs: FileSystem, profile: string, root: string, names: seq<string>, depth: nat)
    requires CollectAll(fs, profile, root, names, depth).Err?
    ensures exists k ::
              && 0 <= k < |names|
              && Collect(fs, profile, root, PackageDir(root, names[k]), depth) == Err(CollectAll(fs, profile, root, names, depth).error)
              && forall j :: 0 <= j < k ==> Collect(fs, profile, root, PackageDir(root, names[j]), depth).Ok?
    decreases |names|
  {
    var n := |names| - 1;
    var init := names[..n];
    assert forall j :: 0 <= j < n ==> init[j] == names[j];
    if CollectAll(fs, profile, root, init, depth).Err? {
      CollectAllFirstError(fs, profile, root, init, depth);
      var k :| 0 <= k < |init|
        && Collect(fs, profile, root, PackageDir(root, init[k]), depth) == Err(CollectAll(fs, profile, root, init, depth).error)
        && forall j :: 0 <= j < k ==> Collect(fs, profile, root, PackageDir(root, init[j]), depth).Ok?;
      assert init[k] == names[k];
    } else {
      CollectAllOkIff(fs, profile, root, init, depth);
      assert Collect(fs, profile, root, PackageDir(root, names[n]), depth) == Err(CollectAll(fs, profile, root, names, depth).error);
    }
  }

  /** A package with a parsed `enb` section collects its dependencies' lists,
      in declaration order, followed by `dir + '/' + s` for each of its own
      merged sources: everything dependency-derived comes first. */
  lemma CollectLayout(fs: FileSystem, profile: string, root: string, dir: string, depth: nat)
    requires depth > 0
    requires ManifestPath(dir) in fs && fs[ManifestPath(dir)].Parsed? && fs[ManifestPath(dir)].json.enb.Some?
    ensures var lists := MergeProfile(fs[ManifestPath(dir)].json.enb.value, profile);
      var r := Collect(fs, profile, root, dir, depth);
      && (r.Ok? <==> forall i :: 0 <= i < |lists.dependencies| ==>
            Collect(fs, profile, root, PackageDir(root, lists.dependencies[i]), depth - 1).Ok?)
      && (r.Ok? ==>
            && r.value == Flatten(PerPackage(fs, profile, root, lists.dependencies, depth - 1)) + OwnPaths(dir, lists.sources)
            && r.value[|r.value| - |lists.sources|..] == OwnPaths(dir, lists.sources))
  {
    var lists := MergeProfile(fs[ManifestPath(dir)].json.enb.value, profile);
    CollectAllOkIff(fs, profile, root, lists.dependencies, depth - 1);
    if CollectAll(fs, profile, root, lists.dependencies, depth - 1).Ok? {
      CollectAllIsConcatenation(fs, profile, root, lists.dependencies, depth - 1);
    }
  }

  /** A directory with no manifest, or whose manifest has no `enb` section,
      contributes nothing and raises no error. */
  lemma NoManifestContributesNothing(fs: FileSystem, profile: string, root: string, dir: string, depth: nat)
    requires depth > 0
    requires ManifestPath(dir) !in fs || (fs[ManifestPath(dir)].Parsed? && fs[ManifestPath(dir)].json.enb.None?)
    ensures Collect(fs, profile, root, dir, depth) == Ok([])
  {
  }

  /** A malformed manifest fails its package, and so every package that
      (directly) depends on it: failures travel all the way up, so no partial
      list is ever produced. */
  lemma MalformedManifestAborts(fs: FileSystem, profile: string, root: string, dir: string, k: nat, depth: nat)
    requires depth > 0
    requires ManifestPath(dir) in fs && fs[ManifestPath(dir)].Parsed? && fs[ManifestPath(dir)].json.enb.Some?
    requires k < |MergeProfile(fs[ManifestPath(dir)].json.enb.value, profile).dependencies|
    requires Collect(fs, profile, root,
               PackageDir(root, MergeProfile(fs[ManifestPath(dir)].json.enb.value, profile).dependencies[k]), depth - 1).Err?
    ensures Collect(fs, profile, root, dir, depth).Err?
  {
    CollectLayout(fs, profile, root, dir, depth);
  }

  /** The package in `dir` has a parsed `enb` section whose merged
      dependencies name `name`. */
  predicate DependsOn(fs: FileSystem, profile: string, dir: string, name: string) {
    && ManifestPath(dir) in fs
    && fs[ManifestPath(dir)].Parsed?
    && fs[ManifestPath(dir)].json.enb.Some?
    && name in MergeProfile(fs[ManifestPath(dir)].json.enb.value, profile).dependencies
  }

  /** However deep in the graph a malformed manifest sits, reaching it along
      a chain of dependencies fails the package at the top of the chain. */
  lemma {:induction false} MalformedDeepInGraphAborts(fs: FileSystem, profile: string, root: string, dir: string,
                                                      chain: seq<string>, depth: nat)
    requires |chain| > 0
    requires DependsOn(fs, profile, dir, chain[0])
    requires forall i :: 0 <= i < |chain| - 1 ==> DependsOn(fs, profile, PackageDir(root, chain[i]), chain[i + 1])
    requires ManifestPath(PackageDir(root, chain[|chain| - 1])) in fs
    requires fs[ManifestPath(PackageDir(root, chain[|chain| - 1]))].Malformed?
    ensures Collect(fs, profile, root, dir, depth).Err?
    decreases |chain|
  {
    if depth > 0 {
      var next := PackageDir(root, chain[0]);
      if |chain| > 1 {
        forall i | 0 <= i < |chain[1..]| - 1
          ensures DependsOn(fs, profile, PackageDir(root, chain[1..][i]), chain[1..][i + 1])
        {
          assert chain[1..][i] == chain[i + 1] && chain[1..][i + 1] == chain[i + 2];
        }
        MalformedDeepInGraphAborts(fs, profile, root, next, chain[1..], depth - 1);
      }
      var deps := MergeProfile(fs[ManifestPath(dir)].json.enb.value, profile).dependencies;
      var k :| 0 <= k < |deps| && deps[k] == chain[0];
      MalformedManifestAborts(fs, profile, root, dir, k, depth);
    }
  }

  /** `rank` witnesses that the dependency graph reachable from its keys has
      no cycle: every dependency edge leads to a package of smaller rank. */
  ghost predicate Ranked(fs: FileSystem, profile: string, root: string, rank: map<string, nat>) {
    forall dir, name :: dir in rank && DependsOn(fs, profile, dir, name) ==>
      PackageDir(root, name) in rank && rank[PackageDir(root, name)] < rank[dir]
  }

  /** Without cycles the walk always finishes: a stack bound above the
      package's rank is never exhausted, so the result is the one any larger
      bound gives (`CollectDepthIrrelevant`). */
  lemma {:induction false} AcyclicGraphResolves(fs: FileSystem, profile: string, root: string, rank: map<string, nat>,
                                                dir: string, depth: nat)
    requires Ranked(fs, profile, root, rank)
    requires dir in rank && depth > rank[dir]
    ensures Collect(fs, profile, root, dir, depth) != Err(CallStackExceeded)
    decreases depth, 0
  {
    var file := ManifestPath(dir);
    if file in fs && fs[file].Parsed? && fs[file].json.enb.Some? {
      var deps := MergeProfile(fs[file].json.enb.value, profile).dependencies;
      forall i | 0 <= i < |deps|
        ensures PackageDir(root, deps[i]) in rank && rank[PackageDir(root, deps[i])] < depth - 1
      {
        assert DependsOn(fs, profile, dir, deps[i]);
      }
      AcyclicDependenciesResolve(fs, profile, root, rank, deps, depth - 1);
    }
  }

  lemma {:induction false} AcyclicDependenciesResolve(fs: FileSystem, profile: string, root: string, rank: map<string, nat>,
                                                      names: seq<string>, depth: nat)
    requires Ranked(fs, profile, root, rank)
    requires forall i :: 0 <= i < |names| ==> PackageDir(root, names[i]) in rank && rank[PackageDir(root, names[i])] < depth
    ensures CollectAll(fs, profile, root, names, depth) != Err(CallStackExceeded)
    decreases depth, 1, |names|
  {
    if names != [] {
      var init := names[..|names| - 1];
      assert forall i :: 0 <= i < |init| ==> init[i] == names[i];
      AcyclicDependenciesResolve(fs, profile, root, rank, init, depth);
      if CollectAll(fs, profile, root, init, depth).Ok? {
        AcyclicGraphResolves(fs, profile, root, rank, PackageDir(root, names[|names| - 1]), depth);
      }
    }
  }

  /** Dependencies are looked up under the project's `node_modules`, never
      relative to the depending package: two packages with the same manifest
      collect the same dependency-derived prefix wherever they sit, and differ
      only in their own `dir + '/' + s` suffix. */
  lemma DependenciesIndependentOfDir(fs: FileSystem, profile: string, root: string, dir1: string, dir2: string, depth: nat)
    requires depth > 0
    requires ManifestPath(dir1) in fs && fs[ManifestPath(dir1)].Parsed? && fs[ManifestPath(dir1)].json.enb.Some?
    requires ManifestPath(dir2) in fs && fs[ManifestPath(dir2)] == fs[ManifestPath(dir1)]
    ensures var sources := MergeProfile(fs[ManifestPath(dir1)].json.enb.value, profile).sources;
      var r1 := Collect(fs, profile, root, dir1, depth);
      var r2 := Collect(fs, profile, root, dir2, depth);
      && (r1.Ok? <==> r2.Ok?)
      && (r1.Ok? ==> r1.value[..|r1.value| - |sources|] == r2.value[..|r2.value| - |sources|])
  {
    CollectLayout(fs, profile, root, dir1, depth);
    CollectLayout(fs, profile, root, dir2, depth);
  }

  /** The depth bound only matters when it is reached: a walk that does not
      exhaust it gives the same result with any larger bound. */
  lemma {:induction false} CollectDepthIrrelevant(fs: FileSystem, profile: string, root: string, dir: string, d: nat, e: nat)
    requires d <= e
    requires Collect(fs, profile, root, dir, d) != Err(CallStackExceeded)
    ensures Collect(fs, profile, root, dir, e) == Collect(fs, profile, root, dir, d)
    decreases d, 0
  {
    var file := ManifestPath(dir);
    if file in fs && fs[file].Parsed? && fs[file].json.enb.Some? {
      var lists := MergeProfile(fs[file].json.enb.value, profile);
      CollectAllDepthIrrelevant(fs, profile, root, lists.dependencies, d - 1, e - 1);
    }
  }

  lemma {:induction false} CollectAllDepthIrrelevant(fs: FileSystem, profile: string, root: string, names: seq<string>, d: nat, e: nat)
    requires d <= e
    requires CollectAll(fs, profile, root, names, d) != Err(CallStackExceeded)
    ensures CollectAll(fs, profile, root, names, e) == CollectAll(fs, profile, root, names, d)
    decreases d, 1, |names|
  {
    if names != [] {
      var init := names[..|names| - 1];
      CollectAllDepthIrrelevant(fs, profile, root, init, d, e);
      if CollectAll(fs, profile, root, init, d).Ok? {
        CollectDepthIrrelevant(fs, profile, root, PackageDir(root, names[|names| - 1]), d, e);
      }
    }
  }

  /** The missing cycle guard: a package whose first dependency is itself
      never resolves, whatever stack depth is available. */
  lemma {:induction false} SelfDependencyExhaustsStack(fs: FileSystem, profile: string, root: string, name: string, depth: nat)
    requires ManifestPath(PackageDir(root, name)) in fs
    requires fs[ManifestPath(PackageDir(root, name))].Parsed?
    requires fs[ManifestPath(PackageDir(root, name))].json.enb.Some?
    requires var deps := MergeProfile(fs[ManifestPath(PackageDir(root, name))].json.enb.value, profile).dependencies;
      |deps| > 0 && deps[0] == name
    ensures Collect(fs, profile, root, PackageDir(root, name), depth) == Err(CallStackExceeded)
  {
    if depth > 0 {
      var deps := MergeProfile(fs[ManifestPath(PackageDir(root, name))].json.enb.value, profile).dependencies;
      SelfDependencyExhaustsStack(fs, profile, root, name, depth - 1);
      assert deps[..1][..0] == [];
      CollectAllErrorSticks(fs, profile, root, deps, 1, depth - 1);
    }
  }
}
