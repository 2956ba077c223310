/** The `sources` tech: its options and `build`, which accumulates the
    source list, removes duplicates and materialises each path through the
    session cache. `resolve` stands for Node's `path.resolve`, whose
    normalisation is not part of this model. */
module Sources {
  import opened Wrappers
  import opened Manifest
  import opened Resolver
  import opened Dedup
  import opened Cache

  /** The tech's options as given in the node configuration. */
  datatype Options = Options(
    sources: Option<seq<string>>,
    dependencies: Option<seq<string>>,
    auto: Option<bool>,
    profile: Option<string>)

  /** The options after `init` has applied its defaults. */
  datatype Settings = Settings(
    sources: Option<seq<string>>,
    dependencies: Option<seq<string>>,
    auto: bool,
    profile: string)

  /** `init`: `auto` defaults to true and `profile` to "default"; the two
      lists stay absent when not given. */
  function Configure(o: Options): (s: Settings)
    ensures s.sources == o.sources && s.dependencies == o.dependencies
    ensures s.auto <==> o.auto != Some(false)
    ensures o.profile.None? ==> s.profile == "default"
    ensures o.profile.Some? ==> s.profile == o.profile.value
  {
    Settings(o.sources, o.dependencies, o.auto.GetOr(true), o.profile.GetOr("default"))
  }

  /** `this._sources.map(p => path.resolve(projectRoot, p))` */
  function ResolveAll(root: string, sources: seq<string>, resolve: (string, string) -> string): (paths: seq<string>)
    ensures |paths| == |sources| && forall i :: 0 <= i < |sources| ==> paths[i] == resolve(root, sources[i])
  {
    seq(|sources|, i requires 0 <= i < |sources| => resolve(root, sources[i]))
  }

  /** The explicit sources resolved against the project root, when given. */
  function ExplicitSources(root: string, cfg: Settings, resolve: (string, string) -> string): seq<string> {
    if cfg.sources.Some? then ResolveAll(root, cfg.sources.value, resolve) else []
  }

  /** The accumulated `sourceList`, before duplicates are removed. A parse
      error names a malformed manifest; on success the explicit sources come
      last and everything before them lies inside the project root. */
  function SourceList(fs: FileSystem, root: string, cfg: Settings, resolve: (string, string) -> string, depth: nat)
    : (r: Result<seq<string>, BuildError>)
    ensures ErrorFromManifest(fs, r)
    ensures r.Ok? ==>
      var explicit := ExplicitSources(root, cfg, resolve);
      && |explicit| <= |r.value|
      && r.value[|r.value| - |explicit|..] == explicit
      && forall i :: 0 <= i < |r.value| - |explicit| ==> root + "/" <= r.value[i]
  {
    var auto := if cfg.auto then Collect(fs, cfg.profile, root, root, depth) else Ok([]);
    var deps := if cfg.dependencies.Some? then CollectAll(fs, cfg.profile, root, cfg.dependencies.value, depth) else Ok([]);
    var explicit := ExplicitSources(root, cfg, resolve);
    if auto.Err? then Err(auto.error)
    else if deps.Err? then Err(deps.error)
    else
      var found := auto.value + deps.value;
      assert forall p :: p in found ==> root + "/" <= p by {
        forall p | p in found ensures root + "/" <= p {
          assert root + "/" <= PackagesDirectory(root) + "/";
          if PackagesDirectory(root) + "/" <= p {
            PrefixTransitive(root + "/", PackagesDirectory(root) + "/", p);
          }
        }
      }
      var r := found + explicit;
      assert r[|r| - |explicit|..] == explicit;
      assert forall i :: 0 <= i < |found| ==> r[i] == found[i] && found[i] in found;
      Ok(r)
  }

  /** The first half of `build`: `sourceList` reassigned by the auto step,
      the loop over the explicit dependencies, and the explicit sources. */
  method CollectSourceList(fs: FileSystem, root: string, cfg: Settings, resolve: (string, string) -> string, depth: nat)
    returns (r: Result<seq<string>, BuildError>)
    ensures r == SourceList(fs, root, cfg, resolve, depth)
  {
    var sourceList: seq<string> := [];
    if cfg.auto {
      var own := ReadPackageSources(fs, cfg.profile, root, root, depth);
      if own.Err? {
        return Err(own.error);
      }
      sourceList := own.value;
    }
    ghost var auto := sourceList;
    assert (if cfg.auto then Collect(fs, cfg.profile, root, root, depth) else Ok([])) == Ok(auto);
    ghost var deps: seq<string> := [];
    if cfg.dependencies.Some? {
      var names := cfg.dependencies.value;
      var i := 0;
      while i < |names|
        invariant 0 <= i <= |names|
        invariant CollectAll(fs, cfg.profile, root, names[..i], depth) == Ok(deps)
        invariant sourceList == auto + deps
      {
        assert names[..i + 1][..i] == names[..i];
        var sub := ReadPackageSources(fs, cfg.profile, root, PackageDir(root, names[i]), depth);
        if sub.Err? {
          CollectAllErrorSticks(fs, cfg.profile, root, names, i + 1, depth);
          return Err(sub.error);
        }
        sourceList := sourceList + sub.value;
        deps := deps + sub.value;
        i := i + 1;
      }
      assert names[..i] == names;
    }
    assert (if cfg.dependencies.Some? then CollectAll(fs, cfg.profile, root, cfg.dependencies.value, depth) else Ok([]))
        == Ok(deps);
    var explicit: seq<string> := [];
    if cfg.sources.Some? {
      explicit := ResolveAll(root, cfg.sources.value, resolve);
      sourceList := sourceList + explicit;
    }
    assert explicit == ExplicitSources(root, cfg, resolve);
    assert sourceList == auto + deps + explicit;
    return Ok(sourceList);
  }

  /** `build`: accumulate, remove duplicates, then map every path through the
      node's `buildState`. Any error aborts before the cache is touched. */
  method Build<R>(fs: FileSystem, root: string, cfg: Settings, resolve: (string, string) -> string,
                  load: string -> R, depth: nat, state: BuildState<R>)
    returns (r: Result<seq<R>, BuildError>)
    modifies state
    ensures SourceList(fs, root, cfg, resolve, depth).Err? ==>
      r == Err(SourceList(fs, root, cfg, resolve, depth).error) && state.entries == old(state.entries)
    ensures SourceList(fs, root, cfg, resolve, depth).Ok? ==>
      var paths := Distinct(SourceList(fs, root, cfg, resolve, depth).value);
      && state.entries == Populate(old(state.entries), paths, load)
      && (forall p :: p in paths ==> p in state.entries)
      && r.Ok? && |r.value| == |paths|
      && forall i :: 0 <= i < |paths| ==> r.value[i] == state.entries[paths[i]]
  {
    var sourceList := CollectSourceList(fs, root, cfg, resolve, depth);
    if sourceList.Err? {
      return Err(sourceList.error);
    }
    var sourcePaths := DropDuplicates(sourceList.value);
    var sourceRoots := state.LoadAll(sourcePaths, load);
    return Ok(sourceRoots);
  }

  /** The fixed accumulation order: the auto-discovered list (only when
      `auto` is on), then each explicit dependency's own list in declaration
      order, then the explicit sources resolved against the project root.
      It succeeds exactly when the auto step and every explicit dependency
      succeed. */
  lemma SourceListOrder(fs: FileSystem, root: string, cfg: Settings, resolve: (string, string) -> string, depth: nat)
    ensures var r := SourceList(fs, root, cfg, resolve, depth);
      var auto := if cfg.auto then Collect(fs, cfg.profile, root, root, depth) else Ok([]);
      var names := cfg.dependencies.GetOr([]);
      && (r.Ok? <==> auto.Ok? && forall i :: 0 <= i < |names| ==>
            Collect(fs, cfg.profile, root, PackageDir(root, names[i]), depth).Ok?)
      && (r.Ok? ==>
            r.value == auto.value + Flatten(PerPackage(fs, cfg.profile, root, names, depth)) + ExplicitSources(root, cfg, resolve))
  {
    var names := cfg.dependencies.GetOr([]);
    assert CollectAll(fs, cfg.profile, root, [], depth) == Ok([]);
    assert Flatten(PerPackage(fs, cfg.profile, root, [], depth)) == [];
    CollectAllOkIff(fs, cfg.profile, root, names, depth);
    if CollectAll(fs, cfg.profile, root, names, depth).Ok? {
      CollectAllIsConcatenation(fs, cfg.profile, root, names, depth);
    }
  }

  /** Worked example: no root manifest, `auto` off, explicit dependency
      `pkgB` (whose manifest declares source `index`) and explicit source
      `libA`: the dependency's source comes before the explicit source. */
  lemma DependenciesBeforeExplicitSources(resolve: (string, string) -> string)
    ensures var fs := map[ManifestPath(PackageDir("P", "pkgB")) := Parsed(PackageJson(Some(EnbSection(Some(["index"]), None, None))))];
      SourceList(fs, "P", Settings(Some(["libA"]), Some(["pkgB"]), false, "default"), resolve, 2)
        == Ok(["P/node_modules/pkgB/index", resolve("P", "libA")])
  {
    var fs := map[ManifestPath(PackageDir("P", "pkgB")) := Parsed(PackageJson(Some(EnbSection(Some(["index"]), None, None))))];
    var pkgB := PackageDir("P", "pkgB");
    assert ["pkgB"][..0] == [];
    assert CollectAll(fs, "default", "P", [], 1) == Ok([]);
    assert MergeProfile(EnbSection(Some(["index"]), None, None), "default") == Lists(["index"], []);
    assert OwnPaths(pkgB, ["index"])[0] == pkgB + "/" + "index" == "P/node_modules/pkgB/index";
    assert OwnPaths(pkgB, ["index"]) == ["P/node_modules/pkgB/index"];
    var file := ManifestPath(pkgB);
    assert file in fs && fs[file] == Parsed(PackageJson(Some(EnbSection(Some(["index"]), None, None))));
    var own := OwnPaths(pkgB, ["index"]);
    assert Collect(fs, "default", "P", pkgB, 2) == Ok([] + own);
    assert [] + own == own;
    assert Collect(fs, "default", "P", pkgB, 2) == Ok(["P/node_modules/pkgB/index"]);
    assert CollectAll(fs, "default", "P", ["pkgB"], 2) == Ok(["P/node_modules/pkgB/index"]);
    assert ResolveAll("P", ["libA"], resolve) == [resolve("P", "libA")];
    assert [] + ["P/node_modules/pkgB/index"] + [resolve("P", "libA")] == ["P/node_modules/pkgB/index", resolve("P", "libA")];
  }
}
