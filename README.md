# enb-bevis `sources` tech, modelled in Dafny

The `sources` tech of enb-bevis works out which directories are source roots
for a build. It reads the project's `package.json`. It merges the `enb`
section's `sources` and `dependencies` with the lists of the active profile.
It walks every dependency recursively under the project's single
`node_modules` directory. It appends the explicitly configured dependencies
and sources. It drops duplicate paths, keeping the first occurrence. Finally
it turns each path into a `SourceRoot` through the node's `buildState` cache.

Modules (one file each):

- `Wrappers` (`wrappers.dfy`): `Option` and `Result`.
- `Manifest` (`manifest.dfy`): the manifest datatypes, the path conventions
  (`package.json`, `node_modules`), the profile merge and the build errors.
- `Resolver` (`resolver.dfy`): `readPackageSources`. `Collect` and
  `CollectAll` are the specification functions. `ReadPackageSources` is the
  looping, recursive method proved equal to them.
- `Dedup` (`dedup.dfy`): the `sourceIndex` loop (`DropDuplicates`) and its
  specification `Distinct`.
- `Cache` (`cache.dfy`): `buildState` as the class `BuildState` holding a
  `map`, specified by `Populate`.
- `Sources` (`sources.dfy`): `init`'s defaults (`Configure`), the
  accumulation of `sourceList` and the whole of `build`.

The filesystem is a map from a manifest's path to `Parsed(json)` or
`Malformed(diagnostic)`; a path that is not a key has no file.
`path.resolve` and `SourceRoot.loadFromPath` are function-typed parameters
(`resolve`, `load`), and the loaded root is a type parameter `R`.

The source recursion has no cycle guard, so a cycle ends only when the
JavaScript engine runs out of call stack. The model makes that limit a
parameter `depth`: the number of nested `readPackageSources` frames still
available. Running out yields `CallStackExceeded`. `CollectDepthIrrelevant`
proves that the bound changes nothing unless it is hit.
`AcyclicGraphResolves` proves that an acyclic dependency graph never hits it
once the bound exceeds the package's rank. `SelfDependencyExhaustsStack`
proves that a self-dependency always hits it.

## Model

| member | source | states |
|---|---|---|
| `Manifest.Message` | techs/sources.js:57-62 | a parse error's message starts with `Error parsing "<file>": ` and ends with the parser's own message |
| `Manifest.ManifestPath` | techs/sources.js:54 | a package's manifest is the file `package.json` directly inside its directory |
| `Manifest.PackageDir` | techs/sources.js:50-77 | a package name is resolved to a directory directly inside `<root>/node_modules/`, whatever package names it |
| `Manifest.MergeProfile` | techs/sources.js:65-75 | the merged lists start with the base lists (`[]` when absent); with no active profile they are the base lists |
| `Manifest.MergeExtendsBase` | techs/sources.js:65-75 | each merged list starts with the base list (`[]` when absent), and the rest is exactly the active profile's list; with no such profile, or a profile lacking the field, that list is the base list |
| `Manifest.MergeExample` | techs/sources.js:65-75 | base `["a"]` with profile `x` adding `["b"]` merges to `["a","b"]` under `x` and to `["a"]` under `default` |
| `Resolver.Collect` | techs/sources.js:52-85 | a parse error names an existing manifest and carries its diagnostic; every collected path lies under the package's own directory or under `<root>/node_modules/` |
| `Resolver.OwnPaths` | techs/sources.js:79-81 | one path per merged source, in order, each `dir + '/'` followed by that source |
| `Resolver.CollectAll` | techs/sources.js:76-78 | same error property; every path collected for a list of package names lies under `<root>/node_modules/` |
| `Resolver.DependenciesIndependentOfDir` | techs/sources.js:76-81 | two packages with the same manifest, wherever they sit, both succeed or both fail, and collect the same dependency-derived prefix: dependencies are looked up under the project root, never relative to the depending package |
| `Resolver.ReadPackageSources` | techs/sources.js:52-85 | the loop-and-recursion implementation returns exactly `Collect`'s result, error included |
| `Resolver.CollectAllErrorSticks` | techs/sources.js:76-78 | once a prefix of the dependency list fails, the whole list fails with that error |
| `Resolver.CollectAllOkIff` | techs/sources.js:76-78 | a dependency list succeeds if and only if every named package succeeds |
| `Resolver.CollectAllIsConcatenation` | techs/sources.js:76-78 | a successful dependency list yields the concatenation, in declaration order, of each package's own list |
| `Resolver.CollectAllFirstError` | techs/sources.js:57-62 | a failing dependency list fails with the error of its first failing package, all earlier ones having succeeded |
| `Resolver.CollectLayout` | techs/sources.js:76-81 | a package with an `enb` section succeeds if and only if all its dependencies do; its list is then the dependencies' lists in order followed by `dir + '/' + s` for each merged source, which form its suffix |
| `Resolver.NoManifestContributesNothing` | techs/sources.js:54-63 | no `package.json`, or one without `enb`, gives the empty list and no error |
| `Resolver.MalformedManifestAborts` | techs/sources.js:57-62 | a failing dependency fails the depending package: no partial list |
| `Resolver.MalformedDeepInGraphAborts` | techs/sources.js:57-62 | a malformed manifest reached through any chain of dependencies fails the package at the top of the chain |
| `Resolver.CollectDepthIrrelevant` | techs/sources.js:76-78 | a walk that does not exhaust the stack bound gives the same result under any larger bound |
| `Resolver.CollectAllDepthIrrelevant` | techs/sources.js:76-78 | the same for a list of dependencies |
| `Resolver.AcyclicGraphResolves` | techs/sources.js:76-78 | when a rank decreases along every dependency edge (no cycle), a stack bound above the package's rank is never exhausted |
| `Resolver.AcyclicDependenciesResolve` | techs/sources.js:76-78 | the same for a list of dependencies whose ranks are below the bound |
| `Resolver.SelfDependencyExhaustsStack` | techs/sources.js:76-78 | a package whose first dependency is itself never resolves, under any stack bound |
| `Dedup.Distinct` | techs/sources.js:103-110 | the deduplicated list is no longer than `sourceList` and holds only its elements |
| `Dedup.DropDuplicates` | techs/sources.js:103-110 | the seen-set loop computes `Distinct`: no duplicates, and exactly the elements of `sourceList` |
| `Dedup.DistinctElements` | techs/sources.js:103-110 | a path is in the deduplicated list if and only if it is in `sourceList` |
| `Dedup.DistinctNoDuplicates` | techs/sources.js:103-110 | the deduplicated list has no repeated path |
| `Dedup.DistinctKeepsFirstOccurrenceOrder` | techs/sources.js:103-110 | the deduplicated paths appear in the order of their first occurrences in `sourceList` |
| `Cache.Populate` | techs/sources.js:112-117 | the mapping keeps every existing key and leaves every path of `sourcePaths` in the cache |
| `Cache.PopulateSpec` | techs/sources.js:112-117 | after the mapping, the cache holds exactly the old keys plus every path; old entries keep their root; each new path holds `load(path)` |
| `Cache.PopulateFrame` | techs/sources.js:112-117 | entries for paths not in `sourcePaths` are untouched |
| `Cache.PopulateIdempotent` | techs/sources.js:112-117 | mapping the same paths again in one session loads nothing and changes nothing |
| `Cache.BuildState.GetOrLoad` | techs/sources.js:113-116 | an existing entry is returned unchanged and not reloaded; an absent one is loaded, stored and returned |
| `Cache.BuildState.LoadAll` | techs/sources.js:112-117 | the cache becomes `Populate(old cache, paths)` and the roots match the paths index by index |
| `Sources.Configure` | techs/sources.js:35-38 | `auto` defaults to true and `profile` to `"default"`; explicit lists are passed through, absent or not |
| `Sources.ResolveAll` | techs/sources.js:97-101 | one resolved path per explicit source, in order, each `path.resolve(projectRoot, source)` |
| `Sources.SourceList` | techs/sources.js:87-101 | a parse error names a malformed manifest; on success the resolved explicit sources are the suffix and every earlier entry lies inside the project root |
| `Sources.CollectSourceList` | techs/sources.js:87-101 | the reassignments of `sourceList` compute `SourceList`, error included |
| `Sources.SourceListOrder` | techs/sources.js:87-101 | the list succeeds if and only if the auto step and every explicit dependency do; it is then exactly the auto list, then each explicit dependency's own list in declaration order, then the resolved explicit sources |
| `Sources.DependenciesBeforeExplicitSources` | techs/sources.js:87-101 | with `auto` off, dependency `pkgB` declaring `index` and explicit source `libA`, the list is `[P/node_modules/pkgB/index, resolve(P, libA)]` |
| `Sources.Build` | techs/sources.js:46-117 | an error aborts with the cache unchanged; otherwise the roots are the cached roots of `Distinct(SourceList)`, index by index, and the cache is `Populate`d with those paths |

## Left out

- `techs/js-test.js` is not part of this model. It is asynchronous file reading and bundling through foreign libraries.
- Reading and parsing files (`fs.existsSync`, `fs.readFileSync`, `JSON.parse`) are replaced by the manifest map and its `Malformed` variant.
- `path.resolve` normalisation and `SourceRoot.loadFromPath` are opaque parameters. A loader that throws is not modelled.
- Building the `Sources` value and `node.resolveTarget` are not modelled. Neither is the ENB wiring: `inherit`, `getName`, `getOption`, `unmaskTargetName`, `getTargets` and `clean`.
- JSON values of the wrong type are not modelled, such as a string where `sources` should be an array. Falsy values (`null`, `false`, `0`, `""`) in `enb`, `sources`, `dependencies`, `profiles` or a profile entry are modelled as absent.
- Plain objects are used as maps in the source. Their inherited keys are not modelled: `sourceIndex` is a plain set, and a profile named `constructor` or `__proto__` is looked up as an ordinary key.
- Resolver.SelfDependencyExhaustsStack: covers only a package whose first merged dependency is itself. Longer cycles are not proved to exhaust the stack.
- Resolver.Collect: the stack limit is counted in `readPackageSources` frames. The engine's real limit, which depends on frame sizes, is not modelled.
- Resolver.Collect: an overflow is always reported as `CallStackExceeded`. In the source the overflow may be raised inside the `try` around `JSON.parse` (techs/sources.js:57-62). It would then be rethrown as `Error parsing "<file>": Maximum call stack size exceeded`, naming a well-formed manifest. Where the overflow happens depends on the engine, so that relabelled error is not modelled, and the `ParseError` provenance stated by `Collect` holds only for real parse failures.
