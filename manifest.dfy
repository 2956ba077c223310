/** The `package.json` side of the `sources` tech: where a package's manifest
    lives, what its `enb` section may hold, how the active profile extends it,
    and the error a malformed manifest raises. */
module Manifest {
  import opened Wrappers

  const ManifestName: string := "package.json"
  const PackagesDirName: string := "node_modules"

  /** `packageDir + '/package.json'` */
  function ManifestPath(dir: string): (file: string)
    ensures dir + "/" <= file && file[|dir| + 1..] == ManifestName
  {
    dir + "/" + ManifestName
  }

  /** `projectRoot + '/node_modules'`: the one flat directory every package
      name is looked up in. */
  function PackagesDirectory(root: string): string {
    root + "/" + PackagesDirName
  }

  /** `packagesDirectory + '/' + packageName` */
  function PackageDir(root: string, name: string): (dir: string)
    ensures PackagesDirectory(root) + "/" <= dir && dir[|PackagesDirectory(root)| + 1..] == name
  {
    PackagesDirectory(root) + "/" + name
  }

  /** One entry of `enb.profiles`; each list may be absent. */
  datatype ProfileSection = ProfileSection(sources: Option<seq<string>>, dependencies: Option<seq<string>>)

  /** The `enb` section of a manifest. */
  datatype EnbSection = EnbSection(
    sources: Option<seq<string>>,
    dependencies: Option<seq<string>>,
    profiles: Option<map<string, ProfileSection>>)

  /** A parsed `package.json`, reduced to the one field the tech reads. */
  datatype PackageJson = PackageJson(enb: Option<EnbSection>)

  /** What `JSON.parse` makes of an existing manifest file. */
  datatype ManifestFile = Parsed(json: PackageJson) | Malformed(diagnostic: string)

  /** The filesystem as far as the tech reads it: the manifest files that
      exist, keyed by their path. A path that is not a key does not exist. */
  type FileSystem = map<string, ManifestFile>

  /** The merged lists of one package. */
  datatype Lists = Lists(sources: seq<string>, dependencies: seq<string>)

  /** Errors that abort a build. `ParseError` is the rethrown `JSON.parse`
      failure; `CallStackExceeded` is what the engine throws when the
      unguarded recursion over dependencies runs out of stack. */
  datatype BuildError = ParseError(file: string, detail: string) | CallStackExceeded

  /** The `message` the thrown error carries. */
  function Message(e: BuildError): (m: string)
    ensures e.ParseError? ==> "Error parsing \"" + e.file + "\": " <= m
    ensures e.ParseError? ==> |e.detail| <= |m| && m[|m| - |e.detail|..] == e.detail
  {
    match e
    case ParseError(file, detail) => "Error parsing \"" + file + "\": " + detail
    case CallStackExceeded => "Maximum call stack size exceeded"
  }

  /** The profile named `name`, when `enb.profiles` has it. */
  function ActiveProfile(enb: EnbSection, name: string): Option<ProfileSection> {
    if enb.profiles.Some? && name in enb.profiles.value then Some(enb.profiles.value[name]) else None
  }

  /** The base lists (empty when absent), extended by the active profile's
      lists where the profile has them. */
  function MergeProfile(enb: EnbSection, name: string): (r: Lists)
    ensures enb.sources.GetOr([]) <= r.sources && enb.dependencies.GetOr([]) <= r.dependencies
    ensures ActiveProfile(enb, name).None? ==> r == Lists(enb.sources.GetOr([]), enb.dependencies.GetOr([]))
  {
    var base := Lists(enb.sources.GetOr([]), enb.dependencies.GetOr([]));
    match ActiveProfile(enb, name)
    case None => base
    case Some(p) =>
      Lists(base.sources + p.sources.GetOr([]), base.dependencies + p.dependencies.GetOr([]))
  }

  /** Profile lists extend the base lists and never replace them: each merged
      list starts with the base list (or is empty-based when the base is
      absent), what follows is exactly the profile's list, and a missing
      profile or a missing profile field leaves that list as the base. */
  lemma MergeExtendsBase(enb: EnbSection, name: string)
    ensures var r := MergeProfile(enb, name);
      && enb.sources.GetOr([]) <= r.sources
      && enb.dependencies.GetOr([]) <= r.dependencies
      && r.sources[|enb.sources.GetOr([])|..] ==
           (if ActiveProfile(enb, name).Some? then ActiveProfile(enb, name).value.sources.GetOr([]) else [])
      && r.dependencies[|enb.dependencies.GetOr([])|..] ==
           (if ActiveProfile(enb, name).Some? then ActiveProfile(enb, name).value.dependencies.GetOr([]) else [])
    ensures ActiveProfile(enb, name).None? ==>
      MergeProfile(enb, name) == Lists(enb.sources.GetOr([]), enb.dependencies.GetOr([]))
    ensures ActiveProfile(enb, name).Some? && ActiveProfile(enb, name).value.sources.None? ==>
      MergeProfile(enb, name).sources == enb.sources.GetOr([])
    ensures ActiveProfile(enb, name).Some? && ActiveProfile(enb, name).value.dependencies.None? ==>
      MergeProfile(enb, name).dependencies == enb.dependencies.GetOr([])
  {
  }

  /** The worked example: base sources ["a"], profile "x" adding ["b"]. */
  lemma MergeExample()
    ensures var enb := EnbSection(Some(["a"]), None, Some(map["x" := ProfileSection(Some(["b"]), None)]));
      && MergeProfile(enb, "x") == Lists(["a", "b"], [])
      && MergeProfile(enb, "default") == Lists(["a"], [])
  {
  }
}
