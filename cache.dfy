/** `node.buildState`: the per-node map from a source path to its loaded
    source root, filled lazily while `build` maps `sourcePaths`. `load` stands
    for `SourceRoot.loadFromPath`, whose code is not part of this model. */
module Cache {

  /** The cache after looking up each of `paths` in turn: a path already
      present is kept, an absent one is loaded and stored. */
  function Populate<R>(m: map<string, R>, paths: seq<string>, load: string -> R): (r: map<string, R>)
    ensures m.Keys <= r.Keys
    ensures forall p :: p in paths ==> p in r
  {
    if paths == [] then m
    else
      var before := Populate(m, paths[..|paths| - 1], load);
      var p := paths[|paths| - 1];
      if p in before then before else before[p := load(p)]
  }

  /** Populating adds exactly the looked-up paths, never changes an entry
      that was already there, and stores `load(p)` for each new path `p`. */
  lemma {:induction false} PopulateSpec<R>(m: map<string, R>, paths: seq<string>, load: string -> R)
    ensures Populate(m, paths, load).Keys == m.Keys + set p | p in paths
    ensures forall p :: p in m ==> Populate(m, paths, load)[p] == m[p]
    ensures forall p :: p in paths && p !in m ==> Populate(m, paths, load)[p] == load(p)
  {
    if paths != [] {
      var init := paths[..|paths| - 1];
      PopulateSpec(m, init, load);
      assert paths == init + [paths[|paths| - 1]];
    }
  }

  /** Entries for paths that are not looked up are untouched (present with
      the same root, or still absent). */
  lemma PopulateFrame<R>(m: map<string, R>, paths: seq<string>, load: string -> R, q: string)
    requires q !in paths
    ensures q in Populate(m, paths, load) <==> q in m
    ensures q in m ==> Populate(m, paths, load)[q] == m[q]
  {
    PopulateSpec(m, paths, load);
  }

  /** Looking the same paths up again in the same session loads nothing and
      changes nothing. */
  lemma PopulateIdempotent<R>(m: map<string, R>, paths: seq<string>, load: string -> R)
    ensures Populate(Populate(m, paths, load), paths, load) == Populate(m, paths, load)
  {
    var once := Populate(m, paths, load);
    PopulateSpec(m, paths, load);
    PopulateSpec(once, paths, load);
  }

  class BuildState<R> {
    var entries: map<string, R>

    constructor ()
      ensures entries == map[]
    {
      entries := map[];
    }

    /** `if (!buildState[p]) buildState[p] = load(p); return buildState[p];` */
    method GetOrLoad(path: string, load: string -> R) returns (root: R)
      modifies this
      ensures path in old(entries) ==> entries == old(entries) && root == old(entries)[path]
      ensures path !in old(entries) ==> entries == old(entries)[path := load(path)] && root == load(path)
      ensures entries == Populate(old(entries), [path], load)
    {
      if path !in entries {
        entries := entries[path := load(path)];
      }
      root := entries[path];
      assert [path][..0] == [];
    }

    /** `sourcePaths.map(...)`: one root per path, index by index, with the
        cache populated along the way. */
    method LoadAll(paths: seq<string>, load: string -> R) returns (roots: seq<R>)
      modifies this
      ensures entries == Populate(old(entries), paths, load)
      ensures forall p :: p in paths ==> p in entries
      ensures |roots| == |paths| && forall i :: 0 <= i < |paths| ==> roots[i] == entries[paths[i]]
    {
      roots := [];
      var i := 0;
      while i < |paths|
        invariant 0 <= i <= |paths|
        invariant entries == Populate(old(entries), paths[..i], load)
        invariant |roots| == i
        invariant forall k :: 0 <= k < i ==> paths[k] in entries && roots[k] == entries[paths[k]]
      {
        assert paths[..i + 1][..i] == paths[..i];
        var root := GetOrLoad(paths[i], load);
        roots := roots + [root];
        i := i + 1;
      }
      assert paths[..i] == paths;
      PopulateSpec(old(entries), paths, load);
    }
  }
}
