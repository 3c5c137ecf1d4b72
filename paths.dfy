/** Paths as sequences of components, and the searches over a path's ancestor
    directories that all three versions perform. The file system is an oracle:
    the set of paths that exist (Go's `os.Stat`, Rust's `Path::exists`) or are
    readable (C's `access(R_OK)`). */
module Paths {
  import opened Wrappers

  /** An absolute path as its components below the root: `[]` is "/" and
      `["a", "b"]` is "/a/b". */
  type Path = seq<string>

  /** The directory that holds `p` (Go's `filepath.Dir`, Rust's
      `Path::parent`, C's `dirname`); the root is its own directory. */
  function Dir(p: Path): (d: Path)
    ensures p != [] ==> |d| == |p| - 1 && p == d + [p[|p| - 1]]
    ensures p == [] ==> d == []
  {
    if p == [] then [] else p[..|p| - 1]
  }

  /** Each component after a slash. */
  function Slashed(p: Path): (s: string)
    ensures p != [] ==> s != [] && s[0] == '/'
  {
    if p == [] then "" else Slashed(p[..|p| - 1]) + "/" + p[|p| - 1]
  }

  /** The path as the string the sources print, join and compare; "/" for the root. */
  function Render(p: Path): (s: string)
    ensures s != [] && s[0] == '/'
  {
    if p == [] then "/" else Slashed(p)
  }

  /** C's `sprintf("%s/%s", dir, name)` for a directory other than the root
      names the same path as appending the component. */
  lemma RenderChild(dir: Path, name: string)
    requires dir != []
    ensures Render(dir + [name]) == Render(dir) + "/" + name
  {
    assert (dir + [name])[..|dir|] == dir;
  }

  /** The directories an upward search visits, nearest first: `dir`, its
      parent, and so on, stopping before the root. */
  function Ancestors(dir: Path): (r: seq<Path>)
    ensures |r| == |dir|
    ensures forall k :: 0 <= k < |r| ==> r[k] == dir[..|dir| - k]
    decreases |dir|
  {
    if dir == [] then [] else [dir] + Ancestors(Dir(dir))
  }

  /** The first of `dir/names[0]`, `dir/names[1]`, ... that exists. */
  function FirstExisting(fs: set<Path>, dir: Path, names: seq<string>): (r: Option<Path>)
    ensures r.None? <==> forall n :: 0 <= n < |names| ==> dir + [names[n]] !in fs
    ensures r.Some? ==> exists n :: 0 <= n < |names| && r.value == dir + [names[n]] && r.value in fs
                          && forall m :: 0 <= m < n ==> dir + [names[m]] !in fs
  {
    if names == [] then None
    else if dir + [names[0]] in fs then Some(dir + [names[0]])
    else
      var r := FirstExisting(fs, dir, names[1..]);
      assert forall n :: 1 <= n < |names| ==> names[n] == names[1..][n - 1];
      r
  }

  /** The nearest directory `d` of `dirs` such that some `d/sub/name` exists,
      and there the first such name: directory nearness first, then name order. */
  function Nearest(fs: set<Path>, dirs: seq<Path>, sub: seq<string>, names: seq<string>): (r: Option<Path>)
    ensures r.None? <==> forall k :: 0 <= k < |dirs| ==> FirstExisting(fs, dirs[k] + sub, names).None?
    ensures r.Some? ==> exists k :: 0 <= k < |dirs| && r == FirstExisting(fs, dirs[k] + sub, names)
                          && forall j :: 0 <= j < k ==> FirstExisting(fs, dirs[j] + sub, names).None?
  {
    if dirs == [] then None
    else
      var here := FirstExisting(fs, dirs[0] + sub, names);
      if here.Some? then here
      else
        var r := Nearest(fs, dirs[1..], sub, names);
        assert forall k :: 1 <= k < |dirs| ==> dirs[k] == dirs[1..][k - 1];
        r
  }

  /** A name found in a nearer ancestor wins over every name, however high its
      priority, in a farther one: when some candidate exists `j` levels up,
      the result comes from a directory at most `j` levels up. */
  lemma NearerDirectoryWins(fs: set<Path>, dir: Path, sub: seq<string>, names: seq<string>, j: nat, n: nat)
    requires j < |dir| && n < |names|
    requires Ancestors(dir)[j] + sub + [names[n]] in fs
    ensures exists k :: 0 <= k <= j && Nearest(fs, Ancestors(dir), sub, names) == FirstExisting(fs, Ancestors(dir)[k] + sub, names)
                        && FirstExisting(fs, Ancestors(dir)[k] + sub, names).Some?
  {
    var anc := Ancestors(dir);
    var r := Nearest(fs, anc, sub, names);
    assert FirstExisting(fs, anc[j] + sub, names).Some?;
    var k :| 0 <= k < |anc| && r == FirstExisting(fs, anc[k] + sub, names)
             && forall i :: 0 <= i < k ==> FirstExisting(fs, anc[i] + sub, names).None?;
    assert k <= j;
  }
}
