/** main.go, part 2: the upward search over a file's ancestor directories and
    the resolution of a file's configuration and executable. The file system
    is the set `fs` of existing paths; `exec.LookPath` is the map `pathDirs`
    from a program name to where `PATH` finds it. An empty string stands for
    "nothing found", as in the source. */
module GoResolve {
  import opened Wrappers
  import opened Paths
  import opened GoBuilders
  import opened GoTable

  /** The first non-empty test result over `dirs`, in order, or "". */
  function FirstNonEmpty(dirs: seq<Path>, test: Path -> string): (r: string)
    ensures r == "" <==> forall k :: 0 <= k < |dirs| ==> test(dirs[k]) == ""
    ensures r != "" ==> exists k :: 0 <= k < |dirs| && r == test(dirs[k])
                          && forall j :: 0 <= j < k ==> test(dirs[j]) == ""
  {
    if dirs == [] then ""
    else if test(dirs[0]) != "" then test(dirs[0])
    else
      var r := FirstNonEmpty(dirs[1..], test);
      assert forall k :: 1 <= k < |dirs| ==> dirs[k] == dirs[1..][k - 1];
      r
  }

  /** What `findInParentDirs` returns when the search starts at directory
      `dir`: the first non-empty test result from `dir` upward; the root is
      never tested. */
  function SearchUp(dir: Path, test: Path -> string): string {
    FirstNonEmpty(Ancestors(dir), test)
  }

  /** Go's `findInParentDirs`: starts at the directory holding `startPath`,
      stops at the root ("/") or at a fixpoint of `Dir`. */
  method FindInParentDirs(startPath: Path, test: Path -> string) returns (r: string)
    ensures r == SearchUp(Dir(startPath), test)
  {
    var dir := Dir(startPath);
    while dir != []
      invariant SearchUp(dir, test) == SearchUp(Dir(startPath), test)
      decreases |dir|
    {
      var result := test(dir);
      if result != "" {
        return result;
      }
      var parent := Dir(dir);
      assert Ancestors(dir) == [dir] + Ancestors(parent);
      if parent == dir {
        break;
      }
      dir := parent;
    }
    return "";
  }

  /** The optional path as the source's string: "" when absent. */
  function RenderOpt(p: Option<Path>): (s: string)
    ensures s == "" <==> p.None?
  {
    match p
    case None => ""
    case Some(q) => Render(q)
  }

  /** The configuration `testConfig` finds for `path`: the nearest directory
      holding any of the configuration files, and there the first in order. */
  function ConfigFor(fs: set<Path>, path: Path, lang: Language): string {
    RenderOpt(Nearest(fs, Ancestors(Dir(path)), [], lang.configFiles))
  }

  /** The closure `testConfig` passes: the first configuration file of `names`
      in `dir`. */
  function ConfigProbe(fs: set<Path>, names: seq<string>): Path -> string {
    dir => RenderOpt(FirstExisting(fs, dir, names))
  }

  /** The closure's loop over `configFiles`, with its early return. */
  method ProbeConfig(fs: set<Path>, dir: Path, names: seq<string>) returns (r: string)
    ensures r == ConfigProbe(fs, names)(dir)
  {
    for i := 0 to |names|
      invariant forall m :: 0 <= m < i ==> dir + [names[m]] !in fs
    {
      var fullPath := dir + [names[i]];
      if fullPath in fs {
        ghost var found := FirstExisting(fs, dir, names);
        assert found.Some? && found.value == fullPath by {
          var n :| 0 <= n < |names| && found.value == dir + [names[n]] && found.value in fs
                   && forall m :: 0 <= m < n ==> dir + [names[m]] !in fs;
          assert n == i;
        }
        return Render(fullPath);
      }
    }
    return "";
  }

  /** A search driven by a first-existing probe is the nearest-directory
      search of `Paths`. */
  lemma {:induction false} SearchUpIsNearest(fs: set<Path>, dir: Path, sub: seq<string>, names: seq<string>, test: Path -> string)
    requires forall d :: test(d) == RenderOpt(FirstExisting(fs, d + sub, names))
    ensures SearchUp(dir, test) == RenderOpt(Nearest(fs, Ancestors(dir), sub, names))
    decreases |dir|
  {
    if dir != [] {
      SearchUpIsNearest(fs, Dir(dir), sub, names, test);
      assert Ancestors(dir) == [dir] + Ancestors(Dir(dir));
      assert Ancestors(dir)[1..] == Ancestors(Dir(dir));
      assert Ancestors(dir)[0] == dir;
    }
  }

  /** Go's `testConfig`: the nearest directory holding any configuration file
      of the language, and there the first name in `configFiles` order. */
  method TestConfig(fs: set<Path>, path: Path, lang: Option<Language>) returns (r: string)
    ensures lang.None? ==> r == ""
    ensures lang.Some? ==> r == ConfigFor(fs, path, lang.value)
  {
    if lang.None? {
      return "";
    }
    var names := lang.value.configFiles;
    r := FindInParentDirs(path, ConfigProbe(fs, names));
    assert forall d: Path :: d + [] == d;
    SearchUpIsNearest(fs, Dir(path), [], names, ConfigProbe(fs, names));
  }

  /** The project-local bin directory the Go version searches for a
      language: `node_modules/.bin` for javascript and typescript,
      `vendor/bin` for php, none otherwise. */
  function VendorDir(name: string): Option<seq<string>> {
    if name == "javascript" || name == "typescript" then Some(["node_modules", ".bin"])
    else if name == "php" then Some(["vendor", "bin"])
    else None
  }

  /** The project-local executable `testVendor` finds for `path`. */
  function VendorFor(fs: set<Path>, path: Path, lang: Language): string {
    match VendorDir(lang.name)
    case None => ""
    case Some(sub) => RenderOpt(Nearest(fs, Ancestors(Dir(path)), sub, lang.executables))
  }

  /** The closure `testVendor` passes. */
  function VendorProbe(fs: set<Path>, lang: Language): Path -> string {
    dir =>
      match VendorDir(lang.name)
      case None => ""
      case Some(sub) => RenderOpt(FirstExisting(fs, dir + sub, lang.executables))
  }

  /** The closure's loops over `executables`, one per vendor directory. */
  method ProbeVendor(fs: set<Path>, dir: Path, lang: Language) returns (r: string)
    ensures r == VendorProbe(fs, lang)(dir)
  {
    if lang.name == "javascript" || lang.name == "typescript" {
      r := ProbeConfig(fs, dir + ["node_modules", ".bin"], lang.executables);
      assert (dir + ["node_modules", ".bin"]) == dir + VendorDir(lang.name).value;
      if r != "" {
        return r;
      }
    }
    if lang.name == "php" {
      r := ProbeConfig(fs, dir + ["vendor", "bin"], lang.executables);
      return r;
    }
    return "";
  }

  /** Go's `testVendor`: the nearest project-local executable of the
      language, trying `executables` in order; "" for every language without
      a vendor directory. */
  method TestVendor(fs: set<Path>, path: Path, lang: Option<Language>) returns (r: string)
    ensures lang.None? ==> r == ""
    ensures lang.Some? ==> r == VendorFor(fs, path, lang.value)
  {
    if lang.None? {
      return "";
    }
    var l := lang.value;
    r := FindInParentDirs(path, VendorProbe(fs, l));
    match VendorDir(l.name)
    case None =>
      assert forall k :: 0 <= k < |Ancestors(Dir(path))| ==> VendorProbe(fs, l)(Ancestors(Dir(path))[k]) == "";
    case Some(sub) =>
      SearchUpIsNearest(fs, Dir(path), sub, l.executables, VendorProbe(fs, l));
  }

  /** The first of `names` that `PATH` lookup finds, or "". */
  function FirstOnPath(pathDirs: map<string, string>, names: seq<string>): (r: string)
    ensures (forall i :: 0 <= i < |names| ==> names[i] !in pathDirs) ==> r == ""
    ensures forall n ::
              (0 <= n < |names| && names[n] in pathDirs && forall m :: 0 <= m < n ==> names[m] !in pathDirs)
              ==> r == pathDirs[names[n]]
  {
    if names == [] then ""
    else if names[0] in pathDirs then pathDirs[names[0]]
    else
      var r := FirstOnPath(pathDirs, names[1..]);
      assert forall i :: 1 <= i < |names| ==> names[i] == names[1..][i - 1];
      r
  }

  /** The loop of `walkPath` over `exec.LookPath`, stopping at the first hit. */
  method LookPathFirst(pathDirs: map<string, string>, names: seq<string>) returns (r: string)
    ensures r == FirstOnPath(pathDirs, names)
  {
    for i := 0 to |names|
      invariant forall m :: 0 <= m < i ==> names[m] !in pathDirs
    {
      if names[i] in pathDirs {
        return pathDirs[names[i]];
      }
    }
    return "";
  }

  /** The executable `walkPath` settles on: the vendor result, else the first
      executable on `PATH`, else "" (`defaultCmd` is never consulted). */
  function ResolveExecutable(vendor: string, pathDirs: map<string, string>, lang: Language): (r: string)
    ensures vendor != "" ==> r == vendor
    ensures vendor == "" && (forall i :: 0 <= i < |lang.executables| ==> lang.executables[i] !in pathDirs) ==> r == ""
    ensures vendor == "" ==> r == FirstOnPath(pathDirs, lang.executables)
  {
    if vendor != "" then vendor else FirstOnPath(pathDirs, lang.executables)
  }

  /** The configuration and command `walkPath` computes for an existing file,
      or None when the file has no language. */
  function Resolve(fs: set<Path>, pathDirs: map<string, string>, index: map<string, nat>, p: Path): Option<(string, string)>
    requires index == ExtensionIndex(Languages)
  {
    match GetLanguageForFile(index, p)
    case None => None
    case Some(i) =>
      var lang := Languages[i];
      var config := ConfigFor(fs, p, lang);
      Some((config, BuildCommand(lang.builder, ResolveExecutable(VendorFor(fs, p, lang), pathDirs, lang), config)))
  }
}
