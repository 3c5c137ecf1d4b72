/** src/main.rs, part 2: the upward search over a file's ancestor
    directories, the choice of a tool by its configuration files, and the
    resolution of its executable and command. The file system is the set
    `fs` of existing files; `which::which` is the map `which` from a program
    name to where `PATH` finds it. */
module RustResolve {
  import opened Wrappers
  import opened Paths
  import opened RustTemplates
  import opened RustTable

  /** The first present test result over `dirs`, in order. */
  function FirstSome(dirs: seq<Path>, test: Path -> Option<string>): (r: Option<string>)
    ensures r.None? <==> forall k :: 0 <= k < |dirs| ==> test(dirs[k]).None?
    ensures r.Some? ==> exists k :: 0 <= k < |dirs| && r == test(dirs[k])
                          && forall j :: 0 <= j < k ==> test(dirs[j]).None?
  {
    if dirs == [] then None
    else if test(dirs[0]).Some? then test(dirs[0])
    else
      var r := FirstSome(dirs[1..], test);
      assert forall k :: 1 <= k < |dirs| ==> dirs[k] == dirs[1..][k - 1];
      r
  }

  /** `find_in_parent_dirs`: starts at the parent of `startPath` (none for
      the root), tests each directory up to but excluding "/", and stops at
      the first result. */
  method FindInParentDirs(startPath: Path, test: Path -> Option<string>) returns (r: Option<string>)
    ensures r == FirstSome(Ancestors(Dir(startPath)), test)
  {
    if startPath == [] {
      return None;
    }
    var dir := Dir(startPath);
    while true
      invariant FirstSome(Ancestors(dir), test) == FirstSome(Ancestors(Dir(startPath)), test)
      decreases |dir|
    {
      if dir == [] {
        break;
      }
      var result := test(dir);
      if result.Some? {
        return result;
      }
      var parent := Dir(dir);
      assert Ancestors(dir) == [dir] + Ancestors(parent);
      if parent == dir {
        break;
      }
      dir := parent;
    }
    return None;
  }

  /** A found path as the string the source returns. */
  function RenderOpt(p: Option<Path>): (r: Option<string>)
    ensures r.None? <==> p.None?
    ensures r.Some? ==> r.value == Render(p.value)
  {
    match p
    case None => None
    case Some(q) => Some(Render(q))
  }

  /** A search driven by a first-existing probe is the nearest-directory
      search of `Paths`. */
  lemma {:induction false} SearchIsNearest(fs: set<Path>, dir: Path, sub: seq<string>, names: seq<string>, test: Path -> Option<string>)
    requires forall d :: test(d) == RenderOpt(FirstExisting(fs, d + sub, names))
    ensures FirstSome(Ancestors(dir), test) == RenderOpt(Nearest(fs, Ancestors(dir), sub, names))
    decreases |dir|
  {
    if dir != [] {
      SearchIsNearest(fs, Dir(dir), sub, names, test);
      assert Ancestors(dir) == [dir] + Ancestors(Dir(dir));
      assert Ancestors(dir)[1..] == Ancestors(Dir(dir));
      assert Ancestors(dir)[0] == dir;
    }
  }

  /** The configuration file of a tool for `path`: the nearest directory
      holding any of `names`, and there the first in order. */
  function ConfigForTool(fs: set<Path>, path: Path, names: seq<string>): Option<string> {
    RenderOpt(Nearest(fs, Ancestors(Dir(path)), [], names))
  }

  /** The closure `test_config_for_tool` passes. */
  function ConfigProbe(fs: set<Path>, names: seq<string>): Path -> Option<string> {
    dir => RenderOpt(FirstExisting(fs, dir, names))
  }

  /** `test_config_for_tool`. */
  method TestConfigForTool(fs: set<Path>, path: Path, names: seq<string>) returns (r: Option<string>)
    ensures r == ConfigForTool(fs, path, names)
  {
    r := FindInParentDirs(path, ConfigProbe(fs, names));
    assert forall d: Path :: d + [] == d;
    SearchIsNearest(fs, Dir(path), [], names, ConfigProbe(fs, names));
  }

  /** The project-local bin directory of a language: `node_modules/.bin`
      for the languages of the Node tools, `vendor/bin` for php. */
  function VendorDir(langName: string): Option<seq<string>> {
    if langName in ["javascript", "typescript", "css", "html", "json", "yaml", "markdown"] then Some(["node_modules", ".bin"])
    else if langName == "php" then Some(["vendor", "bin"])
    else None
  }

  /** The project-local copy of `executable` nearest to `path`. */
  function VendorFor(fs: set<Path>, path: Path, langName: string, executable: string): Option<string> {
    match VendorDir(langName)
    case None => None
    case Some(sub) => RenderOpt(Nearest(fs, Ancestors(Dir(path)), sub, [executable]))
  }

  /** The closure `test_vendor` passes: `dir/<vendor>/<executable>` if it exists. */
  function VendorProbe(fs: set<Path>, sub: seq<string>, executable: string): Path -> Option<string> {
    dir => if dir + sub + [executable] in fs then Some(Render(dir + sub + [executable])) else None
  }

  /** `test_vendor`: nothing for a language without a vendor directory. */
  method TestVendor(fs: set<Path>, path: Path, langName: string, executable: string) returns (r: Option<string>)
    ensures r == VendorFor(fs, path, langName, executable)
  {
    var vendor := VendorDir(langName);
    if vendor.None? {
      return None;
    }
    var sub := vendor.value;
    r := FindInParentDirs(path, VendorProbe(fs, sub, executable));
    forall d: Path
      ensures VendorProbe(fs, sub, executable)(d) == RenderOpt(FirstExisting(fs, d + sub, [executable]))
    {
      assert d + sub + [executable] == (d + sub) + [executable];
    }
    SearchIsNearest(fs, Dir(path), sub, [executable], VendorProbe(fs, sub, executable));
  }

  /** `resolve_executable`: the project-local copy, else the one on `PATH`,
      else the language's default executable. */
  function ResolveExecutable(vendor: Option<string>, which: map<string, string>, lang: LanguageConfig, tool: Tool): (r: string)
    ensures vendor.Some? ==> r == vendor.value
    ensures vendor.None? && tool.executable in which ==> r == which[tool.executable]
    ensures vendor.None? && tool.executable !in which ==> r == lang.defaultExecutable
  {
    if vendor.Some? then vendor.value
    else if tool.executable in which then which[tool.executable]
    else lang.defaultExecutable
  }

  /** The configuration file each tool would find for `path`. */
  function ToolConfigs(fs: set<Path>, path: Path, tools: seq<Tool>): (r: seq<Option<string>>)
    ensures |r| == |tools|
    ensures forall j :: 0 <= j < |tools| ==> r[j] == ConfigForTool(fs, path, tools[j].configFiles)
  {
    seq(|tools|, j requires 0 <= j < |tools| => ConfigForTool(fs, path, tools[j].configFiles))
  }

  /** The first present entry of `cs` from index `n` on, with its index. */
  function FirstPresent(cs: seq<Option<string>>, n: nat): (r: Option<(nat, string)>)
    requires n <= |cs|
    ensures r.None? <==> forall j :: n <= j < |cs| ==> cs[j].None?
    ensures r.Some? ==> n <= r.value.0 < |cs| && cs[r.value.0] == Some(r.value.1)
                        && forall j :: n <= j < r.value.0 ==> cs[j].None?
    decreases |cs| - n
  {
    if n == |cs| then None
    else if cs[n].Some? then Some((n, cs[n].value))
    else FirstPresent(cs, n + 1)
  }

  /** What `pick_tool_for_file` chooses: the first tool, in priority order,
      with a configuration file anywhere above `path` and that file; else
      the first tool and no configuration. */
  function PickTool(fs: set<Path>, path: Path, tools: seq<Tool>): (r: (nat, Option<string>))
    requires tools != []
    ensures r.0 < |tools|
    ensures r.1.Some? ==> r.1 == ConfigForTool(fs, path, tools[r.0].configFiles)
                          && forall j :: 0 <= j < r.0 ==> ConfigForTool(fs, path, tools[j].configFiles).None?
    ensures r.1.None? ==> r.0 == 0 && forall j :: 0 <= j < |tools| ==> ConfigForTool(fs, path, tools[j].configFiles).None?
  {
    var cs := ToolConfigs(fs, path, tools);
    match FirstPresent(cs, 0)
    case Some((k, c)) => (k, Some(c))
    case None => (0, None)
  }

  /** `pick_tool_for_file`'s loop over the tools. */
  method PickToolForFile(fs: set<Path>, path: Path, tools: seq<Tool>) returns (k: nat, config: Option<string>)
    requires tools != []
    ensures (k, config) == PickTool(fs, path, tools)
  {
    ghost var cs := ToolConfigs(fs, path, tools);
    for i := 0 to |tools|
      invariant FirstPresent(cs, 0) == FirstPresent(cs, i)
    {
      var found := TestConfigForTool(fs, path, tools[i].configFiles);
      if found.Some? {
        return i, found;
      }
    }
    return 0, None;
  }

  /** `build_command`: the first built part is the program, the rest its
      arguments; nothing when the template has no parts. */
  function BuildCommand(exec: string, tool: Tool, config: Option<string>): (r: Option<(string, seq<string>)>)
    ensures r.None? <==> Build(tool.template, exec, config) == []
    ensures r.Some? ==> [r.value.0] + r.value.1 == Build(tool.template, exec, config)
  {
    var args := Build(tool.template, exec, config);
    if args == [] then None else Some((args[0], args[1..]))
  }

  /** The javascript entry's first tool is eslint with its template. */
  lemma JavascriptFirstTool()
    ensures Languages[1].tools[0] == Tool("eslint", EslintConfigFiles, EslintTemplate)
  {
  }

  /** With no configuration found, javascript's first tool runs as
      `eslint --fix`. */
  lemma EslintDefaultCommand()
    ensures BuildCommand("eslint", Languages[1].tools[0], None) == Some(("eslint", ["--fix"]))
  {
    JavascriptFirstTool();
    assert BraceFree("eslint");
    BuildEslint("eslint", "");
    assert ["eslint", "--fix"][1..] == ["--fix"];
  }

  /** Every template the table uses has parts with and without a
      configuration, so every shipped tool yields a command. */
  predicate HasParts(t: Template) {
    t.withConfig != [] && t.withoutConfig != []
  }

  lemma ToolsHaveParts(tools: seq<Tool>)
    requires tools in [JsTsTools, PythonTools, GoTools, RustTools, JavaTools, PhpTools, CssTools,
                       PrettierOnlyTools, ShellTools, SqlTools, DockerfileTools]
    ensures forall j :: 0 <= j < |tools| ==> HasParts(tools[j].template)
  {
  }

  lemma ShippedToolsBuild(i: nat, j: nat, exec: string, config: Option<string>)
    requires i < |Languages| && j < |Languages[i].tools|
    ensures BuildCommand(exec, Languages[i].tools[j], config).Some?
  {
    ToolsHaveParts(Languages[i].tools);
  }

  // ---------------------------------------------------------------------
  // Tool priority over nearness, on one project

  /** A project `/p` with `/p/.flake8` and `/p/src/.pylintrc`. */
  function PriorityFs(): set<Path> {
    {["p", ".flake8"], ["p", "src", ".pylintrc"]}
  }

  lemma SrcAncestors()
    ensures Ancestors(Dir(["p", "src", "a.py"])) == [["p", "src"], ["p"]]
  {
    assert Dir(["p", "src", "a.py"]) == ["p", "src"];
    assert Dir(["p", "src"]) == ["p"];
    assert Ancestors(["p"]) == [["p"]];
  }

  /** Two paths with different last components differ. */
  lemma LastDiffers(d: Path, a: string, q: Path)
    requires q != [] && a != q[|q| - 1]
    ensures d + [a] != q
  {
    assert (d + [a])[|d + [a]| - 1] == a;
  }

  lemma BlackSkipsSrc()
    ensures FirstExisting(PriorityFs(), ["p", "src"], BlackConfigFiles).None?
  {
    var q := ["p", "src", ".pylintrc"];
    assert "pyproject.toml"[0] != ".pylintrc"[0];
    assert "setup.cfg"[0] != ".pylintrc"[0];
    assert ".flake8"[1] != ".pylintrc"[1];
    assert "tox.ini"[0] != ".pylintrc"[0];
    LastDiffers(["p", "src"], "pyproject.toml", q);
    LastDiffers(["p", "src"], "setup.cfg", q);
    LastDiffers(["p", "src"], ".flake8", q);
    LastDiffers(["p", "src"], "tox.ini", q);
  }

  lemma BlackFindsFlake8()
    ensures FirstExisting(PriorityFs(), ["p"], BlackConfigFiles) == Some(["p", ".flake8"])
  {
    var q := ["p", ".flake8"];
    assert "pyproject.toml"[0] != ".flake8"[0];
    assert "setup.cfg"[0] != ".flake8"[0];
    LastDiffers(["p"], "pyproject.toml", q);
    LastDiffers(["p"], "setup.cfg", q);
    assert |["p"] + ["pyproject.toml"]| != |["p", "src", ".pylintrc"]|;
    assert |["p"] + ["setup.cfg"]| != |["p", "src", ".pylintrc"]|;
    assert ["p"] + [".flake8"] == ["p", ".flake8"];
  }

  lemma PylintFindsSrc()
    ensures FirstExisting(PriorityFs(), ["p", "src"], PylintConfigFiles) == Some(["p", "src", ".pylintrc"])
  {
    assert ["p", "src"] + [".pylintrc"] == ["p", "src", ".pylintrc"];
  }

  /** Tool order beats directory nearness: pylint's configuration sits in
      the file's own directory, but black comes first and takes the
      `.flake8` one level up, which is among black's configuration names. */
  lemma ToolPriorityBeatsNearness()
    ensures ConfigForTool(PriorityFs(), ["p", "src", "a.py"], PylintConfigFiles) == Some(Render(["p", "src", ".pylintrc"]))
    ensures PickTool(PriorityFs(), ["p", "src", "a.py"], PythonTools) == (0, Some(Render(["p", ".flake8"])))
  {
    var path := ["p", "src", "a.py"];
    SrcAncestors();
    var anc := Ancestors(Dir(path));
    BlackSkipsSrc();
    BlackFindsFlake8();
    PylintFindsSrc();
    assert anc[0] + [] == ["p", "src"];
    assert anc[1] + [] == ["p"];
    assert Nearest(PriorityFs(), anc, [], BlackConfigFiles) == Some(["p", ".flake8"]);
    assert PythonTools[0].configFiles == BlackConfigFiles;
    assert PythonTools[2].configFiles == PylintConfigFiles;
  }
}
