/** main.c, part 1: the PHP-only version's probes for a coding-standard file
    and a project-local executable, the upward walk of `walk_path` that uses
    them, and the defaults it falls back to. `fs` is the set of paths
    `access(.., R_OK)` accepts and `opendir` can open. An empty string is an
    output buffer nothing has been written to. */
module CResolve {
  import opened Wrappers
  import opened Text
  import opened Paths

  const PhpcsConfigFiles: seq<string> := ["phpcs.xml", "phpcs.xml.dist"]
  const PhpCsFixerConfigFiles: seq<string> := [".php-cs-fixer", ".php-cs-fixer.php", ".php-cs-fixer.dist", ".php-cs-fixer.dist.php"]

  const PhpcsStandardFlag := "--standard="
  const PhpCsFixerConfigFlag := "--using-cache=no --config="
  const PhpcbfVendor := "php -dmemory_limit=-1 "
  const PhpCsFixerVendor := "PHP_CS_FIXER_IGNORE_ENV=true php -dmemory_limit=-1 "
  const PhpCsFixerDefault := "PHP_CS_FIXER_IGNORE_ENV=true php-cs-fixer fix"
  const PhpcbfDefault := "phpcbf"
  const PhpcbfDefaultConfig := "--standard=PSR12"
  const PhpCsFixerDefaultConfig := "--rules=@Symfony,@PSR12 --using-cache=no"

  /** `sprintf("%s/%s", dir, name)`. */
  function SlashJoin(dir: Path, name: string): (s: string)
    ensures dir != [] ==> s == Render(dir + [name])
  {
    if dir == [] then Render(dir) + "/" + name
    else RenderChild(dir, name); Render(dir) + "/" + name
  }

  /** The first of `names` readable in `dir`. */
  function FoundName(fs: set<Path>, dir: Path, names: seq<string>): (r: Option<string>)
    ensures r.None? <==> FirstExisting(fs, dir, names).None?
    ensures r.Some? ==> FirstExisting(fs, dir, names) == Some(dir + [r.value]) && r.value in names
  {
    match FirstExisting(fs, dir, names)
    case None => None
    case Some(f) => Some(f[|f| - 1])
  }

  /** The candidate at `i`, the first readable one, is what `FoundName` finds. */
  lemma FoundAt(fs: set<Path>, dir: Path, names: seq<string>, i: nat)
    requires i < |names| && dir + [names[i]] in fs
    requires forall m :: 0 <= m < i ==> dir + [names[m]] !in fs
    ensures FoundName(fs, dir, names) == Some(names[i])
  {
    var f := FirstExisting(fs, dir, names).value;
    var n :| 0 <= n < |names| && f == dir + [names[n]] && f in fs
             && forall m :: 0 <= m < n ==> dir + [names[m]] !in fs;
    assert n == i;
  }

  /** What `test_config` writes for directory `dir`: the first readable
      `phpcs` file as a `--standard=` flag, else the first readable
      `php-cs-fixer` file as a `--config=` flag. */
  function ConfigFlag(fs: set<Path>, dir: Path): (r: Option<string>)
    ensures r.Some? ==> r.value != ""
    ensures (exists i :: 0 <= i < |PhpcsConfigFiles| && dir + [PhpcsConfigFiles[i]] in fs)
            ==> r.Some? && HasPrefix(r.value, PhpcsStandardFlag)
    ensures r.None? <==> (forall i :: 0 <= i < |PhpcsConfigFiles| ==> dir + [PhpcsConfigFiles[i]] !in fs)
                         && (forall i :: 0 <= i < |PhpCsFixerConfigFiles| ==> dir + [PhpCsFixerConfigFiles[i]] !in fs)
  {
    match FoundName(fs, dir, PhpcsConfigFiles)
    case Some(n) => Some(PhpcsStandardFlag + SlashJoin(dir, n))
    case None =>
      match FoundName(fs, dir, PhpCsFixerConfigFiles)
      case Some(n) => Some(PhpCsFixerConfigFlag + SlashJoin(dir, n))
      case None => None
  }

  /** `test_config`: the two loops with their early returns; the buffer is
      left as it was when nothing is readable. */
  method TestConfig(fs: set<Path>, path: Path, buffer: string) returns (out: string)
    ensures ConfigFlag(fs, path).Some? ==> out == ConfigFlag(fs, path).value
    ensures ConfigFlag(fs, path).None? ==> out == buffer
  {
    for i := 0 to |PhpcsConfigFiles|
      invariant forall m :: 0 <= m < i ==> path + [PhpcsConfigFiles[m]] !in fs
    {
      var config := path + [PhpcsConfigFiles[i]];
      if config in fs {
        FoundAt(fs, path, PhpcsConfigFiles, i);
        return PhpcsStandardFlag + SlashJoin(path, PhpcsConfigFiles[i]);
      }
    }
    for i := 0 to |PhpCsFixerConfigFiles|
      invariant forall m :: 0 <= m < i ==> path + [PhpCsFixerConfigFiles[m]] !in fs
    {
      var config := path + [PhpCsFixerConfigFiles[i]];
      if config in fs {
        FoundAt(fs, path, PhpCsFixerConfigFiles, i);
        return PhpCsFixerConfigFlag + SlashJoin(path, PhpCsFixerConfigFiles[i]);
      }
    }
    return buffer;
  }

  /** What `test_vendor` writes for directory `dir`: `vendor/bin/phpcbf` run
      through php if readable, else `vendor/bin/php-cs-fixer` run through
      php with its `fix` command. */
  function VendorCommand(fs: set<Path>, dir: Path): (r: Option<string>)
    ensures r.Some? ==> r.value != ""
    ensures r.None? <==> dir + ["vendor", "bin", "phpcbf"] !in fs && dir + ["vendor", "bin", "php-cs-fixer"] !in fs
    ensures dir + ["vendor", "bin", "phpcbf"] in fs ==> r.Some? && Contains(r.value, "phpcbf")
  {
    if dir + ["vendor", "bin", "phpcbf"] in fs then
      var cmd := PhpcbfVendor + Render(dir) + "/vendor/bin/" + "phpcbf";
      ContainsAt(PhpcbfVendor + Render(dir) + "/vendor/bin/", "phpcbf", "");
      assert cmd + "" == cmd;
      Some(cmd)
    else if dir + ["vendor", "bin", "php-cs-fixer"] in fs then
      Some(PhpCsFixerVendor + Render(dir) + "/vendor/bin/php-cs-fixer" + " fix")
    else None
  }

  /** `test_vendor`; the buffer is left as it was when neither is readable. */
  method TestVendor(fs: set<Path>, path: Path, buffer: string) returns (out: string)
    ensures VendorCommand(fs, path).Some? ==> out == VendorCommand(fs, path).value
    ensures VendorCommand(fs, path).None? ==> out == buffer
  {
    var testPhpcs := path + ["vendor", "bin", "phpcbf"];
    if testPhpcs in fs {
      return PhpcbfVendor + Render(path) + "/vendor/bin/" + "phpcbf";
    }
    var testPhpCsFixer := path + ["vendor", "bin", "php-cs-fixer"];
    if testPhpCsFixer in fs {
      out := PhpCsFixerVendor + Render(path) + "/vendor/bin/php-cs-fixer" + " fix";
      return;
    }
    return buffer;
  }

  /** A probe's output, or the buffer it leaves alone. */
  function OrKeep(r: Option<string>, buffer: string): string {
    match r
    case Some(v) => v
    case None => buffer
  }

  /** One turn of the loop of `walk_path` in `directory`: each buffer that
      is still empty is probed, a filled one is never probed again. */
  function Probe(fs: set<Path>, directory: Path, config: string, exec: string): (r: (string, string))
    ensures config != "" ==> r.0 == config
    ensures exec != "" ==> r.1 == exec
    ensures config == "" ==> r.0 == OrKeep(ConfigFlag(fs, directory), "")
    ensures exec == "" ==> r.1 == OrKeep(VendorCommand(fs, directory), "")
  {
    (if config == "" then OrKeep(ConfigFlag(fs, directory), config) else config,
     if exec == "" then OrKeep(VendorCommand(fs, directory), exec) else exec)
  }

  /** The loop of `walk_path` as written: it goes up while at least one
      buffer is filled, and stops right after a directory where both are
      still empty. A filled buffer is never overwritten. */
  function WalkUpAsWritten(fs: set<Path>, directory: Path, config: string, exec: string): (r: (string, string))
    ensures config != "" ==> r.0 == config
    ensures exec != "" ==> r.1 == exec
    decreases |directory|
  {
    if directory !in fs || directory == [] then (config, exec)
    else
      var (c, e) := Probe(fs, directory, config, exec);
      if c == "" && e == "" then (c, e)
      else WalkUpAsWritten(fs, Dir(directory), c, e)
  }

  /** The loop as evidently intended: go up until both buffers are filled,
      the root is reached, or a directory cannot be opened. */
  function WalkUpIntended(fs: set<Path>, directory: Path, config: string, exec: string): (r: (string, string))
    ensures config != "" ==> r.0 == config
    ensures exec != "" ==> r.1 == exec
    decreases |directory|
  {
    if directory !in fs || directory == [] then (config, exec)
    else
      var (c, e) := Probe(fs, directory, config, exec);
      if c != "" && e != "" then (c, e)
      else WalkUpIntended(fs, Dir(directory), c, e)
  }

  /** Once one buffer is filled, the two stopping rules give the same
      result: the walk as written goes on to the root or the first closed
      directory, but a filled buffer is never probed again. */
  lemma {:induction false} AsWrittenAgreesOnceFilled(fs: set<Path>, directory: Path, config: string, exec: string)
    requires config != "" || exec != ""
    ensures WalkUpAsWritten(fs, directory, config, exec) == WalkUpIntended(fs, directory, config, exec)
    decreases |directory|
  {
    if directory in fs && directory != [] {
      var (c, e) := Probe(fs, directory, config, exec);
      if !(c != "" && e != "") {
        AsWrittenAgreesOnceFilled(fs, Dir(directory), c, e);
      }
    }
  }

  /** The walk as written from empty buffers: nothing at all when the start
      directory holds neither file, and otherwise whatever the intended walk
      finds. */
  lemma AsWrittenSearch(fs: set<Path>, directory: Path)
    ensures WalkUpAsWritten(fs, directory, "", "")
         == if directory in fs && directory != [] && ConfigFlag(fs, directory).None? && VendorCommand(fs, directory).None?
            then ("", "")
            else WalkUpIntended(fs, directory, "", "")
  {
    if directory in fs && directory != [] {
      var (c, e) := Probe(fs, directory, "", "");
      if c != "" || e != "" {
        AsWrittenAgreesOnceFilled(fs, Dir(directory), c, e);
        if c != "" && e != "" {
          assert WalkUpAsWritten(fs, Dir(directory), c, e) == (c, e);
        }
      }
    }
  }

  /** The directories the loop can visit from `directory`: upward, up to but
      excluding the root and the first one that cannot be opened. */
  function Reachable(fs: set<Path>, directory: Path): (r: seq<Path>)
    ensures |r| <= |directory|
    ensures forall k :: 0 <= k < |r| ==> r[k] in fs && r[k] != [] && r[k] == directory[..|directory| - k]
    decreases |directory|
  {
    if directory == [] || directory !in fs then [] else [directory] + Reachable(fs, Dir(directory))
  }

  /** The first value a probe gives over `dirs`, or "". */
  function FirstOf(dirs: seq<Path>, probe: Path -> Option<string>): string {
    if dirs == [] then ""
    else if probe(dirs[0]).Some? then probe(dirs[0]).value
    else FirstOf(dirs[1..], probe)
  }

  /** The search gives "" when no directory has a value, and otherwise the
      value of the first one that has. */
  lemma {:induction false} FirstOfSpec(dirs: seq<Path>, probe: Path -> Option<string>)
    ensures (forall k :: 0 <= k < |dirs| ==> probe(dirs[k]).None?) ==> FirstOf(dirs, probe) == ""
    ensures forall k :: 0 <= k < |dirs| && probe(dirs[k]).Some? && (forall j :: 0 <= j < k ==> probe(dirs[j]).None?)
              ==> FirstOf(dirs, probe) == probe(dirs[k]).value
  {
    if dirs != [] && probe(dirs[0]).None? {
      FirstOfSpec(dirs[1..], probe);
      assert forall k :: 1 <= k < |dirs| ==> dirs[k] == dirs[1..][k - 1];
    }
  }

  function ConfigProbe(fs: set<Path>): Path -> Option<string> {
    d => ConfigFlag(fs, d)
  }

  function VendorProbe(fs: set<Path>): Path -> Option<string> {
    d => VendorCommand(fs, d)
  }

  /** The intended loop searches for the two independently: each buffer ends
      up with the nearest reachable directory's value, unless it was filled
      before the walk. */
  lemma {:induction false} WalkUpSearches(fs: set<Path>, directory: Path, config: string, exec: string)
    ensures WalkUpIntended(fs, directory, config, exec)
         == (if config != "" then config else FirstOf(Reachable(fs, directory), ConfigProbe(fs)),
             if exec != "" then exec else FirstOf(Reachable(fs, directory), VendorProbe(fs)))
    decreases |directory|
  {
    if directory in fs && directory != [] {
      var (c, e) := Probe(fs, directory, config, exec);
      var rest := Reachable(fs, Dir(directory));
      assert Reachable(fs, directory) == [directory] + rest;
      assert ([directory] + rest)[1..] == rest;
      if !(c != "" && e != "") {
        WalkUpSearches(fs, Dir(directory), c, e);
      }
    }
  }

  /** As written, a directory that holds neither file ends the walk, so a
      search that starts there finds nothing whatever is further up. */
  lemma AsWrittenStopsAtFirstMiss(fs: set<Path>, directory: Path)
    requires directory in fs && directory != []
    requires ConfigFlag(fs, directory).None? && VendorCommand(fs, directory).None?
    ensures WalkUpAsWritten(fs, directory, "", "") == ("", "")
  {
  }

  /** A project `/p` with `/p/phpcs.xml`, searched from `/p/src`. */
  function SubdirFs(): set<Path> {
    {["p"], ["p", "src"], ["p", "phpcs.xml"]}
  }

  lemma SrcProbesEmpty()
    ensures ConfigFlag(SubdirFs(), ["p", "src"]).None?
    ensures VendorCommand(SubdirFs(), ["p", "src"]).None?
  {
    var fs := SubdirFs();
    forall i | 0 <= i < |PhpcsConfigFiles|
      ensures ["p", "src"] + [PhpcsConfigFiles[i]] !in fs
    {
      assert |["p", "src"] + [PhpcsConfigFiles[i]]| == 3;
      assert ["p", "src"] + [PhpcsConfigFiles[i]] != ["p", "src"];
    }
    forall i | 0 <= i < |PhpCsFixerConfigFiles|
      ensures ["p", "src"] + [PhpCsFixerConfigFiles[i]] !in fs
    {
      assert |["p", "src"] + [PhpCsFixerConfigFiles[i]]| == 3;
      assert ["p", "src"] + [PhpCsFixerConfigFiles[i]] != ["p", "src"];
    }
    assert |["p", "src"] + ["vendor", "bin", "phpcbf"]| == 5;
    assert |["p", "src"] + ["vendor", "bin", "php-cs-fixer"]| == 5;
  }

  lemma RootConfigFound()
    ensures ConfigFlag(SubdirFs(), ["p"]) == Some(PhpcsStandardFlag + "/p/phpcs.xml")
  {
    var fs := SubdirFs();
    assert ["p"] + [PhpcsConfigFiles[0]] == ["p", "phpcs.xml"];
    FoundAt(fs, ["p"], PhpcsConfigFiles, 0);
    assert Slashed(["p"]) == Slashed([]) + "/" + "p";
    assert Render(["p"]) == "/p";
    assert SlashJoin(["p"], "phpcs.xml") == "/p" + "/" + "phpcs.xml";
    assert "/p" + "/" + "phpcs.xml" == "/p/phpcs.xml";
  }

  /** On that project the walk as written gives up in `/p/src`; the intended
      walk finds `/p/phpcs.xml` one level up. */
  lemma SubdirectoryMissesProjectConfig()
    ensures WalkUpAsWritten(SubdirFs(), ["p", "src"], "", "") == ("", "")
    ensures WalkUpIntended(SubdirFs(), ["p", "src"], "", "").0 == PhpcsStandardFlag + "/p/phpcs.xml"
  {
    SrcProbesEmpty();
    RootConfigFound();
    assert Dir(["p", "src"]) == ["p"];
  }

  /** The loop of `walk_path`, from the directory it starts in: each empty
      buffer is probed, and the loop breaks at the root or once both buffers
      are still empty, else goes up to the parent. */
  method WalkLoop(fs: set<Path>, start: Path) returns (config: string, exec: string)
    ensures (config, exec) == WalkUpAsWritten(fs, start, "", "")
  {
    var directory := start;
    config, exec := "", "";
    while directory in fs
      invariant WalkUpAsWritten(fs, directory, config, exec) == WalkUpAsWritten(fs, start, "", "")
      decreases |directory|
    {
      if directory == [] {
        break;
      }
      if config == "" {
        config := TestConfig(fs, directory, config);
      }
      if exec == "" {
        exec := TestVendor(fs, directory, exec);
      }
      if config == "" && exec == "" {
        break;
      }
      directory := Dir(directory);
    }
  }

  /** The fallbacks after the walk, as written: the `phpcbf` executable is
      chosen only for an empty configuration that contains "phpcs". */
  function DefaultsAsWritten(config: string, exec: string): (r: (string, string))
    ensures r.0 != "" && r.1 != ""
    ensures config != "" ==> r.0 == config
    ensures exec != "" ==> r.1 == exec
    ensures exec == "" ==> r.1 == PhpcbfDefault || r.1 == PhpCsFixerDefault
    ensures config == "" ==> (r.0 == PhpcbfDefaultConfig <==> Contains(r.1, "phpcbf"))
    ensures config == "" && r.0 != PhpcbfDefaultConfig ==> r.0 == PhpCsFixerDefaultConfig
  {
    var e :=
      if exec != "" then exec
      else if config == "" && Contains(config, "phpcs") then PhpcbfDefault
      else PhpCsFixerDefault;
    var c :=
      if config != "" then config
      else if Contains(e, "phpcbf") then PhpcbfDefaultConfig
      else PhpCsFixerDefaultConfig;
    (c, e)
  }

  /** The fallbacks as evidently intended: `phpcbf` when the configuration
      found is a `phpcs` one; then a default configuration matching the
      executable. */
  function DefaultsIntended(config: string, exec: string): (r: (string, string))
    ensures r.0 != "" && r.1 != ""
    ensures config != "" ==> r.0 == config
    ensures exec != "" ==> r.1 == exec
    ensures exec == "" ==> (r.1 == PhpcbfDefault <==> config != "" && Contains(config, "phpcs"))
    ensures exec == "" && r.1 != PhpcbfDefault ==> r.1 == PhpCsFixerDefault
    ensures config == "" ==> (r.0 == PhpcbfDefaultConfig <==> Contains(r.1, "phpcbf"))
    ensures config == "" && r.0 != PhpcbfDefaultConfig ==> r.0 == PhpCsFixerDefaultConfig
  {
    var e :=
      if exec != "" then exec
      else if config != "" && Contains(config, "phpcs") then PhpcbfDefault
      else PhpCsFixerDefault;
    var c :=
      if config != "" then config
      else if Contains(e, "phpcbf") then PhpcbfDefaultConfig
      else PhpCsFixerDefaultConfig;
    (c, e)
  }

  /** As written, an empty executable always falls back to php-cs-fixer,
      even when a `phpcs` standard was found. */
  lemma PhpcbfFallbackUnreachable(config: string)
    ensures DefaultsAsWritten(config, "").1 == PhpCsFixerDefault
  {
    if config == "" {
      assert !HasPrefix(config, "phpcs");
    }
  }

  lemma StandardNamesPhpcs(i: nat)
    requires i < |PhpcsConfigFiles|
    ensures HasPrefix(PhpcsConfigFiles[i], "phpcs")
  {
  }

  /** A `phpcs` standard found in any directory mentions "phpcs". */
  lemma StandardFlagMentionsPhpcs(dir: Path, name: string)
    requires HasPrefix(name, "phpcs")
    ensures Contains(PhpcsStandardFlag + SlashJoin(dir, name), "phpcs")
  {
    var rest := name[5..];
    assert name == "phpcs" + rest;
    assert PhpcsStandardFlag + SlashJoin(dir, name) == (PhpcsStandardFlag + Render(dir) + "/") + "phpcs" + rest;
    ContainsAt(PhpcsStandardFlag + Render(dir) + "/", "phpcs", rest);
  }

  /** With the intended fallback, a project with a `phpcs` standard and no
      vendored tool is run with `phpcbf` and that standard. */
  lemma StandardSelectsPhpcbf(fs: set<Path>, dir: Path, i: nat)
    requires i < |PhpcsConfigFiles| && dir + [PhpcsConfigFiles[i]] in fs
    requires forall m :: 0 <= m < i ==> dir + [PhpcsConfigFiles[m]] !in fs
    ensures DefaultsIntended(ConfigFlag(fs, dir).value, "") == (ConfigFlag(fs, dir).value, PhpcbfDefault)
  {
    FoundAt(fs, dir, PhpcsConfigFiles, i);
    StandardNamesPhpcs(i);
    StandardFlagMentionsPhpcs(dir, PhpcsConfigFiles[i]);
  }

  /** A vendored `phpcbf` gets the PSR12 standard when no configuration was
      found, under both fallbacks. */
  lemma VendoredPhpcbfGetsPsr12(fs: set<Path>, dir: Path)
    requires dir + ["vendor", "bin", "phpcbf"] in fs
    ensures DefaultsAsWritten("", VendorCommand(fs, dir).value).0 == PhpcbfDefaultConfig
    ensures DefaultsIntended("", VendorCommand(fs, dir).value).0 == PhpcbfDefaultConfig
  {
  }

  /** Where `walk_path` starts: the argument itself when it is a directory,
      otherwise the directory holding it. */
  function StartDir(dirs: set<Path>, p: Path): Path {
    if p in dirs then p else Dir(p)
  }

  /** The configuration and executable `walk_path` settles on for `p`. */
  function Resolve(fs: set<Path>, dirs: set<Path>, p: Path): (r: (string, string))
    ensures r.0 != "" && r.1 != ""
  {
    var (c, e) := WalkUpAsWritten(fs, StartDir(dirs, p), "", "");
    DefaultsAsWritten(c, e)
  }

  /** The configuration and executable with the intended walk and fallback. */
  function ResolveIntended(fs: set<Path>, dirs: set<Path>, p: Path): (r: (string, string))
    ensures r.0 != "" && r.1 != ""
  {
    var (c, e) := WalkUpIntended(fs, StartDir(dirs, p), "", "");
    DefaultsIntended(c, e)
  }

  /** As written, a start directory that holds neither file gets the
      php-cs-fixer defaults, whatever is further up. */
  lemma ResolveMissFallsBack(fs: set<Path>, dirs: set<Path>, p: Path)
    requires StartDir(dirs, p) in fs && StartDir(dirs, p) != []
    requires ConfigFlag(fs, StartDir(dirs, p)).None? && VendorCommand(fs, StartDir(dirs, p)).None?
    ensures Resolve(fs, dirs, p) == (PhpCsFixerDefaultConfig, PhpCsFixerDefault)
  {
    AsWrittenStopsAtFirstMiss(fs, StartDir(dirs, p));
    PhpcbfFallbackUnreachable("");
    FixerDefaultLacksPhpcbf();
  }

  lemma FixerDefaultLacksPhpcbf()
    ensures !Contains(PhpCsFixerDefault, "phpcbf")
  {
    var x, y, z := "PHP_CS_FIXER_IGNORE_ENV=true ", "php-cs-", "fixer fix";
    assert PhpCsFixerDefault == x + y + z;
    assert forall i :: 0 <= i < |x| ==> x[i] != 'b';
    assert forall i :: 0 <= i < |y| ==> y[i] != 'b';
    assert forall i :: 0 <= i < |z| ==> z[i] != 'b';
    NotContainsMissingChar(PhpCsFixerDefault, "phpcbf", 4);
  }
}
