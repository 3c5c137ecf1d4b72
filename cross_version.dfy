/** Where the Go and the Rust versions agree and where they differ: the
    command words of the tools both ship, the precedence of configuration
    files, the classification of `Dockerfile`, and the exit-code rule. */
module CrossVersion {
  import opened Wrappers
  import opened Paths
  import opened ExitCodes
  import GoBuilders
  import GoTable
  import GoResolve
  import RustTemplates
  import RustTable
  import RustResolve

  /** The Rust template of a Go builder whose tool both versions ship with
      the same words. */
  function SharedTemplate(b: GoBuilders.Builder): Option<RustTemplates.Template> {
    match b
    case Prettier => Some(RustTemplates.PrettierTemplate)
    case Eslint => Some(RustTemplates.EslintTemplate)
    case Flake8 => Some(RustTemplates.SimpleConfigTemplate)
    case Black => Some(RustTemplates.SimpleConfigTemplate)
    case Hadolint => Some(RustTemplates.SimpleConfigTemplate)
    case Gofmt => Some(RustTemplates.GofmtTemplate)
    case Rustfmt => Some(RustTemplates.RustfmtTemplate)
    case ClangFormat => Some(RustTemplates.ClangFormatTemplate)
    case Phpcbf => Some(RustTemplates.PhpcbfTemplate)
    case Sqlfluff => Some(RustTemplates.SqlfluffTemplate)
    case Shellcheck => Some(RustTemplates.RcfileTemplate)
    case _ => None
  }

  /** Go's empty configuration path is Rust's `None`. */
  function AsOption(c: string): Option<string> {
    if c == "" then None else Some(c)
  }

  /** For the shared tools, Go's command words are exactly the words Rust's
      template builds, with and without a configuration. */
  lemma SharedBuildersAgree(b: GoBuilders.Builder, e: string, c: string)
    requires SharedTemplate(b).Some? && RustTemplates.BraceFree(e)
    ensures GoBuilders.Argv(b, e, c) == RustTemplates.Build(SharedTemplate(b).value, e, AsOption(c))
  {
    if b in {GoBuilders.Prettier, GoBuilders.Eslint, GoBuilders.Flake8, GoBuilders.Black, GoBuilders.Hadolint} {
      LinterBuildersAgree(b, e, c);
    } else if b in {GoBuilders.Gofmt, GoBuilders.Rustfmt, GoBuilders.ClangFormat} {
      FormatterBuildersAgree(b, e, c);
    } else {
      OtherBuildersAgree(b, e, c);
    }
  }

  lemma LinterBuildersAgree(b: GoBuilders.Builder, e: string, c: string)
    requires b in {GoBuilders.Prettier, GoBuilders.Eslint, GoBuilders.Flake8, GoBuilders.Black, GoBuilders.Hadolint}
    requires RustTemplates.BraceFree(e)
    ensures GoBuilders.Argv(b, e, c) == RustTemplates.Build(SharedTemplate(b).value, e, AsOption(c))
  {
    match b
    case Prettier => RustTemplates.BuildPrettier(e, c);
    case Eslint => RustTemplates.BuildEslint(e, c);
    case Flake8 => RustTemplates.BuildSimpleConfig(e, c);
    case Black => RustTemplates.BuildSimpleConfig(e, c);
    case Hadolint => RustTemplates.BuildSimpleConfig(e, c);
  }

  lemma FormatterBuildersAgree(b: GoBuilders.Builder, e: string, c: string)
    requires b in {GoBuilders.Gofmt, GoBuilders.Rustfmt, GoBuilders.ClangFormat}
    requires RustTemplates.BraceFree(e)
    ensures GoBuilders.Argv(b, e, c) == RustTemplates.Build(SharedTemplate(b).value, e, AsOption(c))
  {
    match b
    case Gofmt => RustTemplates.BuildGofmt(e, c);
    case Rustfmt => RustTemplates.BuildRustfmt(e, c);
    case ClangFormat => RustTemplates.BuildClangFormat(e, c);
  }

  lemma OtherBuildersAgree(b: GoBuilders.Builder, e: string, c: string)
    requires b in {GoBuilders.Phpcbf, GoBuilders.Sqlfluff, GoBuilders.Shellcheck}
    requires RustTemplates.BraceFree(e)
    ensures GoBuilders.Argv(b, e, c) == RustTemplates.Build(SharedTemplate(b).value, e, AsOption(c))
  {
    match b
    case Phpcbf => RustTemplates.BuildPhpcbf(e, c);
    case Sqlfluff => RustTemplates.BuildSqlfluff(e, c);
    case Shellcheck => RustTemplates.BuildRcfile(e, c);
  }

  /** Go's pylint builder (which no entry of its table uses) passes the
      configuration with `--rcfile`; Rust's pylint tool shares the python
      template and passes it with `--config`. */
  lemma PylintFlagDiffers(e: string, c: string)
    requires RustTemplates.BraceFree(e)
    requires c != ""
    ensures GoBuilders.Argv(GoBuilders.Pylint, e, c) == [e, "--rcfile", c]
    ensures RustTemplates.Build(RustTemplates.SimpleConfigTemplate, e, Some(c)) == [e, "--config", c]
  {
    RustTemplates.BuildSimpleConfig(e, c);
  }

  // ---------------------------------------------------------------------
  // Precedence on one project

  /** Go's python entry finds the configuration names in this order. */
  lemma GoPythonNames()
    ensures GoTable.Languages[0].configFiles == [".flake8", "pyproject.toml", "setup.cfg", "tox.ini", ".pylintrc", "pylintrc"]
  {
  }

  lemma GoFindsPylintrc()
    ensures FirstExisting(RustResolve.PriorityFs(), ["p", "src"], GoTable.Languages[0].configFiles) == Some(["p", "src", ".pylintrc"])
  {
    GoPythonNames();
    var q := ["p", "src", ".pylintrc"];
    assert ".flake8"[1] != ".pylintrc"[1];
    assert "pyproject.toml"[0] != ".pylintrc"[0];
    assert "setup.cfg"[0] != ".pylintrc"[0];
    assert "tox.ini"[0] != ".pylintrc"[0];
    RustResolve.LastDiffers(["p", "src"], ".flake8", q);
    RustResolve.LastDiffers(["p", "src"], "pyproject.toml", q);
    RustResolve.LastDiffers(["p", "src"], "setup.cfg", q);
    RustResolve.LastDiffers(["p", "src"], "tox.ini", q);
    assert |["p", "src"] + [".flake8"]| != |["p", ".flake8"]|;
    assert |["p", "src"] + ["pyproject.toml"]| != |["p", ".flake8"]|;
    assert |["p", "src"] + ["setup.cfg"]| != |["p", ".flake8"]|;
    assert |["p", "src"] + ["tox.ini"]| != |["p", ".flake8"]|;
    assert ["p", "src"] + [".pylintrc"] == q;
  }

  /** For `/p/src/a.py` in a project with `/p/.flake8` and
      `/p/src/.pylintrc`, Go takes the nearer `.pylintrc` (directory first)
      and Rust the farther `.flake8` (tool first). */
  lemma PrecedenceDiffers()
    ensures GoResolve.ConfigFor(RustResolve.PriorityFs(), ["p", "src", "a.py"], GoTable.Languages[0])
         == Render(["p", "src", ".pylintrc"])
    ensures RustResolve.PickTool(RustResolve.PriorityFs(), ["p", "src", "a.py"], RustTable.PythonTools).1
         == Some(Render(["p", ".flake8"]))
  {
    RustResolve.SrcAncestors();
    GoFindsPylintrc();
    var anc := Ancestors(Dir(["p", "src", "a.py"]));
    assert anc[0] + [] == ["p", "src"];
    RustResolve.ToolPriorityBeatsNearness();
  }

  // ---------------------------------------------------------------------
  // Classification

  /** A file named `Dockerfile` is never classified by Go, and always by
      Rust, as the dockerfile entry (the last of both tables). */
  lemma DockerfileDiffers(dir: Path)
    ensures GoTable.Languages[14].name == "dockerfile" && RustTable.Languages[14].name == "dockerfile"
    ensures GoTable.GetLanguageForFile(GoTable.ExtensionIndex(GoTable.Languages), dir + ["Dockerfile"]) != Some(14)
    ensures RustTable.GetLanguageForFile(dir + ["Dockerfile"]) == Some(14)
  {
    GoTable.DockerfileNeverMatches(dir + ["Dockerfile"]);
    RustTable.DockerfileByName(dir);
  }

  // ---------------------------------------------------------------------
  // Exit codes

  /** Go and C report the last failure, Rust the first. */
  lemma ExitRulesDiffer()
    ensures LastFailure([1, 2]) == 2 && FirstFailure([1, 2]) == 1
  {
    assert [1, 2][..1] == [1];
    assert [1, 2][1..] == [2];
  }

  /** The rules agree when at most one batch fails. */
  lemma SingleFailureAgrees(codes: seq<int>, k: nat)
    requires k < |codes|
    requires forall j :: 0 <= j < |codes| && j != k ==> codes[j] == 0
    ensures LastFailure(codes) == FirstFailure(codes) == codes[k]
  {
    if codes[k] != 0 {
      var l := LastFailure(codes);
      var a :| 0 <= a < |codes| && codes[a] == l && forall j :: a < j < |codes| ==> codes[j] == 0;
      var f := FirstFailure(codes);
      var b :| 0 <= b < |codes| && codes[b] == f && forall j :: 0 <= j < b ==> codes[j] == 0;
    }
  }
}
