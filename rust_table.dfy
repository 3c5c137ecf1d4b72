/** src/main.rs, part 1: the static table of languages and their tools, and
    the classification of a file by the extension or the name of its last
    component. */
module RustTable {
  import opened Wrappers
  import opened Text
  import opened Paths
  import opened RustTemplates

  /** `ToolConfig`: an executable, the configuration files that select it,
      and its command template. */
  datatype Tool = Tool(executable: string, configFiles: seq<string>, template: Template)

  /** `LanguageConfig`: a language's extensions, its tools in priority
      order, and the executable used when none is found. */
  datatype LanguageConfig = LanguageConfig(name: string, extensions: seq<string>, tools: seq<Tool>, defaultExecutable: string)

  const EslintConfigFiles: seq<string> := [".eslintrc.js", ".eslintrc.cjs", ".eslintrc.json", ".eslintrc.yml", ".eslintrc.yaml", "eslint.config.js"]
  const PrettierConfigFiles: seq<string> := [".prettierrc", ".prettierrc.json", ".prettierrc.yml", ".prettierrc.yaml", "prettier.config.js"]
  const StylelintConfigFiles: seq<string> := [".stylelintrc", ".stylelintrc.js", ".stylelintrc.json", ".stylelintrc.yaml", ".stylelintrc.yml", "stylelint.config.js"]
  const BlackConfigFiles: seq<string> := ["pyproject.toml", "setup.cfg", ".flake8", "tox.ini"]
  const Flake8ConfigFiles: seq<string> := [".flake8", "setup.cfg", "tox.ini"]
  const PylintConfigFiles: seq<string> := [".pylintrc", "pylintrc", "pyproject.toml"]
  const GolangciConfigFiles: seq<string> := [".golangci.yml", ".golangci.yaml", ".golangci.json"]
  const GofmtConfigFiles: seq<string> := [".gofmt.toml", ".gofmt.json"]
  const RustfmtConfigFiles: seq<string> := [".rustfmt.toml", "rustfmt.toml"]
  const ClangFormatConfigFiles: seq<string> := [".clang-format", "clang-format.yaml", "clang-format.json"]
  const GoogleJavaFormatConfigFiles: seq<string> := ["google-java-format.xml"]
  const PhpcbfConfigFiles: seq<string> := ["phpcs.xml", "phpcs.xml.dist"]
  const PhpCsFixerConfigFiles: seq<string> := [".php-cs-fixer", ".php-cs-fixer.php", ".php-cs-fixer.dist", ".php-cs-fixer.dist.php"]

  const JsTsTools: seq<Tool> := [Tool("eslint", EslintConfigFiles, EslintTemplate), Tool("prettier", PrettierConfigFiles, PrettierTemplate)]
  const PythonTools: seq<Tool> := [Tool("black", BlackConfigFiles, SimpleConfigTemplate), Tool("flake8", Flake8ConfigFiles, SimpleConfigTemplate),
                                   Tool("pylint", PylintConfigFiles, SimpleConfigTemplate)]
  const GoTools: seq<Tool> := [Tool("gofmt", GofmtConfigFiles, GofmtTemplate), Tool("golangci-lint", GolangciConfigFiles, SimpleConfigTemplate)]
  const RustTools: seq<Tool> := [Tool("rustfmt", RustfmtConfigFiles, RustfmtTemplate)]
  const JavaTools: seq<Tool> := [Tool("clang-format", ClangFormatConfigFiles, ClangFormatTemplate),
                                 Tool("google-java-format", GoogleJavaFormatConfigFiles, ClangFormatTemplate)]
  const PhpTools: seq<Tool> := [Tool("phpcbf", PhpcbfConfigFiles, PhpcbfTemplate), Tool("php-cs-fixer", PhpCsFixerConfigFiles, SimpleConfigTemplate)]
  const CssTools: seq<Tool> := [Tool("prettier", PrettierConfigFiles, PrettierTemplate), Tool("stylelint", StylelintConfigFiles, EslintTemplate)]
  const PrettierOnlyTools: seq<Tool> := [Tool("prettier", PrettierConfigFiles, PrettierTemplate)]
  const ShellTools: seq<Tool> := [Tool("shellcheck", [".shellcheckrc"], RcfileTemplate)]
  const SqlTools: seq<Tool> := [Tool("sqlfluff", [".sqlfluff", ".sqlfluff.ini", ".sqlfluff.cfg", "pyproject.toml"], SqlfluffTemplate)]
  const DockerfileTools: seq<Tool> := [Tool("hadolint", [".hadolint.yaml", ".hadolint.yml"], SimpleConfigTemplate)]

  /** `LANGUAGES`, in declaration order. */
  const Languages: seq<LanguageConfig> := [
    LanguageConfig("python", [".py", ".pyw"], PythonTools, "black"),
    LanguageConfig("javascript", [".js", ".mjs", ".cjs", ".jsx"], JsTsTools, "eslint"),
    LanguageConfig("typescript", [".ts", ".tsx"], JsTsTools, "eslint"),
    LanguageConfig("go", [".go"], GoTools, "gofmt"),
    LanguageConfig("rust", [".rs"], RustTools, "rustfmt"),
    LanguageConfig("java", [".java"], JavaTools, "clang-format"),
    LanguageConfig("php", [".php"], PhpTools, "phpcbf"),
    LanguageConfig("css", [".css", ".scss", ".sass", ".less"], CssTools, "prettier"),
    LanguageConfig("html", [".html", ".htm"], PrettierOnlyTools, "prettier"),
    LanguageConfig("json", [".json", ".jsonc"], PrettierOnlyTools, "prettier"),
    LanguageConfig("yaml", [".yaml", ".yml"], PrettierOnlyTools, "prettier"),
    LanguageConfig("markdown", [".md", ".markdown"], PrettierOnlyTools, "prettier"),
    LanguageConfig("shell", [".sh", ".bash", ".zsh", ".fish"], ShellTools, "shellcheck"),
    LanguageConfig("sql", [".sql"], SqlTools, "sqlfluff"),
    LanguageConfig("dockerfile", ["Dockerfile"], DockerfileTools, "hadolint")
  ]

  /** Every language has a first tool, so `pick_tool_for_file`'s fallback
      `tools[0]` exists. */
  lemma EveryLanguageHasATool(i: nat)
    requires i < |Languages|
    ensures Languages[i].tools != []
  {
  }

  /** The index of the last '.' of `s`. */
  function LastDot(s: string): (r: Option<nat>)
    ensures r.Some? ==> r.value < |s| && s[r.value] == '.' && forall j :: r.value < j < |s| ==> s[j] != '.'
    ensures r.None? ==> forall j :: 0 <= j < |s| ==> s[j] != '.'
    decreases |s|
  {
    if s == [] then None
    else if s[|s| - 1] == '.' then Some(|s| - 1)
    else LastDot(s[..|s| - 1])
  }

  /** Rust's `Path::extension` of a file name: the text after the last '.',
      unless the name is "..", has no '.', or has its only '.' first (a
      hidden file such as ".bashrc"). */
  function Extension(name: string): (r: Option<string>)
    ensures r.Some? ==> exists i :: 0 < i < |name| && name[i] == '.' && r.value == name[i + 1..]
                                    && forall j :: i < j < |name| ==> name[j] != '.'
    ensures r.None? ==> name == ".." || forall j :: 0 < j < |name| ==> name[j] != '.'
  {
    if name == ".." then None
    else
      match LastDot(name)
      case None => None
      case Some(i) => if i == 0 then None else Some(name[i + 1..])
  }

  /** `trim_start_matches('.')`: the text after the leading dots. */
  function TrimDots(s: string): (r: string)
    ensures |r| <= |s|
    decreases |s|
  {
    if s != [] && s[0] == '.' then TrimDots(s[1..]) else s
  }

  /** What is left is a suffix that does not start with a dot, and what was
      removed is all dots. */
  lemma {:induction false} TrimDotsSpec(s: string)
    ensures var r := TrimDots(s);
      && r == s[|s| - |r|..]
      && (r != [] ==> r[0] != '.')
      && forall j :: 0 <= j < |s| - |r| ==> s[j] == '.'
    decreases |s|
  {
    if s != [] && s[0] == '.' {
      TrimDotsSpec(s[1..]);
    }
  }

  /** The form in which extensions are compared: leading dots removed, then
      lower-cased. */
  function Normalize(s: string): string {
    ToLower(TrimDots(s))
  }

  /** The text `get_language_for_file` looks up for a path: the extension of
      its last component, or that whole component when it has none,
      normalized; nothing for the root. */
  function LookupKey(p: Path): Option<string> {
    if p == [] then None
    else
      var name := p[|p| - 1];
      match Extension(name)
      case Some(ext) => Some(Normalize(ext))
      case None => Some(Normalize(name))
  }

  /** The key looked up exists for every path but the root, and is in
      normal form: no leading dot and no upper-case ASCII letter. */
  lemma LookupKeyNormalized(p: Path)
    ensures LookupKey(p).Some? <==> p != []
    ensures LookupKey(p).Some? ==> NormalForm(LookupKey(p).value)
  {
    if p != [] {
      var name := p[|p| - 1];
      match Extension(name)
      case Some(ext) => NormalizeNormalForm(ext);
      case None => NormalizeNormalForm(name);
    }
  }

  /** No leading dot and no upper-case ASCII letter. */
  predicate NormalForm(k: string) {
    (k == [] || k[0] != '.') && forall i :: 0 <= i < |k| ==> !('A' <= k[i] <= 'Z')
  }

  lemma NormalizeNormalForm(s: string)
    ensures NormalForm(Normalize(s))
  {
    TrimDotsSpec(s);
    ToLowerAt(TrimDots(s));
  }

  /** Some extension of `exts` normalizes to `key`. */
  predicate ListsKey(exts: seq<string>, key: string) {
    if exts == [] then false
    else Normalize(exts[0]) == key || ListsKey(exts[1..], key)
  }

  lemma {:induction false} ListsKeyIff(exts: seq<string>, key: string)
    ensures ListsKey(exts, key) <==> exists j :: 0 <= j < |exts| && Normalize(exts[j]) == key
    decreases |exts|
  {
    if exts != [] {
      ListsKeyIff(exts[1..], key);
      assert forall j :: 1 <= j < |exts| ==> exts[j] == exts[1..][j - 1];
    }
  }

  /** The first language of `langs`, from index `k` on, that lists `key`. */
  function FindFrom(langs: seq<LanguageConfig>, key: string, k: nat): (r: Option<nat>)
    requires k <= |langs|
    ensures r.None? <==> forall i :: k <= i < |langs| ==> !ListsKey(langs[i].extensions, key)
    ensures r.Some? ==> k <= r.value < |langs| && ListsKey(langs[r.value].extensions, key)
                        && forall i :: k <= i < r.value ==> !ListsKey(langs[i].extensions, key)
    decreases |langs| - k
  {
    if k == |langs| then None
    else if ListsKey(langs[k].extensions, key) then Some(k)
    else FindFrom(langs, key, k + 1)
  }

  /** `LANGUAGES.iter().find(...)`: the first language that lists `key`. */
  function FindLanguage(langs: seq<LanguageConfig>, key: string): (r: Option<nat>)
    ensures r.None? <==> forall i :: 0 <= i < |langs| ==> !ListsKey(langs[i].extensions, key)
    ensures r.Some? ==> r.value < |langs| && ListsKey(langs[r.value].extensions, key)
                        && forall i :: 0 <= i < r.value ==> !ListsKey(langs[i].extensions, key)
  {
    FindFrom(langs, key, 0)
  }

  /** `get_language_for_file`: the index in `Languages` of the language of
      the file at `p`. */
  function GetLanguageForFile(p: Path): (r: Option<nat>)
    ensures p == [] ==> r.None?
    ensures p != [] ==> (r.None? <==> forall i :: 0 <= i < |Languages| ==> !ListsKey(Languages[i].extensions, LookupKey(p).value))
    ensures r.Some? ==> p != [] && r.value < |Languages| && ListsKey(Languages[r.value].extensions, LookupKey(p).value)
                        && forall i :: 0 <= i < r.value ==> !ListsKey(Languages[i].extensions, LookupKey(p).value)
  {
    match LookupKey(p)
    case None => None
    case Some(key) => FindLanguage(Languages, key)
  }

  /** Trimming removes at least the one leading dot. */
  lemma TrimDotsShortens(s: string)
    requires s != [] && s[0] == '.'
    ensures |TrimDots(s)| < |s|
  {
  }

  /** A list of dotted extensions no longer than `key` cannot list it. */
  lemma {:induction false} ShortExtensionsMiss(exts: seq<string>, key: string)
    requires forall j :: 0 <= j < |exts| ==> 0 < |exts[j]| <= |key| && exts[j][0] == '.'
    ensures !ListsKey(exts, key)
  {
    forall j | 0 <= j < |exts|
      ensures Normalize(exts[j]) != key
    {
      TrimDotsShortens(exts[j]);
    }
    ListsKeyIff(exts, key);
  }

  /** Every extension of the first fourteen languages starts with a dot and
      has at most ten characters. */
  predicate ShortDotted(exts: seq<string>) {
    forall j :: 0 <= j < |exts| ==> 0 < |exts[j]| <= 10 && exts[j][0] == '.'
  }

  lemma ShortDottedBelowDockerfile(i: nat)
    requires i < 14
    ensures ShortDotted(Languages[i].extensions)
  {
  }

  /** The first listing language is found. */
  lemma FindLanguageAt(langs: seq<LanguageConfig>, key: string, n: nat)
    requires n < |langs| && ListsKey(langs[n].extensions, key)
    requires forall i :: 0 <= i < n ==> !ListsKey(langs[i].extensions, key)
    ensures FindLanguage(langs, key) == Some(n)
  {
  }

  /** A name that does not start with a dot is not trimmed. */
  lemma UndottedKept(s: string)
    requires s == [] || s[0] != '.'
    ensures TrimDots(s) == s
  {
  }

  lemma DockerfileLowered()
    ensures Normalize("Dockerfile") == "dockerfile"
  {
    UndottedKept("Dockerfile");
    LowerFirst("Dockerfile", "dockerfile");
  }

  lemma DockerfileHasNoExtension()
    ensures Extension("Dockerfile") == None
  {
    assert LastDot("Dockerfile") == None;
  }

  lemma DockerfileKey(dir: Path)
    ensures LookupKey(dir + ["Dockerfile"]) == Some("dockerfile")
  {
    var p := dir + ["Dockerfile"];
    assert p[|p| - 1] == "Dockerfile";
    DockerfileHasNoExtension();
    DockerfileLowered();
  }

  lemma NoEarlierDockerfile()
    ensures forall i :: 0 <= i < 14 ==> !ListsKey(Languages[i].extensions, "dockerfile")
  {
    forall i | 0 <= i < 14
      ensures !ListsKey(Languages[i].extensions, "dockerfile")
    {
      ShortDottedBelowDockerfile(i);
      ShortExtensionsMiss(Languages[i].extensions, "dockerfile");
    }
  }

  lemma DockerfileEntry()
    ensures Languages[14].extensions == ["Dockerfile"]
  {
  }

  lemma DockerfileListed()
    ensures ListsKey(Languages[14].extensions, "dockerfile")
  {
    DockerfileEntry();
    DockerfileLowered();
    assert ["Dockerfile"][0] == "Dockerfile";
  }

  /** A file named `Dockerfile`, in any directory, is classified as the
      dockerfile language: it has no extension, so its whole name is looked
      up, and no earlier language lists an extension that long. */
  lemma DockerfileByName(dir: Path)
    ensures GetLanguageForFile(dir + ["Dockerfile"]) == Some(14)
  {
    DockerfileKey(dir);
    NoEarlierDockerfile();
    DockerfileListed();
    FindLanguageAt(Languages, "dockerfile", 14);
  }

  lemma PyNormalized()
    ensures Normalize(".py") == "py" && Normalize("py") == "py" && Normalize("PY") == "py"
  {
    assert TrimDots(".py") == "py";
    assert TrimDots("py") == "py";
    assert TrimDots("PY") == "PY";
    assert ToLower("PY") == "py";
  }

  lemma PythonListed()
    ensures ListsKey(Languages[0].extensions, "py")
  {
    assert Languages[0].extensions[0] == ".py";
    PyNormalized();
  }

  lemma BareNameKey(dir: Path)
    ensures LookupKey(dir + ["py"]) == Some("py")
  {
    var p := dir + ["py"];
    assert p[|p| - 1] == "py";
    assert LastDot("py") == None;
    PyNormalized();
  }

  lemma HiddenNameKey(dir: Path)
    ensures LookupKey(dir + [".py"]) == Some("py")
  {
    var p := dir + [".py"];
    assert p[|p| - 1] == ".py";
    assert LastDot(".py") == Some(0);
    PyNormalized();
  }

  lemma UpperCaseKey(dir: Path)
    ensures LookupKey(dir + ["app.PY"]) == Some("py")
  {
    var p := dir + ["app.PY"];
    assert p[|p| - 1] == "app.PY";
    assert LastDot("app.PY") == Some(3);
    assert "app.PY"[4..] == "PY";
    PyNormalized();
  }

  /** What is looked up need not be an extension: a file named `py`, a
      hidden file named `.py` and a file `app.PY` are all python files. */
  lemma PythonByNameOrExtension(dir: Path)
    ensures GetLanguageForFile(dir + ["py"]) == Some(0)
    ensures GetLanguageForFile(dir + [".py"]) == Some(0)
    ensures GetLanguageForFile(dir + ["app.PY"]) == Some(0)
  {
    PythonListed();
    BareNameKey(dir);
    HiddenNameKey(dir);
    UpperCaseKey(dir);
    FindLanguageAt(Languages, "py", 0);
  }
}
