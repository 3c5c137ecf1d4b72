/** main.go, part 1: the static language table, the per-tool command builders,
    the extension index that `init` fills, and the classification of a file
    by its extension. */
module GoTable {
  import opened Wrappers
  import opened Text
  import opened Paths
  import opened GoBuilders

  /** One entry of the table (Go's `languageConfig`). */
  datatype Language = Language(
    name: string,
    extensions: seq<string>,
    configFiles: seq<string>,
    executables: seq<string>,
    defaultCmd: string,
    isFormatter: bool,
    builder: Builder)

  const Eslintrc: seq<string> := [".eslintrc.js", ".eslintrc.cjs", ".eslintrc.json", ".eslintrc.yml", ".eslintrc.yaml", "eslint.config.js", "prettier.config.js", ".prettierrc", ".prettierrc.json"]

  /** Go's `languages`, in declaration order. */
  const Languages: seq<Language> := [
    Language("python", [".py", ".pyw"], [".flake8", "pyproject.toml", "setup.cfg", "tox.ini", ".pylintrc", "pylintrc"],
             ["pylint", "flake8", "black"], "flake8", false, Flake8),
    Language("javascript", [".js", ".mjs", ".cjs", ".jsx"], Eslintrc + [".prettierrc.yml", ".prettierrc.yaml"],
             ["eslint", "prettier"], "eslint --fix", false, Eslint),
    Language("typescript", [".ts", ".tsx"], Eslintrc,
             ["eslint", "prettier"], "eslint --fix", false, Eslint),
    Language("go", [".go"], [".golangci.yml", ".golangci.yaml", ".golangci.json", ".gofmt.toml", ".gofmt.json"],
             ["golangci-lint", "gofmt"], "gofmt -w -s", true, Gofmt),
    Language("rust", [".rs"], [".rustfmt.toml", "rustfmt.toml", "rust-toolchain.toml"],
             ["rustfmt", "cargo-clippy"], "rustfmt", false, Rustfmt),
    Language("java", [".java"], [".clang-format", "clang-format.yaml", "clang-format.json", "google-java-format.xml"],
             ["clang-format", "google-java-format"], "clang-format", false, ClangFormat),
    Language("php", [".php"], ["phpcs.xml", "phpcs.xml.dist", ".php-cs-fixer", ".php-cs-fixer.php", ".php-cs-fixer.dist", ".php-cs-fixer.dist.php"],
             ["phpcbf", "php-cs-fixer"], "phpcbf --standard=PSR12", false, Phpcbf),
    Language("css", [".css", ".scss", ".sass", ".less"], [".stylelintrc", ".stylelintrc.js", ".stylelintrc.json", ".stylelintrc.yaml", ".stylelintrc.yml", "stylelint.config.js", "prettier.config.js"],
             ["stylelint", "prettier"], "prettier --write", false, Prettier),
    Language("html", [".html", ".htm"], [".prettierrc", ".prettierrc.json", ".prettierrc.yml", "prettier.config.js"],
             ["prettier"], "prettier --write", false, Prettier),
    Language("json", [".json", ".jsonc"], [".prettierrc", ".prettierrc.json", ".prettierrc.yaml"],
             ["prettier"], "prettier --write", false, Prettier),
    Language("yaml", [".yaml", ".yml"], [".prettierrc", ".prettierrc.yaml", ".prettierrc.yml"],
             ["prettier"], "prettier --write", false, Prettier),
    Language("markdown", [".md", ".markdown"], [".prettierrc", ".prettierrc.json"],
             ["prettier"], "prettier --write", false, Prettier),
    Language("shell", [".sh", ".bash", ".zsh", ".fish"], [".shellcheckrc"],
             ["shellcheck"], "shellcheck", false, Shellcheck),
    Language("sql", [".sql"], [".sqlfluff", ".sqlfluff.ini", ".sqlfluff.cfg", "pyproject.toml"],
             ["sqlfluff"], "sqlfluff format", false, Sqlfluff),
    Language("dockerfile", ["Dockerfile"], [".hadolint.yaml", ".hadolint.yml"],
             ["hadolint"], "hadolint", false, Hadolint)
  ]

  /** No extension is claimed by two entries. */
  predicate ExtensionsDisjoint(langs: seq<Language>) {
    forall i, j, e :: 0 <= i < j < |langs| && e in langs[i].extensions ==> e !in langs[j].extensions
  }

  /** The extensions of the first `n` entries, in order. */
  function ExtensionsUpTo(langs: seq<Language>, n: nat): seq<string>
    requires n <= |langs|
  {
    if n == 0 then [] else ExtensionsUpTo(langs, n - 1) + langs[n - 1].extensions
  }

  lemma {:induction false} ExtensionsUpToHas(langs: seq<Language>, n: nat, i: nat, e: string)
    requires i < n <= |langs| && e in langs[i].extensions
    ensures e in ExtensionsUpTo(langs, n)
    decreases n
  {
    if i < n - 1 {
      ExtensionsUpToHas(langs, n - 1, i, e);
    }
  }

  /** Each entry's extensions are new with respect to all earlier entries. */
  predicate FreshAt(langs: seq<Language>, j: nat)
    requires j < |langs|
  {
    forall e :: e in langs[j].extensions ==> e !in ExtensionsUpTo(langs, j)
  }

  /** The first `n` entries each bring only new extensions. */
  predicate AllFresh(langs: seq<Language>, n: nat)
    requires n <= |langs|
  {
    n == 0 || (FreshAt(langs, n - 1) && AllFresh(langs, n - 1))
  }

  lemma {:induction false} DisjointWhenFresh(langs: seq<Language>)
    requires AllFresh(langs, |langs|)
    ensures ExtensionsDisjoint(langs)
  {
    forall i, j, e | 0 <= i < j < |langs| && e in langs[i].extensions
      ensures e !in langs[j].extensions
    {
      ExtensionsUpToHas(langs, j, i, e);
      FreshBelow(langs, |langs|, j);
    }
  }

  lemma {:induction false} FreshBelow(langs: seq<Language>, n: nat, j: nat)
    requires j < n <= |langs| && AllFresh(langs, n)
    ensures FreshAt(langs, j)
    decreases n
  {
    if j < n - 1 {
      FreshBelow(langs, n - 1, j);
    }
  }

  /** One step of the disjointness proof: the extensions of entry `k` are all new. */
  lemma {:induction false} FreshStep(k: nat, before: seq<string>, exts: seq<string>)
    requires k < |Languages| && Languages[k].extensions == exts
    requires ExtensionsUpTo(Languages, k) == before && AllFresh(Languages, k)
    requires forall e :: e in exts ==> e !in before
    ensures ExtensionsUpTo(Languages, k + 1) == before + exts && AllFresh(Languages, k + 1)
  {
  }

  lemma FreshEntry0()
    requires ExtensionsUpTo(Languages, 0) == [] && AllFresh(Languages, 0)
    ensures ExtensionsUpTo(Languages, 1) == [".py", ".pyw"] && AllFresh(Languages, 1)
  {
    FreshStep(0, [], [".py", ".pyw"]);
  }

  lemma NewAt1()
    ensures forall e :: e in [".js", ".mjs", ".cjs", ".jsx"] ==> e !in [".py", ".pyw"]
  {
  }

  lemma FreshEntry1()
    requires ExtensionsUpTo(Languages, 1) == [".py", ".pyw"] && AllFresh(Languages, 1)
    ensures ExtensionsUpTo(Languages, 2) == [".py", ".pyw"] + [".js", ".mjs", ".cjs", ".jsx"] && AllFresh(Languages, 2)
  {
    NewAt1();
    FreshStep(1, [".py", ".pyw"], [".js", ".mjs", ".cjs", ".jsx"]);
  }

  lemma NewAt2()
    ensures forall e :: e in [".ts", ".tsx"] ==> e !in [".py", ".pyw"] + [".js", ".mjs", ".cjs", ".jsx"]
  {
  }

  lemma FreshEntry2()
    requires ExtensionsUpTo(Languages, 2) == [".py", ".pyw"] + [".js", ".mjs", ".cjs", ".jsx"] && AllFresh(Languages, 2)
    ensures ExtensionsUpTo(Languages, 3) == [".py", ".pyw"] + [".js", ".mjs", ".cjs", ".jsx"] + [".ts", ".tsx"] && AllFresh(Languages, 3)
  {
    NewAt2();
    FreshStep(2, [".py", ".pyw"] + [".js", ".mjs", ".cjs", ".jsx"], [".ts", ".tsx"]);
  }

  lemma NewAt3()
    ensures forall e :: e in [".go"] ==> e !in [".py", ".pyw"] + [".js", ".mjs", ".cjs", ".jsx"] + [".ts", ".tsx"]
  {
  }

  lemma FreshEntry3()
    requires ExtensionsUpTo(Languages, 3) == [".py", ".pyw"] + [".js", ".mjs", ".cjs", ".jsx"] + [".ts", ".tsx"] && AllFresh(Languages, 3)
    ensures ExtensionsUpTo(Languages, 4) == [".py", ".pyw"] + [".js", ".mjs", ".cjs", ".jsx"] + [".ts", ".tsx"] + [".go"] && AllFresh(Languages, 4)
  {
    NewAt3();
    FreshStep(3, [".py", ".pyw"] + [".js", ".mjs", ".cjs", ".jsx"] + [".ts", ".tsx"], [".go"]);
  }

  lemma NewAt4()
    ensures forall e :: e in [".rs"] ==> e !in [".py", ".pyw"] + [".js", ".mjs", ".cjs", ".jsx"] + [".ts", ".tsx"] + [".go"]
  {
  }

  lemma FreshEntry4()
    requires ExtensionsUpTo(Languages, 4) == [".py", ".pyw"] + [".js", ".mjs", ".cjs", ".jsx"] + [".ts", ".tsx"] + [".go"] && AllFresh(Languages, 4)
    ensures ExtensionsUpTo(Languages, 5) == [".py", ".pyw"] + [".js", ".mjs", ".cjs", ".jsx"] + [".ts", ".tsx"] + [".go"] + [".rs"] && AllFresh(Languages, 5)
  {
    NewAt4();
    FreshStep(4, [".py", ".pyw"] + [".js", ".mjs", ".cjs", ".jsx"] + [".ts", ".tsx"] + [".go"], [".rs"]);
  }

  lemma NewAt5()
    ensures forall e :: e in [".java"] ==> e !in [".py", ".pyw"] + [".js", ".mjs", ".cjs", ".jsx"] + [".ts", ".tsx"] + [".go"] + [".rs"]
  {
  }

  lemma FreshEntry5()
    requires ExtensionsUpTo(Languages, 5) == [".py", ".pyw"] + [".js", ".mjs", ".cjs", ".jsx"] + [".ts", ".tsx"] + [".go"] + [".rs"] && AllFresh(Languages, 5)
    ensures ExtensionsUpTo(Languages, 6) == [".py", ".pyw"] + [".js", ".mjs", ".cjs", ".jsx"] + [".ts", ".tsx"] + [".go"] + [".rs"] + [".java"] && AllFresh(Languages, 6)
  {
    NewAt5();
    FreshStep(5, [".py", ".pyw"] + [".js", ".mjs", ".cjs", ".jsx"] + [".ts", ".tsx"] + [".go"] + [".rs"], [".java"]);
  }

  lemma NewAt6()
    ensures forall e :: e in [".php"] ==> e !in [".py", ".pyw"] + [".js", ".mjs", ".cjs", ".jsx"] + [".ts", ".tsx"] + [".go"] + [".rs"] + [".java"]
  {
  }

  lemma FreshEntry6()
    requires ExtensionsUpTo(Languages, 6) == [".py", ".pyw"] + [".js", ".mjs", ".cjs", ".jsx"] + [".ts", ".tsx"] + [".go"] + [".rs"] + [".java"] && AllFresh(Languages, 6)
    ensures ExtensionsUpTo(Languages, 7) == [".py", ".pyw"] + [".js", ".mjs", ".cjs", ".jsx"] + [".ts", ".tsx"] + [".go"] + [".rs"] + [".java"] + [".php"] && AllFresh(Languages, 7)
  {
    NewAt6();
    FreshStep(6, [".py", ".pyw"] + [".js", ".mjs", ".cjs", ".jsx"] + [".ts", ".tsx"] + [".go"] + [".rs"] + [".java"], [".php"]);
  }

  lemma NewAt7()
    ensures forall e :: e in [".css", ".scss", ".sass", ".less"] ==> e !in [".py", ".pyw"] + [".js", ".mjs", ".cjs", ".jsx"] + [".ts", ".tsx"] + [".go"] + [".rs"] + [".java"] + [".php"]
  {
  }

  lemma FreshEntry7()
    requires ExtensionsUpTo(Languages, 7) == [".py", ".pyw"] + [".js", ".mjs", ".cjs", ".jsx"] + [".ts", ".tsx"] + [".go"] + [".rs"] + [".java"] + [".php"] && AllFresh(Languages, 7)
    ensures ExtensionsUpTo(Languages, 8) == [".py", ".pyw"] + [".js", ".mjs", ".cjs", ".jsx"] + [".ts", ".tsx"] + [".go"] + [".rs"] + [".java"] + [".php"] + [".css", ".scss", ".sass", ".less"] && AllFresh(Languages, 8)
  {
    NewAt7();
    FreshStep(7, [".py", ".pyw"] + [".js", ".mjs", ".cjs", ".jsx"] + [".ts", ".tsx"] + [".go"] + [".rs"] + [".java"] + [".php"], [".css", ".scss", ".sass", ".less"]);
  }

  lemma NewAt8()
    ensures forall e :: e in [".html", ".htm"] ==> e !in [".py", ".pyw"] + [".js", ".mjs", ".cjs", ".jsx"] + [".ts", ".tsx"] + [".go"] + [".rs"] + [".java"] + [".php"] + [".css", ".scss", ".sass", ".less"]
  {
  }

  lemma FreshEntry8()
    requires ExtensionsUpTo(Languages, 8) == [".py", ".pyw"] + [".js", ".mjs", ".cjs", ".jsx"] + [".ts", ".tsx"] + [".go"] + [".rs"] + [".java"] + [".php"] + [".css", ".scss", ".sass", ".less"] && AllFresh(Languages, 8)
    ensures ExtensionsUpTo(Languages, 9) == [".py", ".pyw"] + [".js", ".mjs", ".cjs", ".jsx"] + [".ts", ".tsx"] + [".go"] + [".rs"] + [".java"] + [".php"] + [".css", ".scss", ".sass", ".less"] + [".html", ".htm"] && AllFresh(Languages, 9)
  {
    NewAt8();
    FreshStep(8, [".py", ".pyw"] + [".js", ".mjs", ".cjs", ".jsx"] + [".ts", ".tsx"] + [".go"] + [".rs"] + [".java"] + [".php"] + [".css", ".scss", ".sass", ".less"], [".html", ".htm"]);
  }

  lemma NewAt9()
    ensures forall e :: e in [".json", ".jsonc"] ==> e !in [".py", ".pyw"] + [".js", ".mjs", ".cjs", ".jsx"] + [".ts", ".tsx"] + [".go"] + [".rs"] + [".java"] + [".php"] + [".css", ".scss", ".sass", ".less"] + [".html", ".htm"]
  {
  }

  lemma FreshEntry9()
    requires ExtensionsUpTo(Languages, 9) == [".py", ".pyw"] + [".js", ".mjs", ".cjs", ".jsx"] + [".ts", ".tsx"] + [".go"] + [".rs"] + [".java"] + [".php"] + [".css", ".scss", ".sass", ".less"] + [".html", ".htm"] && AllFresh(Languages, 9)
    ensures ExtensionsUpTo(Languages, 10) == [".py", ".pyw"] + [".js", ".mjs", ".cjs", ".jsx"] + [".ts", ".tsx"] + [".go"] + [".rs"] + [".java"] + [".php"] + [".css", ".scss", ".sass", ".less"] + [".html", ".htm"] + [".json", ".jsonc"] && AllFresh(Languages, 10)
  {
    NewAt9();
    FreshStep(9, [".py", ".pyw"] + [".js", ".mjs", ".cjs", ".jsx"] + [".ts", ".tsx"] + [".go"] + [".rs"] + [".java"] + [".php"] + [".css", ".scss", ".sass", ".less"] + [".html", ".htm"], [".json", ".jsonc"]);
  }

  lemma NewAt10()
    ensures forall e :: e in [".yaml", ".yml"] ==> e !in [".py", ".pyw"] + [".js", ".mjs", ".cjs", ".jsx"] + [".ts", ".tsx"] + [".go"] + [".rs"] + [".java"] + [".php"] + [".css", ".scss", ".sass", ".less"] + [".html", ".htm"] + [".json", ".jsonc"]
  {
  }

  lemma FreshEntry10()
    requires ExtensionsUpTo(Languages, 10) == [".py", ".pyw"] + [".js", ".mjs", ".cjs", ".jsx"] + [".ts", ".tsx"] + [".go"] + [".rs"] + [".java"] + [".php"] + [".css", ".scss", ".sass", ".less"] + [".html", ".htm"] + [".json", ".jsonc"] && AllFresh(Languages, 10)
    ensures ExtensionsUpTo(Languages, 11) == [".py", ".pyw"] + [".js", ".mjs", ".cjs", ".jsx"] + [".ts", ".tsx"] + [".go"] + [".rs"] + [".java"] + [".php"] + [".css", ".scss", ".sass", ".less"] + [".html", ".htm"] + [".json", ".jsonc"] + [".yaml", ".yml"] && AllFresh(Languages, 11)
  {
    NewAt10();
    FreshStep(10, [".py", ".pyw"] + [".js", ".mjs", ".cjs", ".jsx"] + [".ts", ".tsx"] + [".go"] + [".rs"] + [".java"] + [".php"] + [".css", ".scss", ".sass", ".less"] + [".html", ".htm"] + [".json", ".jsonc"], [".yaml", ".yml"]);
  }

  lemma NewAt11()
    ensures forall e :: e in [".md", ".markdown"] ==> e !in [".py", ".pyw"] + [".js", ".mjs", ".cjs", ".jsx"] + [".ts", ".tsx"] + [".go"] + [".rs"] + [".java"] + [".php"] + [".css", ".scss", ".sass", ".less"] + [".html", ".htm"] + [".json", ".jsonc"] + [".yaml", ".yml"]
  {
  }

  lemma FreshEntry11()
    requires ExtensionsUpTo(Languages, 11) == [".py", ".pyw"] + [".js", ".mjs", ".cjs", ".jsx"] + [".ts", ".tsx"] + [".go"] + [".rs"] + [".java"] + [".php"] + [".css", ".scss", ".sass", ".less"] + [".html", ".htm"] + [".json", ".jsonc"] + [".yaml", ".yml"] && AllFresh(Languages, 11)
    ensures ExtensionsUpTo(Languages, 12) == [".py", ".pyw"] + [".js", ".mjs", ".cjs", ".jsx"] + [".ts", ".tsx"] + [".go"] + [".rs"] + [".java"] + [".php"] + [".css", ".scss", ".sass", ".less"] + [".html", ".htm"] + [".json", ".jsonc"] + [".yaml", ".yml"] + [".md", ".markdown"] && AllFresh(Languages, 12)
  {
    NewAt11();
    FreshStep(11, [".py", ".pyw"] + [".js", ".mjs", ".cjs", ".jsx"] + [".ts", ".tsx"] + [".go"] + [".rs"] + [".java"] + [".php"] + [".css", ".scss", ".sass", ".less"] + [".html", ".htm"] + [".json", ".jsonc"] + [".yaml", ".yml"], [".md", ".markdown"]);
  }

  lemma NewAt12()
    ensures forall e :: e in [".sh", ".bash", ".zsh", ".fish"] ==> e !in [".py", ".pyw"] + [".js", ".mjs", ".cjs", ".jsx"] + [".ts", ".tsx"] + [".go"] + [".rs"] + [".java"] + [".php"] + [".css", ".scss", ".sass", ".less"] + [".html", ".htm"] + [".json", ".jsonc"] + [".yaml", ".yml"] + [".md", ".markdown"]
  {
  }

  lemma FreshEntry12()
    requires ExtensionsUpTo(Languages, 12) == [".py", ".pyw"] + [".js", ".mjs", ".cjs", ".jsx"] + [".ts", ".tsx"] + [".go"] + [".rs"] + [".java"] + [".php"] + [".css", ".scss", ".sass", ".less"] + [".html", ".htm"] + [".json", ".jsonc"] + [".yaml", ".yml"] + [".md", ".markdown"] && AllFresh(Languages, 12)
    ensures ExtensionsUpTo(Languages, 13) == [".py", ".pyw"] + [".js", ".mjs", ".cjs", ".jsx"] + [".ts", ".tsx"] + [".go"] + [".rs"] + [".java"] + [".php"] + [".css", ".scss", ".sass", ".less"] + [".html", ".htm"] + [".json", ".jsonc"] + [".yaml", ".yml"] + [".md", ".markdown"] + [".sh", ".bash", ".zsh", ".fish"] && AllFresh(Languages, 13)
  {
    NewAt12();
    FreshStep(12, [".py", ".pyw"] + [".js", ".mjs", ".cjs", ".jsx"] + [".ts", ".tsx"] + [".go"] + [".rs"] + [".java"] + [".php"] + [".css", ".scss", ".sass", ".less"] + [".html", ".htm"] + [".json", ".jsonc"] + [".yaml", ".yml"] + [".md", ".markdown"], [".sh", ".bash", ".zsh", ".fish"]);
  }

  lemma NewAt13()
    ensures forall e :: e in [".sql"] ==> e !in [".py", ".pyw"] + [".js", ".mjs", ".cjs", ".jsx"] + [".ts", ".tsx"] + [".go"] + [".rs"] + [".java"] + [".php"] + [".css", ".scss", ".sass", ".less"] + [".html", ".htm"] + [".json", ".jsonc"] + [".yaml", ".yml"] + [".md", ".markdown"] + [".sh", ".bash", ".zsh", ".fish"]
  {
  }

  lemma FreshEntry13()
    requires ExtensionsUpTo(Languages, 13) == [".py", ".pyw"] + [".js", ".mjs", ".cjs", ".jsx"] + [".ts", ".tsx"] + [".go"] + [".rs"] + [".java"] + [".php"] + [".css", ".scss", ".sass", ".less"] + [".html", ".htm"] + [".json", ".jsonc"] + [".yaml", ".yml"] + [".md", ".markdown"] + [".sh", ".bash", ".zsh", ".fish"] && AllFresh(Languages, 13)
    ensures ExtensionsUpTo(Languages, 14) == [".py", ".pyw"] + [".js", ".mjs", ".cjs", ".jsx"] + [".ts", ".tsx"] + [".go"] + [".rs"] + [".java"] + [".php"] + [".css", ".scss", ".sass", ".less"] + [".html", ".htm"] + [".json", ".jsonc"] + [".yaml", ".yml"] + [".md", ".markdown"] + [".sh", ".bash", ".zsh", ".fish"] + [".sql"] && AllFresh(Languages, 14)
  {
    NewAt13();
    FreshStep(13, [".py", ".pyw"] + [".js", ".mjs", ".cjs", ".jsx"] + [".ts", ".tsx"] + [".go"] + [".rs"] + [".java"] + [".php"] + [".css", ".scss", ".sass", ".less"] + [".html", ".htm"] + [".json", ".jsonc"] + [".yaml", ".yml"] + [".md", ".markdown"] + [".sh", ".bash", ".zsh", ".fish"], [".sql"]);
  }

  lemma NewAt14()
    ensures forall e :: e in ["Dockerfile"] ==> e !in [".py", ".pyw"] + [".js", ".mjs", ".cjs", ".jsx"] + [".ts", ".tsx"] + [".go"] + [".rs"] + [".java"] + [".php"] + [".css", ".scss", ".sass", ".less"] + [".html", ".htm"] + [".json", ".jsonc"] + [".yaml", ".yml"] + [".md", ".markdown"] + [".sh", ".bash", ".zsh", ".fish"] + [".sql"]
  {
  }

  lemma FreshEntry14()
    requires ExtensionsUpTo(Languages, 14) == [".py", ".pyw"] + [".js", ".mjs", ".cjs", ".jsx"] + [".ts", ".tsx"] + [".go"] + [".rs"] + [".java"] + [".php"] + [".css", ".scss", ".sass", ".less"] + [".html", ".htm"] + [".json", ".jsonc"] + [".yaml", ".yml"] + [".md", ".markdown"] + [".sh", ".bash", ".zsh", ".fish"] + [".sql"] && AllFresh(Languages, 14)
    ensures ExtensionsUpTo(Languages, 15) == [".py", ".pyw"] + [".js", ".mjs", ".cjs", ".jsx"] + [".ts", ".tsx"] + [".go"] + [".rs"] + [".java"] + [".php"] + [".css", ".scss", ".sass", ".less"] + [".html", ".htm"] + [".json", ".jsonc"] + [".yaml", ".yml"] + [".md", ".markdown"] + [".sh", ".bash", ".zsh", ".fish"] + [".sql"] + ["Dockerfile"] && AllFresh(Languages, 15)
  {
    NewAt14();
    FreshStep(14, [".py", ".pyw"] + [".js", ".mjs", ".cjs", ".jsx"] + [".ts", ".tsx"] + [".go"] + [".rs"] + [".java"] + [".php"] + [".css", ".scss", ".sass", ".less"] + [".html", ".htm"] + [".json", ".jsonc"] + [".yaml", ".yml"] + [".md", ".markdown"] + [".sh", ".bash", ".zsh", ".fish"] + [".sql"], ["Dockerfile"]);
  }

  /** Every extension of the shipped table, in order. */
  const AllExtensions: seq<string> := [".py", ".pyw"] + [".js", ".mjs", ".cjs", ".jsx"] + [".ts", ".tsx"] + [".go"] + [".rs"] + [".java"] + [".php"] + [".css", ".scss", ".sass", ".less"] + [".html", ".htm"] + [".json", ".jsonc"] + [".yaml", ".yml"] + [".md", ".markdown"] + [".sh", ".bash", ".zsh", ".fish"] + [".sql"] + ["Dockerfile"]

  lemma AllExtensionsListed()
    ensures ExtensionsUpTo(Languages, |Languages|) == AllExtensions && AllFresh(Languages, |Languages|)
  {
    FreshEntry0();
    FreshEntry1();
    FreshEntry2();
    FreshEntry3();
    FreshEntry4();
    FreshEntry5();
    FreshEntry6();
    FreshEntry7();
    FreshEntry8();
    FreshEntry9();
    FreshEntry10();
    FreshEntry11();
    FreshEntry12();
    FreshEntry13();
    FreshEntry14();
  }

  /** The shipped table never lists one extension under two languages. */
  lemma TableExtensionsDisjoint()
    ensures ExtensionsDisjoint(Languages)
  {
    AllExtensionsListed();
    DisjointWhenFresh(Languages);
  }

  // ---------------------------------------------------------------------
  // init: the extension index

  /** `m` with every extension of `exts` mapped to `v`, in order. */
  function InsertAll(m: map<string, nat>, exts: seq<string>, v: nat): (r: map<string, nat>)
    ensures r.Keys == m.Keys + set e | e in exts
    ensures forall e :: e in exts ==> r[e] == v
    ensures forall e :: e in m && e !in exts ==> r[e] == m[e]
    decreases |exts|
  {
    if exts == [] then m else InsertAll(m[exts[0] := v], exts[1..], v)
  }

  /** What `init` has built after the first `n` entries. */
  function IndexUpTo(langs: seq<Language>, n: nat): map<string, nat>
    requires n <= |langs|
  {
    if n == 0 then map[] else InsertAll(IndexUpTo(langs, n - 1), langs[n - 1].extensions, n - 1)
  }

  /** Go's `extensionToLanguage` after `init`: each extension maps to the
      index of the LAST entry that lists it, and only listed extensions are keys. */
  function ExtensionIndex(langs: seq<Language>): (r: map<string, nat>)
    ensures forall e :: e in r <==> exists i :: 0 <= i < |langs| && e in langs[i].extensions
    ensures forall e :: e in r ==> r[e] < |langs| && e in langs[r[e]].extensions
    ensures forall e, j :: e in r && r[e] < j < |langs| ==> e !in langs[j].extensions
  {
    IndexUpToSpec(langs, |langs|);
    IndexUpTo(langs, |langs|)
  }

  /** The keys of `m` are the extensions of the first `n` entries. */
  ghost predicate KeysOfFirst(langs: seq<Language>, n: nat, m: map<string, nat>)
    requires n <= |langs|
  {
    forall e :: e in m <==> exists i :: 0 <= i < n && e in langs[i].extensions
  }

  /** Each key of `m` maps to one of the first `n` entries that lists it. */
  ghost predicate ValuesListIt(langs: seq<Language>, n: nat, m: map<string, nat>)
    requires n <= |langs|
  {
    forall e :: e in m ==> m[e] < n && e in langs[m[e]].extensions
  }

  /** No entry after the one a key maps to, among the first `n`, lists it. */
  ghost predicate ValuesLast(langs: seq<Language>, n: nat, m: map<string, nat>)
    requires n <= |langs|
  {
    forall e, j :: e in m && m[e] < j < n ==> e !in langs[j].extensions
  }

  /** `m` indexes the first `n` entries: its keys are their extensions,
      each mapped to the last of them that lists it. */
  ghost predicate IndexesFirst(langs: seq<Language>, n: nat, m: map<string, nat>)
    requires n <= |langs|
  {
    KeysOfFirst(langs, n, m) && ValuesListIt(langs, n, m) && ValuesLast(langs, n, m)
  }

  lemma IndexKeysStep(langs: seq<Language>, n: nat, prev: map<string, nat>)
    requires 0 < n <= |langs| && KeysOfFirst(langs, n - 1, prev)
    ensures KeysOfFirst(langs, n, InsertAll(prev, langs[n - 1].extensions, n - 1))
  {
    var m := InsertAll(prev, langs[n - 1].extensions, n - 1);
    forall e | exists i :: 0 <= i < n && e in langs[i].extensions
      ensures e in m
    {
      var i :| 0 <= i < n && e in langs[i].extensions;
      if i < n - 1 { assert e in prev; }
    }
  }

  lemma IndexValuesStep(langs: seq<Language>, n: nat, prev: map<string, nat>)
    requires 0 < n <= |langs| && ValuesListIt(langs, n - 1, prev)
    ensures ValuesListIt(langs, n, InsertAll(prev, langs[n - 1].extensions, n - 1))
  {
    var exts := langs[n - 1].extensions;
    var m := InsertAll(prev, exts, n - 1);
    forall e | e in m
      ensures m[e] < n && e in langs[m[e]].extensions
    {
      if e in exts {
        assert m[e] == n - 1;
      } else {
        assert e in prev && m[e] == prev[e];
      }
    }
  }

  lemma IndexLastStep(langs: seq<Language>, n: nat, prev: map<string, nat>)
    requires 0 < n <= |langs| && ValuesLast(langs, n - 1, prev)
    ensures ValuesLast(langs, n, InsertAll(prev, langs[n - 1].extensions, n - 1))
  {
    var exts := langs[n - 1].extensions;
    var m := InsertAll(prev, exts, n - 1);
    forall e, j | e in m && m[e] < j < n
      ensures e !in langs[j].extensions
    {
      if e !in exts {
        assert e in prev && m[e] == prev[e];
      }
    }
  }

  lemma {:induction false} IndexUpToSpec(langs: seq<Language>, n: nat)
    requires n <= |langs|
    ensures IndexesFirst(langs, n, IndexUpTo(langs, n))
  {
    if n > 0 {
      IndexUpToSpec(langs, n - 1);
      var prev := IndexUpTo(langs, n - 1);
      assert IndexUpTo(langs, n) == InsertAll(prev, langs[n - 1].extensions, n - 1);
      IndexKeysStep(langs, n, prev);
      IndexValuesStep(langs, n, prev);
      IndexLastStep(langs, n, prev);
    }
  }

  /** Go's `init`: fills the index entry by entry, extension by extension. */
  method Init(langs: seq<Language>) returns (index: map<string, nat>)
    ensures index == ExtensionIndex(langs)
  {
    index := map[];
    for i := 0 to |langs|
      invariant index == IndexUpTo(langs, i)
    {
      var exts := langs[i].extensions;
      ghost var start := index;
      for k := 0 to |exts|
        invariant InsertAll(index, exts[k..], i) == InsertAll(start, exts, i)
      {
        assert exts[k..][0] == exts[k] && exts[k..][1..] == exts[k + 1..];
        index := index[exts[k] := i];
      }
      assert exts[|exts|..] == [];
    }
  }

  // ---------------------------------------------------------------------
  // getLanguageForFile

  /** Go's `filepath.Ext` of one path component: the suffix from the last
      dot on, or empty when the name has no dot. */
  function ExtOf(name: string): (r: string)
    ensures r == "" <==> '.' !in name
    ensures r != "" ==> r[0] == '.' && '.' !in r[1..] && EndsWith(name, r)
  {
    if name == [] then ""
    else if name[|name| - 1] == '.' then "."
    else
      var r := ExtOf(name[..|name| - 1]);
      assert name == name[..|name| - 1] + [name[|name| - 1]];
      if r == "" then "" else r + [name[|name| - 1]]
  }

  /** `filepath.Ext` of a path: the extension of its last component
      (the root has none). */
  function Ext(p: Path): string {
    if p == [] then "" else ExtOf(p[|p| - 1])
  }

  lemma ExtShape(p: Path)
    ensures Ext(p) == "" || Ext(p)[0] == '.'
  {
  }

  /** Go's `getLanguageForFile`: the extension as written, then in lower case. */
  function GetLanguageForFile(index: map<string, nat>, p: Path): (r: Option<nat>)
    ensures r.None? <==> Ext(p) !in index && ToLower(Ext(p)) !in index
    ensures r.Some? ==>
      (Ext(p) in index && r.value == index[Ext(p)]) || (ToLower(Ext(p)) in index && r.value == index[ToLower(Ext(p))])
    ensures Ext(p) in index ==> r == Some(index[Ext(p)])
  {
    var ext := Ext(p);
    if ext in index then Some(index[ext])
    else if ToLower(ext) in index then Some(index[ToLower(ext)])
    else None
  }

  /** After `init` on the shipped table, each listed extension maps to the
      entry that lists it, and nothing else is a key. */
  lemma ShippedIndex(e: string, i: nat)
    requires i < |Languages|
    ensures e in ExtensionIndex(Languages) && ExtensionIndex(Languages)[e] == i
      <==> e in Languages[i].extensions
  {
    TableExtensionsDisjoint();
    var m := ExtensionIndex(Languages);
    if e in Languages[i].extensions {
      assert e in m;
    }
  }

  /** A file of the shipped table is classified by the entry listing its
      extension as written, or else by the one listing its lower-case form. */
  lemma ShippedClassification(p: Path, i: nat)
    requires i < |Languages|
    ensures GetLanguageForFile(ExtensionIndex(Languages), p) == Some(i) <==>
      Ext(p) in Languages[i].extensions ||
      (Ext(p) !in ExtensionIndex(Languages) && ToLower(Ext(p)) in Languages[i].extensions)
  {
    ShippedIndex(Ext(p), i);
    ShippedIndex(ToLower(Ext(p)), i);
  }

  /** The `Dockerfile` entry never matches: a dot-less name has an empty
      extension, and every extension starts with a dot. */
  lemma DockerfileNeverMatches(p: Path)
    ensures GetLanguageForFile(ExtensionIndex(Languages), p) != Some(14)
  {
    var ext := Ext(p);
    ExtShape(p);
    ShippedIndex(ext, 14);
    ShippedIndex(ToLower(ext), 14);
    assert Languages[14].extensions == ["Dockerfile"];
    if ext != "" {
      ToLowerAt(ext);
      assert ToLower(ext)[0] == '.';
    }
  }

  /** A string missing from the list of all extensions is no key of the index. */
  lemma Unlisted(e: string)
    requires e !in AllExtensions
    ensures e !in ExtensionIndex(Languages)
  {
    AllExtensionsListed();
    if e in ExtensionIndex(Languages) {
      var i := ExtensionIndex(Languages)[e];
      ExtensionsUpToHas(Languages, |Languages|, i, e);
    }
  }

  lemma ExtOfUpperPy()
    ensures ExtOf("app.PY") == ".PY"
  {
    assert "app.PY"[..5] == "app.P";
    assert "app.P"[..4] == "app.";
  }

  lemma LowerPy()
    ensures ToLower(".PY") == ".py"
  {
    assert ToLower(".PY") == ['.', LowerChar('P'), LowerChar('Y')];
  }

  lemma PythonListsPy()
    ensures ".py" in Languages[0].extensions
  {
    assert Languages[0].extensions == [".py", ".pyw"];
  }

  lemma UpperPyUnlisted()
    ensures ".PY" !in ExtensionIndex(Languages)
  {
    Unlisted(".PY");
  }

  /** `app.PY` is Python through the lower-case fallback. */
  lemma UpperCaseExtensionExample()
    ensures GetLanguageForFile(ExtensionIndex(Languages), ["src", "app.PY"]) == Some(0)
  {
    ExtOfUpperPy();
    assert Ext(["src", "app.PY"]) == ".PY";
    LowerPy();
    PythonListsPy();
    ShippedIndex(".py", 0);
    UpperPyUnlisted();
  }

  /** A file named `Dockerfile` has no extension and so no language. */
  lemma DockerfileExample()
    ensures GetLanguageForFile(ExtensionIndex(Languages), ["src", "Dockerfile"]) == None
  {
    DockerfileNoExt();
    EmptyUnlisted();
    assert ToLower("") == "";
  }

  /** A name without a dot has no extension. */
  lemma DotlessNoExt(name: string)
    requires forall i :: 0 <= i < |name| ==> name[i] != '.'
    ensures ExtOf(name) == ""
  {
  }

  lemma DockerfileNoExt()
    ensures Ext(["src", "Dockerfile"]) == ""
  {
    DotlessNoExt("Dockerfile");
  }

  /** The empty extension is no key of the index. */
  lemma EmptyUnlisted()
    ensures "" !in ExtensionIndex(Languages)
  {
    EmptyNotAnExtension();
    Unlisted("");
  }

  lemma EmptyNotAnExtension()
    ensures "" !in AllExtensions
  {
    forall e | e in AllExtensions
      ensures e != ""
    {
      assert e in [".py", ".pyw"] + [".js", ".mjs", ".cjs", ".jsx"] + [".ts", ".tsx"] + [".go"] + [".rs"] + [".java"] + [".php"] + [".css", ".scss", ".sass", ".less"] + [".html", ".htm"] + [".json", ".jsonc"] + [".yaml", ".yml"] + [".md", ".markdown"] + [".sh", ".bash", ".zsh", ".fish"] + [".sql"] + ["Dockerfile"];
    }
  }
}
