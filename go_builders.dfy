/** main.go, the `build*Cmd` formatters: each turns an executable and a
    configuration path (empty when none was found) into one command string. */
module GoBuilders {
  import opened Text

  /** The command builders of the table; each is a formatter from an
      executable and a configuration path (empty when none was found) to a
      command string. */
  datatype Builder =
    | Prettier | Eslint | Flake8 | Pylint | Black | Gofmt | GolangciLint | Rustfmt
    | CargoClippy | ClangFormat | GoogleJavaFormat | Phpcbf | PhpCsFixer
    | Stylelint | Shellcheck | Sqlfluff | Hadolint

  /** The words put in front of the executable: the two PHP tools are run
      through the `php` interpreter without a memory limit. */
  function Launcher(b: Builder): seq<string> {
    match b
    case Phpcbf => ["php", "-dmemory_limit=-1"]
    case PhpCsFixer => ["PHP_CS_FIXER_IGNORE_ENV=true", "php", "-dmemory_limit=-1"]
    case _ => []
  }

  /** The words after the executable when a configuration file `c` was found. */
  function WithConfig(b: Builder, c: string): seq<string> {
    match b
    case Prettier => ["--write", "--config", c]
    case Eslint => ["--fix", "--config", c]
    case Flake8 => ["--config", c]
    case Pylint => ["--rcfile", c]
    case Black => ["--config", c]
    case Gofmt => ["-w", "-config", c]
    case GolangciLint => ["run", "--config", c]
    case Rustfmt => ["--config-path", c]
    case CargoClippy => []
    case ClangFormat => ["-style=file:" + c]
    case GoogleJavaFormat => ["--aosp", c]
    case Phpcbf => ["--standard=" + c]
    case PhpCsFixer => ["fix", "--using-cache=no", "--config=" + c]
    case Stylelint => ["--config", c]
    case Shellcheck => ["--rcfile", c]
    case Sqlfluff => ["format", "--dialect", "ansi", "--config", c]
    case Hadolint => ["--config", c]
  }

  /** The words after the executable when no configuration file was found. */
  function WithoutConfig(b: Builder): seq<string> {
    match b
    case Prettier => ["--write"]
    case Eslint => ["--fix"]
    case Gofmt => ["-s", "-w"]
    case GolangciLint => ["run"]
    case Phpcbf => ["--standard=PSR12"]
    case PhpCsFixer => ["fix", "--rules=@Symfony,@PSR12", "--using-cache=no"]
    case Sqlfluff => ["format", "--dialect", "ansi"]
    case _ => []
  }

  /** The words of the command a builder produces: launcher, executable,
      then the configured or the unconfigured words. */
  function Argv(b: Builder, e: string, c: string): (r: seq<string>)
    ensures |r| > |Launcher(b)| && r[..|Launcher(b)| + 1] == Launcher(b) + [e]
    ensures c != "" && b != CargoClippy ==> EndsWith(r[|r| - 1], c)
  {
    Launcher(b) + [e] + (if c != "" then WithConfig(b, c) else WithoutConfig(b))
  }

  /** The `build*Cmd` formatters. Every format string of the source is its
      words separated by single spaces with `%s` for the executable and the
      configuration path, so a command is its word vector joined by spaces. */
  function BuildCommand(b: Builder, e: string, c: string): string {
    JoinWith(Argv(b, e, c), " ")
  }


  /** The configuration path changes the words exactly when one was found
      (cargo-clippy ignores it; a phpcbf configuration literally named
      `PSR12` would look like the default standard). */
  lemma ConfigFlagIff(b: Builder, e: string, c: string)
    requires b != CargoClippy && c != "PSR12"
    ensures Argv(b, e, c) == Argv(b, e, "") <==> c == ""
  {
    if c != "" {
      var w, wo := Argv(b, e, c), Argv(b, e, "");
      var n := |Launcher(b)| + 1;
      assert w[n..] == WithConfig(b, c) && wo[n..] == WithoutConfig(b);
      if b.Phpcbf? {
        assert "--standard=" + c != "--standard=PSR12" by {
          assert ("--standard=" + c)[11..] == c;
        }
      }
    }
  }

  predicate Words(ws: seq<string>) {
    forall i :: 0 <= i < |ws| ==> ws[i] != "" && SpaceFree(ws[i])
  }

  /** A word of visible ASCII characters holds no white space. */
  lemma VisibleWord(w: string)
    requires forall i :: 0 <= i < |w| ==> ' ' < w[i] <= '~'
    ensures SpaceFree(w)
  {
  }

  lemma LauncherWords(b: Builder)
    ensures Words(Launcher(b))
  {
    VisibleWord("php");
    VisibleWord("-dmemory_limit=-1");
    VisibleWord("PHP_CS_FIXER_IGNORE_ENV=true");
  }

  lemma WithoutConfigWords(b: Builder)
    ensures Words(WithoutConfig(b))
  {
    match b
    case Prettier => VisibleWord("--write");
    case Eslint => VisibleWord("--fix");
    case Gofmt => VisibleWord("-s"); VisibleWord("-w");
    case GolangciLint => VisibleWord("run");
    case Phpcbf => VisibleWord("--standard=PSR12");
    case PhpCsFixer => VisibleWord("fix"); VisibleWord("--rules=@Symfony,@PSR12"); VisibleWord("--using-cache=no");
    case Sqlfluff => VisibleWord("format"); VisibleWord("--dialect"); VisibleWord("ansi");
    case _ =>
  }

  /** Prefixing a visible word keeps the result free of white space. */
  lemma VisiblePrefix(p: string, c: string)
    requires forall i :: 0 <= i < |p| ==> ' ' < p[i] <= '~'
    requires c != "" && SpaceFree(c)
    ensures p + c != "" && SpaceFree(p + c)
  {
    VisibleWord(p);
    forall i | 0 <= i < |p + c|
      ensures !IsSpace((p + c)[i])
    {
      if i < |p| { assert (p + c)[i] == p[i]; } else { assert (p + c)[i] == c[i - |p|]; }
    }
  }

  /** The builders whose configured words are plain flags and the path. */
  predicate PlainConfigured(b: Builder) {
    b in {Prettier, Eslint, Flake8, Pylint, Black, Gofmt, GolangciLint, Rustfmt, CargoClippy}
  }

  lemma PlainConfiguredWords(b: Builder, c: string)
    requires PlainConfigured(b) && c != "" && SpaceFree(c)
    ensures Words(WithConfig(b, c))
  {
    match b
    case Prettier => VisibleWord("--write"); VisibleWord("--config");
    case Eslint => VisibleWord("--fix"); VisibleWord("--config");
    case Flake8 => VisibleWord("--config");
    case Pylint => VisibleWord("--rcfile");
    case Black => VisibleWord("--config");
    case Gofmt => VisibleWord("-w"); VisibleWord("-config");
    case GolangciLint => VisibleWord("run"); VisibleWord("--config");
    case Rustfmt => VisibleWord("--config-path");
    case CargoClippy =>
  }

  lemma OtherConfiguredWords(b: Builder, c: string)
    requires !PlainConfigured(b) && c != "" && SpaceFree(c)
    ensures Words(WithConfig(b, c))
  {
    match b
    case ClangFormat => VisiblePrefix("-style=file:", c);
    case GoogleJavaFormat => VisibleWord("--aosp");
    case Phpcbf => VisiblePrefix("--standard=", c);
    case PhpCsFixer => VisibleWord("fix"); VisibleWord("--using-cache=no"); VisiblePrefix("--config=", c);
    case Stylelint => VisibleWord("--config");
    case Shellcheck => VisibleWord("--rcfile");
    case Sqlfluff => VisibleWord("format"); VisibleWord("--dialect"); VisibleWord("ansi"); VisibleWord("--config");
    case Hadolint => VisibleWord("--config");
  }

  lemma WithConfigWords(b: Builder, c: string)
    requires c != "" && SpaceFree(c)
    ensures Words(WithConfig(b, c))
  {
    if PlainConfigured(b) {
      PlainConfiguredWords(b, c);
    } else {
      OtherConfiguredWords(b, c);
    }
  }

  /** Every word a builder produces is a non-empty run of non-space characters. */
  lemma BuilderWordsAreFields(b: Builder, e: string, c: string)
    requires e != "" && SpaceFree(e) && SpaceFree(c)
    ensures Words(Argv(b, e, c))
  {
    LauncherWords(b);
    if c != "" { WithConfigWords(b, c); } else { WithoutConfigWords(b); }
    var r := Argv(b, e, c);
    var l := Launcher(b);
    var t := if c != "" then WithConfig(b, c) else WithoutConfig(b);
    assert r == l + [e] + t;
    forall i | 0 <= i < |r|
      ensures r[i] != "" && SpaceFree(r[i])
    {
      if i < |l| { assert r[i] == l[i]; }
      else if i == |l| { assert r[i] == e; }
      else { assert r[i] == t[i - |l| - 1]; }
    }
  }

  /** Splitting a built command on white space gives back its words, so the
      program Go runs is the launcher's first word or the executable. */
  lemma ParseBuiltCommand(b: Builder, e: string, c: string)
    requires e != "" && SpaceFree(e) && SpaceFree(c)
    ensures Fields(BuildCommand(b, e, c)) == Argv(b, e, c)
  {
    BuilderWordsAreFields(b, e, c);
    FieldsOfJoin(Argv(b, e, c));
  }

  lemma Join2(a: string, b: string)
    ensures JoinWith([a, b], " ") == a + (" " + b)
  {
    JoinStep(a, [b]);
  }

  /** Four words joined: the first two with their spaces, the third, then
      the last with its space. */
  lemma Join4(a: string, b: string, c: string, d: string)
    ensures JoinWith([a, b, c, d], " ") == (a + " " + b + " ") + c + (" " + d)
  {
    JoinStep(a, [b, c, d]);
    JoinStep(b, [c, d]);
    Join2(c, d);
  }

  lemma PhpLead()
    ensures "php" + " " + "-dmemory_limit=-1" + " " == "php -dmemory_limit=-1 "
  {
  }

  lemma PrettierFlags()
    ensures " " + "--write" + " " + "--config" + " " == " --write --config "
    ensures " " + "--write" == " --write"
  {
  }

  /** Four words joined: the first, the middle two with their spaces, then
      the last. */
  lemma Join4Middle(a: string, b: string, c: string, d: string)
    ensures JoinWith([a, b, c, d], " ") == a + (" " + b + " " + c + " ") + d
  {
    Join4(a, b, c, d);
  }

  /** prettier with and without a configuration file. */
  lemma PrettierCommands(e: string, c: string)
    requires c != ""
    ensures BuildCommand(Prettier, e, c) == e + " --write --config " + c
    ensures BuildCommand(Prettier, e, "") == e + " --write"
  {
    assert Argv(Prettier, e, c) == [e, "--write", "--config", c];
    Join4Middle(e, "--write", "--config", c);
    assert Argv(Prettier, e, "") == [e, "--write"];
    Join2(e, "--write");
    PrettierFlags();
  }

  /** phpcbf runs through `php` with the found standard file. */
  lemma PhpcbfCommandWithConfig(e: string, c: string)
    requires c != ""
    ensures BuildCommand(Phpcbf, e, c) == "php -dmemory_limit=-1 " + e + " --standard=" + c
  {
    var standard := "--standard=" + c;
    assert Argv(Phpcbf, e, c) == ["php", "-dmemory_limit=-1", e, standard];
    Join4("php", "-dmemory_limit=-1", e, standard);
    PhpLead();
    assert " " + standard == " --standard=" + c;
  }

  /** phpcbf falls back to the PSR12 standard when no configuration exists. */
  lemma PhpcbfCommandDefault(e: string)
    ensures BuildCommand(Phpcbf, e, "") == "php -dmemory_limit=-1 " + e + " --standard=PSR12"
  {
    assert Argv(Phpcbf, e, "") == ["php", "-dmemory_limit=-1", e, "--standard=PSR12"];
    Join4("php", "-dmemory_limit=-1", e, "--standard=PSR12");
    PhpLead();
  }
}
