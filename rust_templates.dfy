/** src/main.rs, the command templates: a tool's command is a list of parts in
    which the placeholders `{exec}` and `{config}` are replaced by the
    executable and the configuration path. */
module RustTemplates {
  import opened Wrappers
  import opened Text

  /** `CommandTemplate`: the parts used when a configuration file was found,
      and the parts used when none was. */
  datatype Template = Template(withConfig: seq<string>, withoutConfig: seq<string>)

  const PrettierTemplate := Template(["{exec}", "--write", "--config", "{config}"], ["{exec}", "--write"])
  const EslintTemplate := Template(["{exec}", "--fix", "--config", "{config}"], ["{exec}", "--fix"])
  const SimpleConfigTemplate := Template(["{exec}", "--config", "{config}"], ["{exec}"])
  const RcfileTemplate := Template(["{exec}", "--rcfile", "{config}"], ["{exec}"])
  const GofmtTemplate := Template(["{exec}", "-w", "-config", "{config}"], ["{exec}", "-s", "-w"])
  const RustfmtTemplate := Template(["{exec}", "--config-path", "{config}"], ["{exec}"])
  const ClangFormatTemplate := Template(["{exec}", "-style=file:{config}"], ["{exec}"])
  const PhpcbfTemplate := Template(["php", "-dmemory_limit=-1", "{exec}", "--standard={config}"],
                                   ["php", "-dmemory_limit=-1", "{exec}", "--standard=PSR12"])
  const SqlfluffTemplate := Template(["{exec}", "format", "--dialect", "ansi", "--config", "{config}"],
                                     ["{exec}", "format", "--dialect", "ansi"])

  /** The part list `build` uses: the configured one exactly when a
      configuration path is present. */
  function Selected(t: Template, config: Option<string>): seq<string> {
    if config.Some? then t.withConfig else t.withoutConfig
  }

  /** No character of `s` opens a placeholder. */
  predicate BraceFree(s: string) {
    forall i :: 0 <= i < |s| ==> s[i] != '{'
  }

  /** One part after `build`'s two replacements: `{exec}` first, then, when a
      configuration is present, `{config}` in the result of the first. */
  function Substitute(part: string, exec: string, config: Option<string>): string {
    var resolved := Replace(part, "{exec}", exec);
    if config.Some? then Replace(resolved, "{config}", config.value) else resolved
  }

  /** `CommandTemplate::build`: every part of the selected list, substituted. */
  function Build(t: Template, exec: string, config: Option<string>): (r: seq<string>)
    ensures |r| == |Selected(t, config)|
  {
    var sel := Selected(t, config);
    seq(|sel|, i requires 0 <= i < |sel| => Substitute(sel[i], exec, config))
  }

  /** For an executable without braces, each shaped part of the built
      command means what `Fill` says. */
  lemma BuildFill(t: Template, exec: string, config: Option<string>, i: nat)
    requires BraceFree(exec) && i < |Selected(t, config)| && Shaped(Selected(t, config)[i])
    ensures Build(t, exec, config)[i] == Fill(Selected(t, config)[i], exec, config)
  {
    SubstituteShaped(Selected(t, config)[i], exec, config);
  }

  /** The text before a trailing `{config}` placeholder, when that text holds
      no other placeholder. */
  function ConfigSlot(part: string): (a: Option<string>)
    ensures a.Some? ==> BraceFree(a.value) && part == a.value + "{config}"
  {
    if |part| >= 8 && part[|part| - 8..] == "{config}" && BraceFree(part[..|part| - 8]) then
      assert part == part[..|part| - 8] + "{config}";
      Some(part[..|part| - 8])
    else None
  }

  /** The part shapes the shipped templates use: a literal word, the bare
      executable placeholder, or a literal prefix followed by the
      configuration placeholder. */
  predicate Shaped(part: string) {
    BraceFree(part) || part == "{exec}" || ConfigSlot(part).Some?
  }

  /** What a shaped part means, stated without replacement: the executable,
      the prefix followed by the configuration path, or the word itself. */
  function Fill(part: string, exec: string, config: Option<string>): string {
    if part == "{exec}" then exec
    else if ConfigSlot(part).Some? && config.Some? then ConfigSlot(part).value + config.value
    else part
  }

  /** The configuration placeholder survives the executable's replacement. */
  lemma ConfigUntouched(exec: string)
    ensures Replace("{config}", "{exec}", exec) == "{config}"
  {
    var s := "{config}";
    assert s[..6] != "{exec}" by { assert s[..6][1] == 'c'; }
    assert s[1..] == "config}";
    ReplaceAbsent("config}", "{exec}", exec);
  }

  /** For shaped parts and an executable without braces, replacement means
      what `Fill` says. */
  lemma SubstituteShaped(part: string, exec: string, config: Option<string>)
    requires Shaped(part) && BraceFree(exec)
    ensures Substitute(part, exec, config) == Fill(part, exec, config)
  {
    if part == "{exec}" {
      ReplaceAtStart("", "{exec}", exec);
      assert "{exec}" + "" == "{exec}";
      assert Replace("", "{exec}", exec) == "";
      assert exec + "" == exec;
      if config.Some? {
        ReplaceAbsent(exec, "{config}", config.value);
      }
    } else if ConfigSlot(part).Some? {
      var a := ConfigSlot(part).value;
      ReplaceSkips(a, "{config}", "{exec}", exec);
      ConfigUntouched(exec);
      if config.Some? {
        ReplaceSkips(a, "{config}", "{config}", config.value);
        ReplaceAtStart("", "{config}", config.value);
        assert "{config}" + "" == "{config}";
        assert Replace("", "{config}", config.value) == "";
        assert config.value + "" == config.value;
      }
    } else {
      ReplaceAbsent(part, "{exec}", exec);
      if config.Some? {
        ReplaceAbsent(part, "{config}", config.value);
      }
    }
  }

  /** An executable whose path contains `{config}` has it replaced by the
      configuration path too, since the second replacement runs over the
      result of the first. */
  lemma ExecPlaceholderInPath()
    ensures Substitute("{exec}", "/x{config}", Some("c")) == "/xc"
  {
    ReplaceAtStart("", "{exec}", "/x{config}");
    assert "{exec}" + "" == "{exec}";
    assert Replace("", "{exec}", "/x{config}") == "";
    assert "/x{config}" + "" == "/x{config}";
    ReplaceSkips("/x", "{config}", "{config}", "c");
    ReplaceAtStart("", "{config}", "c");
    assert "{config}" + "" == "{config}";
    assert Replace("", "{config}", "c") == "";
  }

  /** A part that ends in the configuration placeholder has a brace. */
  lemma ConfigSlotHasBrace(part: string)
    ensures ConfigSlot(part).Some? ==> !BraceFree(part)
  {
    if ConfigSlot(part).Some? {
      assert part[|ConfigSlot(part).value|] == '{';
    }
  }

  lemma FillLiteral(w: string, e: string, config: Option<string>)
    requires BraceFree(w)
    ensures Shaped(w) && Fill(w, e, config) == w
  {
    ConfigSlotHasBrace(w);
    assert "{exec}"[0] == '{';
  }

  lemma FillExec(e: string, config: Option<string>)
    ensures Shaped("{exec}") && Fill("{exec}", e, config) == e
  {
  }

  lemma FillConfig(a: string, e: string, config: Option<string>)
    requires BraceFree(a)
    ensures Shaped(a + "{config}")
    ensures Fill(a + "{config}", e, config) == if config.Some? then a + config.value else a + "{config}"
  {
    var w := a + "{config}";
    assert w[|w| - 8..] == "{config}" && w[..|w| - 8] == a;
    assert ConfigSlot(w) == Some(a);
    assert w != "{exec}" by {
      if |w| == 6 { assert false; }
    }
  }

  /** One part of a built command, by its shape. */
  lemma LiteralAt(t: Template, e: string, config: Option<string>, i: nat)
    requires BraceFree(e) && i < |Selected(t, config)| && BraceFree(Selected(t, config)[i])
    ensures Build(t, e, config)[i] == Selected(t, config)[i]
  {
    FillLiteral(Selected(t, config)[i], e, config);
    BuildFill(t, e, config, i);
  }

  lemma ExecAt(t: Template, e: string, config: Option<string>, i: nat)
    requires BraceFree(e) && i < |Selected(t, config)| && Selected(t, config)[i] == "{exec}"
    ensures Build(t, e, config)[i] == e
  {
    FillExec(e, config);
    BuildFill(t, e, config, i);
  }

  lemma ConfigAt(t: Template, e: string, c: string, i: nat, a: string)
    requires BraceFree(e) && BraceFree(a) && i < |t.withConfig| && t.withConfig[i] == a + "{config}"
    ensures Build(t, e, Some(c))[i] == a + c
  {
    FillConfig(a, e, Some(c));
    BuildFill(t, e, Some(c), i);
  }

  lemma ConfigOnlyAt(t: Template, e: string, c: string, i: nat)
    requires BraceFree(e) && i < |t.withConfig| && t.withConfig[i] == "{config}"
    ensures Build(t, e, Some(c))[i] == c
  {
    assert "" + "{config}" == "{config}";
    ConfigAt(t, e, c, i, "");
  }

  /** Sequence assembly from known elements. */
  lemma Parts1(r: seq<string>, a: string)
    requires |r| == 1 && r[0] == a
    ensures r == [a]
  {
  }

  lemma Parts2(r: seq<string>, a: string, b: string)
    requires |r| == 2 && r[0] == a && r[1] == b
    ensures r == [a, b]
  {
  }

  lemma Parts3(r: seq<string>, a: string, b: string, c: string)
    requires |r| == 3 && r[0] == a && r[1] == b && r[2] == c
    ensures r == [a, b, c]
  {
  }

  lemma Parts4(r: seq<string>, a: string, b: string, c: string, d: string)
    requires |r| == 4 && r[0] == a && r[1] == b && r[2] == c && r[3] == d
    ensures r == [a, b, c, d]
  {
  }

  lemma Parts6(r: seq<string>, a: string, b: string, c: string, d: string, f: string, g: string)
    requires |r| == 6 && r[0] == a && r[1] == b && r[2] == c && r[3] == d && r[4] == f && r[5] == g
    ensures r == [a, b, c, d, f, g]
  {
  }

  /** The part-list shapes of the shipped templates. An executable without
      braces, literal words without braces, and a prefix without braces
      before the configuration placeholder build to the words themselves,
      the executable, and the prefix followed by the configuration path. */
  lemma ShapeExecWordsConfig2(t: Template, e: string, c: string, w1: string, w2: string)
    requires BraceFree(e) && BraceFree(w1) && BraceFree(w2)
    requires t.withConfig == ["{exec}", w1, w2, "{config}"]
    ensures Build(t, e, Some(c)) == [e, w1, w2, c]
  {
    var r := Build(t, e, Some(c));
    assert r[0] == e by { ExecAt(t, e, Some(c), 0); }
    assert r[1] == w1 by { LiteralAt(t, e, Some(c), 1); }
    assert r[2] == w2 by { LiteralAt(t, e, Some(c), 2); }
    assert r[3] == c by { ConfigOnlyAt(t, e, c, 3); }
    Parts4(r, e, w1, w2, c);
  }

  lemma ShapeExecWordConfig(t: Template, e: string, c: string, w1: string)
    requires BraceFree(e) && BraceFree(w1)
    requires t.withConfig == ["{exec}", w1, "{config}"]
    ensures Build(t, e, Some(c)) == [e, w1, c]
  {
    var r := Build(t, e, Some(c));
    assert r[0] == e by { ExecAt(t, e, Some(c), 0); }
    assert r[1] == w1 by { LiteralAt(t, e, Some(c), 1); }
    assert r[2] == c by { ConfigOnlyAt(t, e, c, 2); }
    Parts3(r, e, w1, c);
  }

  lemma ShapeExecPrefixedConfig(t: Template, e: string, c: string, a: string)
    requires BraceFree(e) && BraceFree(a)
    requires t.withConfig == ["{exec}", a + "{config}"]
    ensures Build(t, e, Some(c)) == [e, a + c]
  {
    var r := Build(t, e, Some(c));
    assert r[0] == e by { ExecAt(t, e, Some(c), 0); }
    assert r[1] == a + c by { ConfigAt(t, e, c, 1, a); }
    Parts2(r, e, a + c);
  }

  lemma ShapeWordsExecPrefixedConfig(t: Template, e: string, c: string, w1: string, w2: string, a: string)
    requires BraceFree(e) && BraceFree(w1) && BraceFree(w2) && BraceFree(a)
    requires t.withConfig == [w1, w2, "{exec}", a + "{config}"]
    ensures Build(t, e, Some(c)) == [w1, w2, e, a + c]
  {
    var r := Build(t, e, Some(c));
    assert r[0] == w1 by { LiteralAt(t, e, Some(c), 0); }
    assert r[1] == w2 by { LiteralAt(t, e, Some(c), 1); }
    assert r[2] == e by { ExecAt(t, e, Some(c), 2); }
    assert r[3] == a + c by { ConfigAt(t, e, c, 3, a); }
    Parts4(r, w1, w2, e, a + c);
  }

  lemma ShapeExecWordsConfig4(t: Template, e: string, c: string, w1: string, w2: string, w3: string, w4: string)
    requires BraceFree(e) && BraceFree(w1) && BraceFree(w2) && BraceFree(w3) && BraceFree(w4)
    requires t.withConfig == ["{exec}", w1, w2, w3, w4, "{config}"]
    ensures Build(t, e, Some(c)) == [e, w1, w2, w3, w4, c]
  {
    var r := Build(t, e, Some(c));
    assert r[0] == e by { ExecAt(t, e, Some(c), 0); }
    assert r[1] == w1 by { LiteralAt(t, e, Some(c), 1); }
    assert r[2] == w2 by { LiteralAt(t, e, Some(c), 2); }
    assert r[3] == w3 by { LiteralAt(t, e, Some(c), 3); }
    assert r[4] == w4 by { LiteralAt(t, e, Some(c), 4); }
    assert r[5] == c by { ConfigOnlyAt(t, e, c, 5); }
    Parts6(r, e, w1, w2, w3, w4, c);
  }

  lemma ShapeExec(t: Template, e: string)
    requires BraceFree(e)
    requires t.withoutConfig == ["{exec}"]
    ensures Build(t, e, None) == [e]
  {
    var r := Build(t, e, None);
    assert r[0] == e by { ExecAt(t, e, None, 0); }
    Parts1(r, e);
  }

  lemma ShapeExecWord(t: Template, e: string, w1: string)
    requires BraceFree(e) && BraceFree(w1)
    requires t.withoutConfig == ["{exec}", w1]
    ensures Build(t, e, None) == [e, w1]
  {
    var r := Build(t, e, None);
    assert r[0] == e by { ExecAt(t, e, None, 0); }
    assert r[1] == w1 by { LiteralAt(t, e, None, 1); }
    Parts2(r, e, w1);
  }

  lemma ShapeExecWords2(t: Template, e: string, w1: string, w2: string)
    requires BraceFree(e) && BraceFree(w1) && BraceFree(w2)
    requires t.withoutConfig == ["{exec}", w1, w2]
    ensures Build(t, e, None) == [e, w1, w2]
  {
    var r := Build(t, e, None);
    assert r[0] == e by { ExecAt(t, e, None, 0); }
    assert r[1] == w1 by { LiteralAt(t, e, None, 1); }
    assert r[2] == w2 by { LiteralAt(t, e, None, 2); }
    Parts3(r, e, w1, w2);
  }

  lemma ShapeExecWords3(t: Template, e: string, w1: string, w2: string, w3: string)
    requires BraceFree(e) && BraceFree(w1) && BraceFree(w2) && BraceFree(w3)
    requires t.withoutConfig == ["{exec}", w1, w2, w3]
    ensures Build(t, e, None) == [e, w1, w2, w3]
  {
    var r := Build(t, e, None);
    assert r[0] == e by { ExecAt(t, e, None, 0); }
    assert r[1] == w1 by { LiteralAt(t, e, None, 1); }
    assert r[2] == w2 by { LiteralAt(t, e, None, 2); }
    assert r[3] == w3 by { LiteralAt(t, e, None, 3); }
    Parts4(r, e, w1, w2, w3);
  }

  lemma ShapeWordsExecWord(t: Template, e: string, w1: string, w2: string, w3: string)
    requires BraceFree(e) && BraceFree(w1) && BraceFree(w2) && BraceFree(w3)
    requires t.withoutConfig == [w1, w2, "{exec}", w3]
    ensures Build(t, e, None) == [w1, w2, e, w3]
  {
    var r := Build(t, e, None);
    assert r[0] == w1 by { LiteralAt(t, e, None, 0); }
    assert r[1] == w2 by { LiteralAt(t, e, None, 1); }
    assert r[2] == e by { ExecAt(t, e, None, 2); }
    assert r[3] == w3 by { LiteralAt(t, e, None, 3); }
    Parts4(r, w1, w2, e, w3);
  }

  /** The shipped templates, instantiated for an executable without braces:
      the part list with a configuration path `c`, and the one without. */
  lemma PrettierWords()
    ensures BraceFree("--write") && BraceFree("--config")
  {
  }

  lemma BuildPrettier(e: string, c: string)
    requires BraceFree(e)
    ensures Build(PrettierTemplate, e, Some(c)) == [e, "--write", "--config", c]
    ensures Build(PrettierTemplate, e, None) == [e, "--write"]
  {
    PrettierWords();
    ShapeExecWordsConfig2(PrettierTemplate, e, c, "--write", "--config");
    ShapeExecWord(PrettierTemplate, e, "--write");
  }

  lemma EslintWords()
    ensures BraceFree("--fix") && BraceFree("--config")
  {
  }

  lemma BuildEslint(e: string, c: string)
    requires BraceFree(e)
    ensures Build(EslintTemplate, e, Some(c)) == [e, "--fix", "--config", c]
    ensures Build(EslintTemplate, e, None) == [e, "--fix"]
  {
    EslintWords();
    ShapeExecWordsConfig2(EslintTemplate, e, c, "--fix", "--config");
    ShapeExecWord(EslintTemplate, e, "--fix");
  }

  lemma SimpleConfigWords()
    ensures BraceFree("--config")
  {
  }

  lemma BuildSimpleConfig(e: string, c: string)
    requires BraceFree(e)
    ensures Build(SimpleConfigTemplate, e, Some(c)) == [e, "--config", c]
    ensures Build(SimpleConfigTemplate, e, None) == [e]
  {
    SimpleConfigWords();
    ShapeExecWordConfig(SimpleConfigTemplate, e, c, "--config");
    ShapeExec(SimpleConfigTemplate, e);
  }

  lemma RcfileWords()
    ensures BraceFree("--rcfile")
  {
  }

  lemma BuildRcfile(e: string, c: string)
    requires BraceFree(e)
    ensures Build(RcfileTemplate, e, Some(c)) == [e, "--rcfile", c]
    ensures Build(RcfileTemplate, e, None) == [e]
  {
    RcfileWords();
    ShapeExecWordConfig(RcfileTemplate, e, c, "--rcfile");
    ShapeExec(RcfileTemplate, e);
  }

  lemma GofmtWords()
    ensures BraceFree("-w") && BraceFree("-config") && BraceFree("-s")
  {
  }

  lemma BuildGofmt(e: string, c: string)
    requires BraceFree(e)
    ensures Build(GofmtTemplate, e, Some(c)) == [e, "-w", "-config", c]
    ensures Build(GofmtTemplate, e, None) == [e, "-s", "-w"]
  {
    GofmtWords();
    ShapeExecWordsConfig2(GofmtTemplate, e, c, "-w", "-config");
    ShapeExecWords2(GofmtTemplate, e, "-s", "-w");
  }

  lemma RustfmtWords()
    ensures BraceFree("--config-path")
  {
  }

  lemma BuildRustfmt(e: string, c: string)
    requires BraceFree(e)
    ensures Build(RustfmtTemplate, e, Some(c)) == [e, "--config-path", c]
    ensures Build(RustfmtTemplate, e, None) == [e]
  {
    RustfmtWords();
    ShapeExecWordConfig(RustfmtTemplate, e, c, "--config-path");
    ShapeExec(RustfmtTemplate, e);
  }

  lemma ClangFormatWords()
    ensures BraceFree("-style=file:") && "-style=file:{config}" == "-style=file:" + "{config}"
  {
  }

  lemma BuildClangFormat(e: string, c: string)
    requires BraceFree(e)
    ensures Build(ClangFormatTemplate, e, Some(c)) == [e, "-style=file:" + c]
    ensures Build(ClangFormatTemplate, e, None) == [e]
  {
    ClangFormatWords();
    ShapeExecPrefixedConfig(ClangFormatTemplate, e, c, "-style=file:");
    ShapeExec(ClangFormatTemplate, e);
  }

  lemma PhpcbfWords()
    ensures BraceFree("php") && BraceFree("-dmemory_limit=-1") && BraceFree("--standard=") && BraceFree("--standard=PSR12") && "--standard={config}" == "--standard=" + "{config}"
  {
  }

  lemma BuildPhpcbf(e: string, c: string)
    requires BraceFree(e)
    ensures Build(PhpcbfTemplate, e, Some(c)) == ["php", "-dmemory_limit=-1", e, "--standard=" + c]
    ensures Build(PhpcbfTemplate, e, None) == ["php", "-dmemory_limit=-1", e, "--standard=PSR12"]
  {
    PhpcbfWords();
    ShapeWordsExecPrefixedConfig(PhpcbfTemplate, e, c, "php", "-dmemory_limit=-1", "--standard=");
    ShapeWordsExecWord(PhpcbfTemplate, e, "php", "-dmemory_limit=-1", "--standard=PSR12");
  }

  lemma SqlfluffWords()
    ensures BraceFree("format") && BraceFree("--dialect") && BraceFree("ansi") && BraceFree("--config")
  {
  }

  lemma BuildSqlfluff(e: string, c: string)
    requires BraceFree(e)
    ensures Build(SqlfluffTemplate, e, Some(c)) == [e, "format", "--dialect", "ansi", "--config", c]
    ensures Build(SqlfluffTemplate, e, None) == [e, "format", "--dialect", "ansi"]
  {
    SqlfluffWords();
    ShapeExecWordsConfig4(SqlfluffTemplate, e, c, "format", "--dialect", "ansi", "--config");
    ShapeExecWords3(SqlfluffTemplate, e, "format", "--dialect", "ansi");
  }
}
