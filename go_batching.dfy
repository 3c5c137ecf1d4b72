/** main.go, part 3: the batch list `addToList` fills, `walkPath`, the command
    line `runLinter` executes, and the exit-code loop of `main`. Running a
    batch is the oracle `run` from the program name and arguments to the
    exit code. */
module GoBatching {
  import opened Wrappers
  import opened Text
  import opened Paths
  import opened ExitCodes
  import opened GoBuilders
  import opened GoTable
  import opened GoResolve

  /** Go's `fileBatch`: the files of one configuration and the command that
      was built for the first of them. */
  datatype FileBatch = FileBatch(config: string, executable: string, files: seq<string>)

  /** The contents of a `fileBatchList`: the batches by configuration, and the
      configurations in the order they were first seen. */
  datatype Batches = Batches(items: map<string, FileBatch>, keys: seq<string>)

  const NoBatches := Batches(map[], [])

  /** A program name and its arguments, as `exec.Command` receives them. */
  type Invocation = (string, seq<string>)

  /** Every key once, exactly the keys of `items`, each batch filed under its
      own configuration and holding at least one file. */
  ghost predicate WellFormed(bs: Batches) {
    (forall i, j :: 0 <= i < j < |bs.keys| ==> bs.keys[i] != bs.keys[j])
    && (forall k :: k in bs.items <==> k in bs.keys)
    && (forall k :: k in bs.items ==> bs.items[k].config == k && bs.items[k].files != [])
  }

  /** What one `addToList` call makes of the list. */
  function Add(bs: Batches, file: string, config: string, executable: string): (r: Batches)
    ensures WellFormed(bs) ==> WellFormed(r)
    ensures config in r.items && r.items[config].files != [] && r.items[config].files[|r.items[config].files| - 1] == file
    ensures forall k :: k in bs.items && k != config ==> k in r.items && r.items[k] == bs.items[k]
  {
    if config in bs.items then
      var batch := bs.items[config];
      Batches(bs.items[config := batch.(files := batch.files + [file])], bs.keys)
    else
      Batches(bs.items[config := FileBatch(config, executable, [file])], bs.keys + [config])
  }

  /** Go's `fileBatchList`. A nil `items` map behaves as an empty one, so
      the lazy `make` of the source is not modelled. */
  class FileBatchList {
    var items: map<string, FileBatch>
    var keys: seq<string>

    constructor ()
      ensures items == map[] && keys == []
    {
      items := map[];
      keys := [];
    }

    function Snapshot(): Batches
      reads this
    {
      Batches(items, keys)
    }

    /** Go's `addToList`: a known configuration only gets the file appended;
        a new one gets a batch holding this call's command and is appended
        to `keys`. */
    method AddToList(file: string, config: string, executable: string)
      modifies this
      ensures Snapshot() == Add(old(Snapshot()), file, config, executable)
    {
      if config in items {
        var batch := items[config];
        items := items[config := batch.(files := batch.files + [file])];
        return;
      }
      var newBatch := FileBatch(config, executable, [file]);
      items := items[config := newBatch];
      keys := keys + [config];
    }
  }

  // ---------------------------------------------------------------------
  // What a sequence of `addToList` calls builds

  datatype Call = Call(file: string, config: string, executable: string)

  function Accumulate(calls: seq<Call>): Batches
    decreases |calls|
  {
    if calls == [] then NoBatches
    else
      var c := calls[|calls| - 1];
      Add(Accumulate(calls[..|calls| - 1]), c.file, c.config, c.executable)
  }

  /** The distinct strings of `s`, in the order they first occur. */
  function FirstSeen(s: seq<string>): (r: seq<string>)
    ensures forall x :: x in r <==> x in s
    ensures forall i, j :: 0 <= i < j < |r| ==> r[i] != r[j]
    decreases |s|
  {
    if s == [] then []
    else
      var f := FirstSeen(s[..|s| - 1]);
      assert forall x :: x in s <==> x in s[..|s| - 1] || x == s[|s| - 1];
      if s[|s| - 1] in f then f else f + [s[|s| - 1]]
  }

  function Configs(calls: seq<Call>): (r: seq<string>)
    ensures |r| == |calls| && forall i :: 0 <= i < |calls| ==> r[i] == calls[i].config
  {
    seq(|calls|, i requires 0 <= i < |calls| => calls[i].config)
  }

  /** The files of the calls with configuration `k`, in call order. */
  function FilesFor(calls: seq<Call>, k: string): seq<string>
    decreases |calls|
  {
    if calls == [] then []
    else
      var c := calls[|calls| - 1];
      FilesFor(calls[..|calls| - 1], k) + (if c.config == k then [c.file] else [])
  }

  /** The command given with the first call of configuration `k`, if any. */
  function FirstCommand(calls: seq<Call>, k: string): (r: Option<string>)
    ensures r.None? <==> forall i :: 0 <= i < |calls| ==> calls[i].config != k
    ensures r.Some? ==> exists i :: 0 <= i < |calls| && calls[i].config == k && r.value == calls[i].executable
                          && forall j :: 0 <= j < i ==> calls[j].config != k
    decreases |calls|
  {
    if calls == [] then None
    else
      var n := |calls| - 1;
      var before := FirstCommand(calls[..n], k);
      assert forall i :: 0 <= i < n ==> calls[..n][i] == calls[i];
      if before.Some? then before
      else if calls[n].config == k then Some(calls[n].executable)
      else None
  }

  lemma ConfigsPrefix(calls: seq<Call>, n: nat)
    requires n <= |calls|
    ensures Configs(calls[..n]) == Configs(calls)[..n]
  {
  }

  lemma {:induction false} AccumulateWellFormed(calls: seq<Call>)
    ensures WellFormed(Accumulate(calls))
    decreases |calls|
  {
    if calls != [] {
      AccumulateWellFormed(calls[..|calls| - 1]);
    }
  }

  /** One call appends its configuration to the keys when it is new. */
  lemma AddKeys(bs: Batches, file: string, config: string, executable: string)
    ensures Add(bs, file, config, executable).keys == if config in bs.items then bs.keys else bs.keys + [config]
    ensures forall k :: k in Add(bs, file, config, executable).items <==> k in bs.items || k == config
  {
  }

  lemma FirstSeenStep(s: seq<string>)
    requires s != []
    ensures FirstSeen(s) == if s[|s| - 1] in FirstSeen(s[..|s| - 1]) then FirstSeen(s[..|s| - 1])
                            else FirstSeen(s[..|s| - 1]) + [s[|s| - 1]]
  {
  }

  lemma ConfigsStep(calls: seq<Call>)
    requires calls != []
    ensures Configs(calls) == Configs(calls[..|calls| - 1]) + [calls[|calls| - 1].config]
  {
  }

  /** The keys are the distinct configurations, in first-seen order. */
  lemma {:induction false} AccumulateKeys(calls: seq<Call>)
    ensures Accumulate(calls).keys == FirstSeen(Configs(calls))
    ensures forall k :: k in Accumulate(calls).items <==> k in Configs(calls)
    decreases |calls|
  {
    if calls != [] {
      var n := |calls| - 1;
      var init, c := calls[..n], calls[n];
      AccumulateKeys(init);
      AddKeys(Accumulate(init), c.file, c.config, c.executable);
      ConfigsStep(calls);
      var s := Configs(calls);
      assert s[..n] == Configs(init);
      FirstSeenStep(s);
    }
  }

  /** Each batch holds exactly the files given with its configuration, in
      call order. */
  lemma {:induction false} AccumulateFiles(calls: seq<Call>, k: string)
    requires k in Accumulate(calls).items
    ensures Accumulate(calls).items[k].files == FilesFor(calls, k)
    decreases |calls|
  {
    var n := |calls| - 1;
    var init, c := calls[..n], calls[n];
    var bs := Accumulate(init);
    if k in bs.items {
      AccumulateFiles(init, k);
    } else {
      assert k == c.config;
      AccumulateKeys(init);
      FilesForAbsent(init, k);
    }
  }

  /** A batch's command is the one given with the first file of its
      configuration; the commands of later calls are ignored. */
  lemma {:induction false} AccumulateCommand(calls: seq<Call>, k: string)
    requires k in Accumulate(calls).items
    ensures FirstCommand(calls, k).Some?
    ensures Accumulate(calls).items[k].executable == FirstCommand(calls, k).value
    decreases |calls|
  {
    var n := |calls| - 1;
    var init := calls[..n];
    if k in Accumulate(init).items {
      AccumulateCommand(init, k);
    } else {
      AccumulateKeys(init);
      assert forall i :: 0 <= i < n ==> init[i].config == Configs(init)[i];
    }
  }

  lemma {:induction false} FilesForAbsent(calls: seq<Call>, k: string)
    requires k !in Configs(calls)
    ensures FilesFor(calls, k) == []
    decreases |calls|
  {
    if calls != [] {
      var n := |calls| - 1;
      ConfigsPrefix(calls, n);
      assert Configs(calls)[..n] == Configs(calls[..n]);
      assert Configs(calls)[n] == calls[n].config;
      FilesForAbsent(calls[..n], k);
    }
  }

  /** Two files with different languages but no configuration land in one
      batch, run with the command built for the first. */
  lemma EmptyConfigMerges(f1: string, cmd1: string, f2: string, cmd2: string)
    ensures Accumulate([Call(f1, "", cmd1), Call(f2, "", cmd2)]).keys == [""]
    ensures Accumulate([Call(f1, "", cmd1), Call(f2, "", cmd2)]).items[""] == FileBatch("", cmd1, [f1, f2])
  {
    var calls := [Call(f1, "", cmd1), Call(f2, "", cmd2)];
    assert calls[..1] == [Call(f1, "", cmd1)];
    assert calls[..1][..0] == [];
    assert Accumulate([Call(f1, "", cmd1)]) == Add(Accumulate([]), f1, "", cmd1);
    assert Accumulate(calls[..1]) == Batches(map["" := FileBatch("", cmd1, [f1])], [""]);
  }

  // ---------------------------------------------------------------------
  // walkPath

  /** What `walkPath` does to the list: files that do not exist or have no
      language are skipped; otherwise the file is added under its resolved
      configuration with its built command. */
  function WalkStep(bs: Batches, fs: set<Path>, pathDirs: map<string, string>, index: map<string, nat>, p: Path): (r: Batches)
    requires index == ExtensionIndex(Languages)
  {
    if p !in fs then bs
    else
      var resolved := Resolve(fs, pathDirs, index, p);
      if resolved.None? then bs
      else Add(bs, Render(p), resolved.value.0, resolved.value.1)
  }

  /** An existing file with a language enters the batch of the
      configuration resolved for it, as the last file of it. */
  lemma ClassifiedFileBatched(bs: Batches, fs: set<Path>, pathDirs: map<string, string>, index: map<string, nat>, p: Path,
                              config: string, command: string)
    requires index == ExtensionIndex(Languages)
    requires p in fs && Resolve(fs, pathDirs, index, p) == Some((config, command))
    ensures var r := WalkStep(bs, fs, pathDirs, index, p);
            config in r.items && r.items[config].files != [] && r.items[config].files[|r.items[config].files| - 1] == Render(p)
  {
    assert WalkStep(bs, fs, pathDirs, index, p) == Add(bs, Render(p), config, command);
  }

  /** Go's `walkPath` for an absolute path. */
  method WalkPath(list: FileBatchList, fs: set<Path>, pathDirs: map<string, string>, index: map<string, nat>, p: Path)
    requires index == ExtensionIndex(Languages)
    modifies list
    ensures list.Snapshot() == WalkStep(old(list.Snapshot()), fs, pathDirs, index, p)
  {
    if p !in fs {
      return;
    }
    var found := GetLanguageForFile(index, p);
    if found.None? {
      return;
    }
    var lang := Languages[found.value];
    var fConfig := TestConfig(fs, p, Some(lang));
    var fExecutable := TestVendor(fs, p, Some(lang));
    if fExecutable == "" {
      fExecutable := LookPathFirst(pathDirs, lang.executables);
    }
    assert fExecutable == ResolveExecutable(VendorFor(fs, p, lang), pathDirs, lang);
    var command := BuildCommand(lang.builder, fExecutable, fConfig);
    assert Resolve(fs, pathDirs, index, p) == Some((fConfig, command));
    list.AddToList(Render(p), fConfig, command);
  }

  /** The list after walking every target in order. */
  function WalkAll(bs: Batches, fs: set<Path>, pathDirs: map<string, string>, index: map<string, nat>, targets: seq<Path>): (r: Batches)
    requires index == ExtensionIndex(Languages)
    ensures WellFormed(bs) ==> WellFormed(r)
    decreases |targets|
  {
    if targets == [] then bs
    else WalkAll(WalkStep(bs, fs, pathDirs, index, targets[0]), fs, pathDirs, index, targets[1..])
  }

  /** A file without a language never enters a batch. */
  lemma {:induction false} UnclassifiedSkipped(bs: Batches, fs: set<Path>, pathDirs: map<string, string>, index: map<string, nat>, p: Path)
    requires index == ExtensionIndex(Languages)
    requires GetLanguageForFile(index, p).None?
    ensures WalkStep(bs, fs, pathDirs, index, p) == bs
  {
  }

  // ---------------------------------------------------------------------
  // runLinter and parseCommand

  /** Go's `parseCommand`: the first white-space separated field is the
      program, the others are its arguments; an empty command has no program. */
  function ParseCommand(cmdStr: string): (r: (string, seq<string>))
    ensures Fields(cmdStr) == [] ==> r == ("", [])
    ensures Fields(cmdStr) != [] ==> [r.0] + r.1 == Fields(cmdStr)
  {
    var fields := Fields(cmdStr);
    if |fields| == 0 then ("", []) else (fields[0], fields[1..])
  }

  /** A command joined from words parses back into its first word and the rest. */
  lemma ParseJoined(ws: seq<string>)
    requires ws != [] && forall i :: 0 <= i < |ws| ==> ws[i] != "" && SpaceFree(ws[i])
    ensures ParseCommand(JoinWith(ws, " ")) == (ws[0], ws[1..])
  {
    FieldsOfJoin(ws);
  }

  /** The command string `runLinter` formats, as written: the batch's
      command, its configuration path, then its files. */
  function CommandLineAsWritten(b: FileBatch): string {
    b.executable + " " + b.config + " " + JoinWith(b.files, " ")
  }

  /** The command string evidently intended: the batch's command, which
      already carries the configuration flag, then its files. */
  function CommandLineIntended(b: FileBatch): string {
    b.executable + " " + JoinWith(b.files, " ")
  }

  predicate AreWords(ws: seq<string>) {
    forall i :: 0 <= i < |ws| ==> ws[i] != "" && SpaceFree(ws[i])
  }

  /** As written, a batch with a configuration passes that path twice: once
      after its flag and once more as the first file to process. */
  lemma ConfigPassedTwice(bl: Builder, e: string, c: string, files: seq<string>)
    requires e != "" && SpaceFree(e) && c != "" && SpaceFree(c) && AreWords(files)
    ensures Fields(CommandLineAsWritten(FileBatch(c, BuildCommand(bl, e, c), files)))
         == Argv(bl, e, c) + [c] + files
  {
    var cmd := BuildCommand(bl, e, c);
    ParseBuiltCommand(bl, e, c);
    FieldsSplit(cmd + " " + c, JoinWith(files, " "));
    FieldsSplit(cmd, c);
    FieldsOfWord(c);
    FieldsOfJoin(files);
  }

  /** The intended command line passes the builder's words, then the files. */
  lemma CommandLineWords(bl: Builder, e: string, c: string, files: seq<string>)
    requires e != "" && SpaceFree(e) && SpaceFree(c) && AreWords(files)
    ensures Fields(CommandLineIntended(FileBatch(c, BuildCommand(bl, e, c), files))) == Argv(bl, e, c) + files
  {
    ParseBuiltCommand(bl, e, c);
    FieldsSplit(BuildCommand(bl, e, c), JoinWith(files, " "));
    FieldsOfJoin(files);
  }

  /** Without a configuration the extra field is empty, and the command
      line as written passes the builder's words, then the files. */
  lemma UnconfiguredCommandLine(bl: Builder, e: string, files: seq<string>)
    requires e != "" && SpaceFree(e) && AreWords(files)
    ensures Fields(CommandLineAsWritten(FileBatch("", BuildCommand(bl, e, ""), files))) == Argv(bl, e, "") + files
  {
    var cmd := BuildCommand(bl, e, "");
    ParseBuiltCommand(bl, e, "");
    FieldsSplit(cmd + " " + "", JoinWith(files, " "));
    FieldsSplit(cmd, "");
    FieldsOfWord("");
    FieldsOfJoin(files);
  }

  // ---------------------------------------------------------------------
  // The exit code of `main`

  /** The exit codes of the batches in `keys` order. */
  function Codes(bs: Batches, run: Invocation -> int): (r: seq<int>)
    requires WellFormed(bs)
    ensures |r| == |bs.keys|
    ensures forall i :: 0 <= i < |bs.keys| ==> r[i] == run(ParseCommand(CommandLineAsWritten(bs.items[bs.keys[i]])))
  {
    seq(|bs.keys|, i requires 0 <= i < |bs.keys| => run(ParseCommand(CommandLineAsWritten(bs.items[bs.keys[i]]))))
  }

  /** The loop at the end of `main`: every batch runs, in `keys` order, and
      the last non-zero code is kept. */
  method ExitCode(list: FileBatchList, run: Invocation -> int) returns (exitCode: int)
    requires WellFormed(list.Snapshot())
    ensures exitCode == LastFailure(Codes(list.Snapshot(), run))
  {
    ghost var codes := Codes(list.Snapshot(), run);
    exitCode := 0;
    for i := 0 to |list.keys|
      invariant exitCode == LastFailure(codes[..i])
    {
      var batch := list.items[list.keys[i]];
      var code := run(ParseCommand(CommandLineAsWritten(batch)));
      assert code == codes[i];
      LastFailureStep(codes, i);
      if code != 0 {
        exitCode := code;
      }
    }
    assert codes[..|list.keys|] == codes;
  }

  /** The walking part of Go's `main`: each argument in order, or the
      current directory when there is none. */
  method WalkTargets(fs: set<Path>, pathDirs: map<string, string>, index: map<string, nat>, cwd: Path, args: seq<Path>)
      returns (list: FileBatchList)
    requires index == ExtensionIndex(Languages)
    ensures fresh(list)
    ensures list.Snapshot() == WalkAll(NoBatches, fs, pathDirs, index, Targets(cwd, args))
  {
    list := new FileBatchList();
    ghost var targets := Targets(cwd, args);
    for i := 0 to |args|
      invariant fresh(list)
      invariant WalkAll(list.Snapshot(), fs, pathDirs, index, targets[i..]) == WalkAll(NoBatches, fs, pathDirs, index, targets)
    {
      WalkPath(list, fs, pathDirs, index, args[i]);
      assert targets[i..][1..] == targets[i + 1..];
    }
    if |args| == 0 {
      WalkPath(list, fs, pathDirs, index, cwd);
      assert targets[1..] == [];
    } else {
      assert targets[|args|..] == [];
    }
  }

  /** The inputs `main` walks: its arguments, or the current directory. */
  function Targets(cwd: Path, args: seq<Path>): seq<Path> {
    if args == [] then [cwd] else args
  }

  /** The batch list `main` has built once every target is walked. */
  function Batched(fs: set<Path>, pathDirs: map<string, string>, targets: seq<Path>): (r: Batches)
    ensures WellFormed(r)
  {
    assert WellFormed(NoBatches);
    WalkAll(NoBatches, fs, pathDirs, ExtensionIndex(Languages), targets)
  }

  /** Go's `main` after argument parsing: walk the targets, then run the
      batches and keep the last failure. */
  method Dispatch(fs: set<Path>, pathDirs: map<string, string>, cwd: Path, args: seq<Path>,
                  run: Invocation -> int) returns (exitCode: int)
    ensures exitCode == LastFailure(Codes(Batched(fs, pathDirs, Targets(cwd, args)), run))
  {
    var index := Init(Languages);
    var list := WalkTargets(fs, pathDirs, index, cwd, args);
    assert list.Snapshot() == Batched(fs, pathDirs, Targets(cwd, args));
    exitCode := ExitCode(list, run);
  }
}
