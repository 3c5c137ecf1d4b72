/** main.c, part 2: the fixed-size `file_batch_list` that `add_to_list` and
    `add_new_batch` fill, `walk_path`, and `main`. `realpath` is the oracle
    `realpath` (nothing when the path cannot be resolved), `stat`'s
    directory test is membership in `dirs`, and `system(cmd)` is the oracle
    `run` from the command string to its result. */
module CBatching {
  import opened Wrappers
  import opened Text
  import opened Paths
  import opened ExitCodes
  import opened CResolve

  /** `MAX_BATCH_LENGTH`. */
  const MaxBatchLength: nat := 100

  /** `PATH_MAX` of Linux's `limits.h`. */
  const PathMax: nat := 4096

  /** C's `struct file_batch`: a configuration, an executable and the files
      as one string separated by spaces. */
  datatype CBatch = CBatch(config: string, executable: string, files: string)

  /** The index of the first batch with configuration `config`. */
  function FindConfig(bs: seq<CBatch>, config: string): (r: Option<nat>)
    ensures r.None? <==> forall j :: 0 <= j < |bs| ==> bs[j].config != config
    ensures r.Some? ==> r.value < |bs| && bs[r.value].config == config
                        && forall j :: 0 <= j < r.value ==> bs[j].config != config
  {
    if bs == [] then None
    else if bs[0].config == config then Some(0)
    else
      var r := FindConfig(bs[1..], config);
      assert forall j :: 1 <= j < |bs| ==> bs[j] == bs[1..][j - 1];
      if r.Some? then Some(r.value + 1) else None
  }

  predicate DistinctConfigs(bs: seq<CBatch>) {
    forall i, j :: 0 <= i < j < |bs| ==> bs[i].config != bs[j].config
  }

  /** What one `add_to_list` call makes of the batches: " " and the file are
      appended to the first batch with the same configuration; otherwise a
      batch is added at the end, unless that would make `MAX_BATCH_LENGTH`
      batches, when the program exits (None). */
  function Insert(bs: seq<CBatch>, file: string, config: string, executable: string): (r: Option<seq<CBatch>>)
    ensures r.None? <==> FindConfig(bs, config).None? && |bs| + 1 == MaxBatchLength
    ensures r.Some? && FindConfig(bs, config).Some? ==>
              var i := FindConfig(bs, config).value;
              |r.value| == |bs| && r.value[i].files == bs[i].files + " " + file
              && r.value[i].config == config && r.value[i].executable == bs[i].executable
              && forall j :: 0 <= j < |bs| && j != i ==> r.value[j] == bs[j]
    ensures r.Some? && FindConfig(bs, config).None? ==> r.value == bs + [CBatch(config, executable, file)]
    ensures r.Some? && |bs| < MaxBatchLength ==> |r.value| < MaxBatchLength
    ensures r.Some? && DistinctConfigs(bs) ==> DistinctConfigs(r.value)
  {
    match FindConfig(bs, config)
    case Some(i) => Some(bs[i := bs[i].(files := bs[i].files + " " + file)])
    case None =>
      if |bs| + 1 == MaxBatchLength then None
      else Some(bs + [CBatch(config, executable, file)])
  }

  /** C's `struct file_batch_list`: a fixed array of `MAX_BATCH_LENGTH`
      batches of which the first `length` are in use. */
  class FileBatchList {
    const items: array<CBatch>
    var length: nat

    ghost predicate Valid()
      reads this
    {
      items.Length == MaxBatchLength && length < MaxBatchLength
    }

    /** The batches in use. */
    function Contents(): seq<CBatch>
      reads this, items
      requires Valid()
    {
      items[..length]
    }

    /** An empty list: `length` starts at 0. */
    constructor ()
      ensures Valid() && Contents() == [] && fresh(items)
    {
      items := new CBatch[MaxBatchLength](_ => CBatch("", "", ""));
      length := 0;
    }

    /** `add_new_batch`: fails (the source calls `exit(1)`) when the new
        length would reach `MAX_BATCH_LENGTH`; otherwise the batch is stored
        at index `length` and `length` grows by one. */
    method AddNewBatch(file: string, config: string, executable: string) returns (ok: bool)
      requires Valid()
      modifies this, items
      ensures Valid()
      ensures ok <==> old(length) + 1 != MaxBatchLength
      ensures ok ==> length == old(length) + 1 && Contents() == old(Contents()) + [CBatch(config, executable, file)]
      ensures !ok ==> Contents() == old(Contents())
    {
      if length + 1 == MaxBatchLength {
        return false;
      }
      items[length] := CBatch(config, executable, file);
      length := length + 1;
      return true;
    }

    /** `add_to_list`: the linear scan for an equal configuration, then
        `add_new_batch`. */
    method AddToList(file: string, config: string, executable: string) returns (ok: bool)
      requires Valid()
      modifies this, items
      ensures Valid()
      ensures ok <==> Insert(old(Contents()), file, config, executable).Some?
      ensures ok ==> Contents() == Insert(old(Contents()), file, config, executable).value
      ensures !ok ==> Contents() == old(Contents())
    {
      for i := 0 to length
        invariant Valid() && length == old(length)
        invariant Contents() == old(Contents())
        invariant forall j :: 0 <= j < i ==> items[j].config != config
      {
        if items[i].config == config {
          items[i] := items[i].(files := items[i].files + " " + file);
          assert FindConfig(old(Contents()), config) == Some(i);
          return true;
        }
      }
      ok := AddNewBatch(file, config, executable);
    }
  }

  // ---------------------------------------------------------------------
  // What a sequence of `add_to_list` calls builds

  datatype Call = Call(file: string, config: string, executable: string)

  /** The batches after `calls`, or None once one of them exits. */
  function Accumulate(calls: seq<Call>): Option<seq<CBatch>>
    decreases |calls|
  {
    if calls == [] then Some([])
    else
      var c := calls[|calls| - 1];
      match Accumulate(calls[..|calls| - 1])
      case None => None
      case Some(bs) => Insert(bs, c.file, c.config, c.executable)
  }

  /** The files of the calls with configuration `k`, in call order. */
  function FilesFor(calls: seq<Call>, k: string): seq<string>
    decreases |calls|
  {
    if calls == [] then []
    else
      var c := calls[|calls| - 1];
      FilesFor(calls[..|calls| - 1], k) + (if c.config == k then [c.file] else [])
  }

  /** Each batch holds the files of its configuration joined by spaces, and
      every configuration given has a batch. */
  ghost predicate Joined(bs: seq<CBatch>, calls: seq<Call>) {
    DistinctConfigs(bs)
    && (forall j :: 0 <= j < |bs| ==> FilesFor(calls, bs[j].config) != []
                                      && bs[j].files == JoinWith(FilesFor(calls, bs[j].config), " "))
    && (forall k :: FilesFor(calls, k) != [] ==> FindConfig(bs, k).Some?)
  }

  lemma FilesForStep(init: seq<Call>, c: Call, k: string)
    ensures FilesFor(init + [c], k) == FilesFor(init, k) + (if c.config == k then [c.file] else [])
  {
    assert (init + [c])[..|init|] == init;
  }

  /** Appending to the batch of a known configuration keeps `Joined`. */
  lemma JoinedAppend(bs: seq<CBatch>, init: seq<Call>, c: Call)
    requires Joined(bs, init) && FindConfig(bs, c.config).Some?
    ensures Insert(bs, c.file, c.config, c.executable).Some?
    ensures Joined(Insert(bs, c.file, c.config, c.executable).value, init + [c])
  {
    var calls := init + [c];
    var i := FindConfig(bs, c.config).value;
    var r := Insert(bs, c.file, c.config, c.executable).value;
    forall k
      ensures FilesFor(calls, k) == FilesFor(init, k) + (if c.config == k then [c.file] else [])
    {
      FilesForStep(init, c, k);
    }
    JoinAppend(FilesFor(init, c.config), c.file, " ");
    forall j | 0 <= j < |r|
      ensures FilesFor(calls, r[j].config) != [] && r[j].files == JoinWith(FilesFor(calls, r[j].config), " ")
    {
      FilesForStep(init, c, r[j].config);
      if j != i {
        assert r[j] == bs[j];
        assert bs[j].config != bs[i].config;
        assert FilesFor(calls, r[j].config) == FilesFor(init, bs[j].config) + [];
        assert bs[j].files == JoinWith(FilesFor(init, bs[j].config), " ");
        assert FilesFor(init, bs[j].config) + [] == FilesFor(init, bs[j].config);
      } else {
        assert FilesFor(calls, r[j].config) == FilesFor(init, c.config) + [c.file];
        assert r[j].files == bs[i].files + " " + c.file;
        assert bs[i].files == JoinWith(FilesFor(init, c.config), " ");
        assert r[j].files == JoinWith(FilesFor(init, c.config) + [c.file], " ");
      }
    }
    forall k | FilesFor(calls, k) != []
      ensures FindConfig(r, k).Some?
    {
      var m := FindConfig(bs, k).value;
      assert r[m].config == bs[m].config;
    }
  }

  /** A new batch for a new configuration keeps `Joined`. */
  lemma JoinedNew(bs: seq<CBatch>, init: seq<Call>, c: Call)
    requires Joined(bs, init) && FindConfig(bs, c.config).None?
    requires Insert(bs, c.file, c.config, c.executable).Some?
    ensures Joined(Insert(bs, c.file, c.config, c.executable).value, init + [c])
  {
    var calls := init + [c];
    var r := Insert(bs, c.file, c.config, c.executable).value;
    forall k
      ensures FilesFor(calls, k) == FilesFor(init, k) + (if c.config == k then [c.file] else [])
    {
      FilesForStep(init, c, k);
    }
    assert FilesFor(init, c.config) == [];
    assert FilesFor(calls, c.config) == [c.file];
    forall j | 0 <= j < |r|
      ensures FilesFor(calls, r[j].config) != [] && r[j].files == JoinWith(FilesFor(calls, r[j].config), " ")
    {
      FilesForStep(init, c, r[j].config);
      if j < |bs| {
        assert r[j] == bs[j];
        assert bs[j].config != c.config;
        assert FilesFor(init, bs[j].config) + [] == FilesFor(init, bs[j].config);
      } else {
        assert r[j] == CBatch(c.config, c.executable, c.file);
        assert JoinWith([c.file], " ") == c.file;
      }
    }
    forall k | FilesFor(calls, k) != []
      ensures FindConfig(r, k).Some?
    {
      if k != c.config {
        var m := FindConfig(bs, k).value;
        assert r[m] == bs[m];
      } else {
        assert r[|bs|].config == k;
      }
    }
  }

  /** As long as no call exits, the batches are the distinct configurations,
      each with its files in call order separated by single spaces. */
  lemma {:induction false} AccumulateJoined(calls: seq<Call>)
    requires Accumulate(calls).Some?
    ensures Joined(Accumulate(calls).value, calls)
    decreases |calls|
  {
    if calls != [] {
      var n := |calls| - 1;
      var init, c := calls[..n], calls[n];
      AccumulateJoined(init);
      var bs := Accumulate(init).value;
      assert calls == init + [c];
      if FindConfig(bs, c.config).Some? {
        JoinedAppend(bs, init, c);
      } else {
        JoinedNew(bs, init, c);
      }
    }
  }

  /** The batch list never holds more than `MAX_BATCH_LENGTH - 1` batches. */
  lemma {:induction false} AtMostNinetyNine(calls: seq<Call>)
    requires Accumulate(calls).Some?
    ensures |Accumulate(calls).value| <= MaxBatchLength - 1
    decreases |calls|
  {
    if calls != [] {
      AtMostNinetyNine(calls[..|calls| - 1]);
    }
  }

  // ---------------------------------------------------------------------
  // walk_path

  /** The path `walk_path` hands to `add_to_list`, as written: `dirname`
      writes into the buffer it is given, so for a file argument the buffer
      then holds the directory the walk starts in. */
  function BatchedPathAsWritten(dirs: set<Path>, p: Path): (s: string)
    ensures s != "" && s[0] == '/'
    ensures p in dirs ==> s == Render(p)
    ensures p !in dirs ==> s == Render(Dir(p))
  {
    Render(StartDir(dirs, p))
  }

  /** The path as evidently intended: the argument itself. */
  function BatchedPathIntended(p: Path): (s: string)
    ensures s != "" && s[0] == '/'
  {
    Render(p)
  }

  /** As written, a file argument is batched as the directory holding it. */
  lemma DirnameReplacesFile(dirs: set<Path>, p: Path)
    requires p !in dirs && p != [] && p[|p| - 1] != ""
    ensures BatchedPathAsWritten(dirs, p) == Render(Dir(p))
    ensures BatchedPathAsWritten(dirs, p) != BatchedPathIntended(p)
  {
    var d := Dir(p);
    assert p == d + [p[|p| - 1]];
    assert Slashed(p) == Slashed(d) + "/" + p[|p| - 1];
    assert |Render(p)| > |Slashed(d)| + 1;
  }

  /** A successful insertion leaves the file at the end of the files of the
      batch of its configuration. */
  lemma InsertEndsWith(bs: seq<CBatch>, file: string, config: string, executable: string)
    requires Insert(bs, file, config, executable).Some?
    ensures var r := Insert(bs, file, config, executable).value;
            exists j :: 0 <= j < |r| && r[j].config == config && EndsWith(r[j].files, file)
  {
    var r := Insert(bs, file, config, executable).value;
    match FindConfig(bs, config)
    case Some(i) =>
      var s := bs[i].files + " " + file;
      assert r[i].files == s;
      assert s[|s| - |file|..] == file;
    case None =>
      var j := |bs|;
      assert r[j].files == file;
      assert file[|file| - |file|..] == file;
  }

  /** What `walk_path` does to the batches: an argument that cannot be
      resolved is skipped; otherwise the path left in `argv_path` is added
      under the configuration and executable resolved for it, and the
      program exits when that needs a 100th batch. */
  function WalkStep(bs: seq<CBatch>, fs: set<Path>, dirs: set<Path>, realpath: string -> Option<Path>, arg: string): (r: Option<seq<CBatch>>)
    ensures realpath(arg).None? ==> r == Some(bs)
    ensures realpath(arg).Some? ==>
              r == Insert(bs, BatchedPathAsWritten(dirs, realpath(arg).value),
                          Resolve(fs, dirs, realpath(arg).value).0, Resolve(fs, dirs, realpath(arg).value).1)
  {
    match realpath(arg)
    case None => Some(bs)
    case Some(p) =>
      var (config, exec) := Resolve(fs, dirs, p);
      Insert(bs, BatchedPathAsWritten(dirs, p), config, exec)
  }

  /** As written, a resolved argument ends the files of the batch of its
      configuration in the form `dirname` left it: the directory the walk
      started in. */
  lemma WalkStepBatchesStartDir(bs: seq<CBatch>, fs: set<Path>, dirs: set<Path>, realpath: string -> Option<Path>, arg: string)
    requires realpath(arg).Some? && WalkStep(bs, fs, dirs, realpath, arg).Some?
    ensures var r := WalkStep(bs, fs, dirs, realpath, arg).value;
            exists j :: 0 <= j < |r| && r[j].config == Resolve(fs, dirs, realpath(arg).value).0
                        && EndsWith(r[j].files, Render(StartDir(dirs, realpath(arg).value)))
  {
    var p := realpath(arg).value;
    var (config, exec) := Resolve(fs, dirs, p);
    InsertEndsWith(bs, BatchedPathAsWritten(dirs, p), config, exec);
  }

  /** The walk step with the intended walk, fallback and path. */
  function WalkStepIntended(bs: seq<CBatch>, fs: set<Path>, dirs: set<Path>, realpath: string -> Option<Path>, arg: string): Option<seq<CBatch>> {
    match realpath(arg)
    case None => Some(bs)
    case Some(p) =>
      var (config, exec) := ResolveIntended(fs, dirs, p);
      Insert(bs, BatchedPathIntended(p), config, exec)
  }

  /** With the intended path, the resolved argument itself ends the files
      of the batch of its configuration. */
  lemma WalkStepBatchesArgument(bs: seq<CBatch>, fs: set<Path>, dirs: set<Path>, realpath: string -> Option<Path>, arg: string)
    requires realpath(arg).Some? && WalkStepIntended(bs, fs, dirs, realpath, arg).Some?
    ensures var r := WalkStepIntended(bs, fs, dirs, realpath, arg).value;
            exists j :: 0 <= j < |r| && r[j].config == ResolveIntended(fs, dirs, realpath(arg).value).0
                        && EndsWith(r[j].files, Render(realpath(arg).value))
  {
    var p := realpath(arg).value;
    var (config, exec) := ResolveIntended(fs, dirs, p);
    InsertEndsWith(bs, BatchedPathIntended(p), config, exec);
  }

  /** The directories of the project `/p` with `/p/phpcs.xml`. */
  function SubdirDirs(): set<Path> {
    {["p"], ["p", "src"]}
  }

  /** As written, `/p/src/a.php` in that project is batched as `/p/src`
      with the php-cs-fixer defaults, though `/p/phpcs.xml` is one level up. */
  lemma SubdirectoryFileAsWritten(realpath: string -> Option<Path>, arg: string)
    requires realpath(arg) == Some(["p", "src", "a.php"])
    ensures WalkStep([], SubdirFs(), SubdirDirs(), realpath, arg)
         == Some([CBatch(PhpCsFixerDefaultConfig, PhpCsFixerDefault, Render(["p", "src"]))])
  {
    var p := ["p", "src", "a.php"];
    var d := ["p", "src"];
    assert |p| == 3 && |d| == 2;
    assert p !in SubdirDirs();
    assert Dir(p) == d;
    assert StartDir(SubdirDirs(), p) == d;
    SrcProbesEmpty();
    ResolveMissFallsBack(SubdirFs(), SubdirDirs(), p);
    InsertIntoEmpty(BatchedPathAsWritten(SubdirDirs(), p), PhpCsFixerDefaultConfig, PhpCsFixerDefault);
  }

  lemma InsertIntoEmpty(file: string, config: string, executable: string)
    ensures Insert([], file, config, executable) == Some([CBatch(config, executable, file)])
  {
    assert FindConfig([], config).None?;
    assert [] + [CBatch(config, executable, file)] == [CBatch(config, executable, file)];
  }

  /** C's `walk_path`; false when `add_new_batch` exits. */
  method WalkPath(list: FileBatchList, fs: set<Path>, dirs: set<Path>, realpath: string -> Option<Path>, arg: string)
      returns (ok: bool)
    requires list.Valid()
    modifies list, list.items
    ensures list.Valid()
    ensures ok <==> WalkStep(old(list.Contents()), fs, dirs, realpath, arg).Some?
    ensures ok ==> list.Contents() == WalkStep(old(list.Contents()), fs, dirs, realpath, arg).value
  {
    var resolved := realpath(arg);
    if resolved.None? {
      return true;
    }
    var argvPath := Render(resolved.value);
    var directory := resolved.value;
    if resolved.value !in dirs {
      // `dirname(argv_path)` truncates `argv_path` itself.
      directory := Dir(resolved.value);
      argvPath := Render(directory);
    }
    var config, exec := WalkLoop(fs, directory);
    config, exec := DefaultsAsWritten(config, exec).0, DefaultsAsWritten(config, exec).1;
    ok := list.AddToList(argvPath, config, exec);
  }

  /** The batches after walking every argument in order; None once one walk
      exits. */
  function WalkAll(bs: Option<seq<CBatch>>, fs: set<Path>, dirs: set<Path>, realpath: string -> Option<Path>, args: seq<string>): (r: Option<seq<CBatch>>)
    ensures bs.None? ==> r.None?
    ensures bs.Some? && r.Some? && |bs.value| < MaxBatchLength ==> |r.value| < MaxBatchLength
    ensures bs.Some? && r.Some? && DistinctConfigs(bs.value) ==> DistinctConfigs(r.value)
    decreases |args|
  {
    if args == [] || bs.None? then bs
    else WalkAll(WalkStep(bs.value, fs, dirs, realpath, args[0]), fs, dirs, realpath, args[1..])
  }

  // ---------------------------------------------------------------------
  // run_linter and main

  /** The command `run_linter` hands to `system`. */
  function CommandLine(b: CBatch): string {
    b.executable + " " + b.config + " " + b.files
  }

  /** The results of running every batch, in index order. */
  function Codes(bs: seq<CBatch>, run: string -> int): (r: seq<int>)
    ensures |r| == |bs| && forall i :: 0 <= i < |bs| ==> r[i] == run(CommandLine(bs[i]))
  {
    seq(|bs|, i requires 0 <= i < |bs| => run(CommandLine(bs[i])))
  }

  /** The loop at the end of `main`: every batch runs and the last non-zero
      result is kept. */
  method ExitCode(list: FileBatchList, run: string -> int) returns (exitCode: int)
    requires list.Valid()
    ensures exitCode == LastFailure(Codes(list.Contents(), run))
  {
    ghost var codes := Codes(list.Contents(), run);
    exitCode := 0;
    for i := 0 to list.length
      invariant exitCode == LastFailure(codes[..i])
    {
      var code := run(CommandLine(list.items[i]));
      LastFailureStep(codes, i);
      if code != 0 {
        exitCode := code;
      }
    }
    assert codes[..list.length] == codes;
  }

  /** Some argument, the program name included, is longer than `PATH_MAX`. */
  predicate TooLong(argv: seq<string>) {
    exists i :: 0 <= i < |argv| && |argv[i]| > PathMax
  }

  /** The arguments `main` walks: all but the program name, or "." when
      there are none. */
  function Targets(argv: seq<string>): seq<string> {
    if |argv| == 0 then [] else if |argv| == 1 then ["."] else argv[1..]
  }

  /** What `main` returns: 1 for an over-long argument or a full batch
      list, otherwise the last non-zero batch result, or 0. */
  function Outcome(argv: seq<string>, fs: set<Path>, dirs: set<Path>, realpath: string -> Option<Path>, run: string -> int): int {
    if TooLong(argv) then 1
    else
      match WalkAll(Some([]), fs, dirs, realpath, Targets(argv))
      case None => 1
      case Some(bs) => LastFailure(Codes(bs, run))
  }

  /** `main` returns 0 exactly when no argument is too long, no walk exits
      and every batch's command returns 0. */
  lemma OutcomeZeroIff(argv: seq<string>, fs: set<Path>, dirs: set<Path>, realpath: string -> Option<Path>, run: string -> int)
    ensures Outcome(argv, fs, dirs, realpath, run) == 0
        <==> !TooLong(argv) && WalkAll(Some([]), fs, dirs, realpath, Targets(argv)).Some?
             && var bs := WalkAll(Some([]), fs, dirs, realpath, Targets(argv)).value;
                forall i :: 0 <= i < |bs| ==> run(CommandLine(bs[i])) == 0
  {
    if !TooLong(argv) && WalkAll(Some([]), fs, dirs, realpath, Targets(argv)).Some? {
      var bs := WalkAll(Some([]), fs, dirs, realpath, Targets(argv)).value;
      var codes := Codes(bs, run);
      assert forall i :: 0 <= i < |bs| ==> codes[i] == run(CommandLine(bs[i]));
    }
  }

  /** The walking part of `main` over its targets, stopping when a walk
      exits. */
  method WalkTargets(fs: set<Path>, dirs: set<Path>, realpath: string -> Option<Path>, targets: seq<string>)
      returns (list: FileBatchList, ok: bool)
    ensures fresh(list) && list.Valid()
    ensures ok <==> WalkAll(Some([]), fs, dirs, realpath, targets).Some?
    ensures ok ==> WalkAll(Some([]), fs, dirs, realpath, targets) == Some(list.Contents())
  {
    list := new FileBatchList();
    for i := 0 to |targets|
      invariant fresh(list) && fresh(list.items) && list.Valid()
      invariant WalkAll(Some(list.Contents()), fs, dirs, realpath, targets[i..]) == WalkAll(Some([]), fs, dirs, realpath, targets)
    {
      ghost var before := list.Contents();
      ok := WalkPath(list, fs, dirs, realpath, targets[i]);
      assert targets[i..][1..] == targets[i + 1..];
      if !ok {
        assert WalkAll(Some(before), fs, dirs, realpath, targets[i..]) == WalkAll(None, fs, dirs, realpath, targets[i + 1..]);
        return;
      }
    }
    assert targets[|targets|..] == [];
    ok := true;
  }

  /** C's `main`. */
  method Dispatch(argv: seq<string>, fs: set<Path>, dirs: set<Path>, realpath: string -> Option<Path>, run: string -> int)
      returns (exitCode: int)
    ensures exitCode == Outcome(argv, fs, dirs, realpath, run)
  {
    for i := 0 to |argv|
      invariant forall j :: 0 <= j < i ==> |argv[j]| <= PathMax
    {
      if |argv[i]| > PathMax {
        return 1;
      }
    }
    var list, ok := WalkTargets(fs, dirs, realpath, Targets(argv));
    if !ok {
      return 1;
    }
    exitCode := ExitCode(list, run);
  }
}
