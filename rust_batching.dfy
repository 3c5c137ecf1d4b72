/** src/main.rs, part 3: the batch list `add_to_list` fills, `process_file`,
    `should_skip_dir`, and the exit-code fold of `main`. The batches are keyed
    by the whole command; the order in which `HashMap::values` yields them is
    the parameter `order`. Whether a program is installed is the oracle
    `available`, and running it is the oracle `run`. */
module RustBatching {
  import opened Wrappers
  import opened Text
  import opened Paths
  import opened ExitCodes
  import opened RustTemplates
  import opened RustTable
  import opened RustResolve

  /** Rust's `FileBatch`: a command and the files it is run on. */
  datatype FileBatch = FileBatch(program: string, args: seq<string>, files: seq<string>)

  /** A program name and its arguments, as `Command::new(..).args(..)` receives them. */
  type Invocation = (string, seq<string>)

  /** The key `add_to_list` files a command under: the program and the
      arguments, each followed by a NUL except the last. */
  function BatchKey(program: string, args: seq<string>): string {
    program + "\0" + JoinWith(args, "\0")
  }

  predicate NulFree(s: string) {
    forall i :: 0 <= i < |s| ==> s[i] != '\0'
  }

  /** The arguments real commands carry: none is empty or holds a NUL. */
  predicate PlainArgs(args: seq<string>) {
    forall i :: 0 <= i < |args| ==> args[i] != "" && NulFree(args[i])
  }

  /** In `a + "\0" + x` with a NUL-free `a`, the first NUL is at `|a|`. */
  lemma FirstNulAt(a: string, x: string)
    requires NulFree(a)
    ensures (a + "\0" + x)[|a|] == '\0'
    ensures forall i :: 0 <= i < |a| ==> (a + "\0" + x)[i] != '\0'
  {
  }

  lemma SplitAtNul(a: string, x: string, b: string, y: string)
    requires NulFree(a) && NulFree(b)
    requires a + "\0" + x == b + "\0" + y
    ensures a == b && x == y
  {
    var s := a + "\0" + x;
    FirstNulAt(a, x);
    FirstNulAt(b, y);
    assert a == s[..|a|];
    assert b == s[..|b|];
    assert x == s[|a| + 1..];
    assert y == s[|b| + 1..];
  }

  /** A join of plain arguments holds a NUL exactly when it joins two or
      more of them. */
  lemma JoinNul(xs: seq<string>)
    requires PlainArgs(xs)
    ensures NulFree(JoinWith(xs, "\0")) <==> |xs| <= 1
  {
    if |xs| >= 2 {
      FirstNulAt(xs[0], JoinWith(xs[1..], "\0"));
    }
  }

  /** Plain arguments join to the empty string only when there are none. */
  lemma JoinEmpty(xs: seq<string>)
    requires PlainArgs(xs)
    ensures JoinWith(xs, "\0") == "" <==> xs == []
  {
    if xs != [] {
      assert |JoinWith(xs, "\0")| >= |xs[0]|;
    }
  }

  /** Joining plain arguments with NUL loses nothing. */
  lemma {:induction false} JoinInjective(xs: seq<string>, ys: seq<string>)
    requires PlainArgs(xs) && PlainArgs(ys)
    requires JoinWith(xs, "\0") == JoinWith(ys, "\0")
    ensures xs == ys
    decreases |xs|
  {
    JoinEmpty(xs);
    JoinEmpty(ys);
    JoinNul(xs);
    JoinNul(ys);
    if |xs| >= 2 && |ys| >= 2 {
      SplitAtNul(xs[0], JoinWith(xs[1..], "\0"), ys[0], JoinWith(ys[1..], "\0"));
      JoinInjective(xs[1..], ys[1..]);
      assert xs == [xs[0]] + xs[1..];
      assert ys == [ys[0]] + ys[1..];
    }
  }

  /** Commands made of a NUL-free program and plain arguments share a key
      only when they are the same command. */
  lemma BatchKeyInjective(p1: string, a1: seq<string>, p2: string, a2: seq<string>)
    requires NulFree(p1) && NulFree(p2) && PlainArgs(a1) && PlainArgs(a2)
    requires BatchKey(p1, a1) == BatchKey(p2, a2)
    ensures p1 == p2 && a1 == a2
  {
    SplitAtNul(p1, JoinWith(a1, "\0"), p2, JoinWith(a2, "\0"));
    JoinInjective(a1, a2);
  }

  /** Without the plain-argument condition the key is not injective: no
      arguments and one empty argument share a key. */
  lemma BatchKeyCollision(program: string)
    ensures BatchKey(program, []) == BatchKey(program, [""])
  {
  }

  /** Each batch is filed under the key of its own command and holds at
      least one file. */
  ghost predicate WellFormed(m: map<string, FileBatch>) {
    forall k :: k in m ==> k == BatchKey(m[k].program, m[k].args) && m[k].files != []
  }

  /** Every batch's command has a NUL-free program and plain arguments. */
  ghost predicate Plain(m: map<string, FileBatch>) {
    forall k :: k in m ==> NulFree(m[k].program) && PlainArgs(m[k].args)
  }

  /** What one `add_to_list` call makes of the list: the file is appended to
      the batch of its command, which is created when it is new. */
  function Add(m: map<string, FileBatch>, file: string, program: string, args: seq<string>): (r: map<string, FileBatch>)
    ensures WellFormed(m) ==> WellFormed(r)
    ensures r.Keys == m.Keys + {BatchKey(program, args)}
    ensures r[BatchKey(program, args)].files
         == (if BatchKey(program, args) in m then m[BatchKey(program, args)].files else []) + [file]
    ensures forall k :: k in m && k != BatchKey(program, args) ==> r[k] == m[k]
  {
    var key := BatchKey(program, args);
    if key in m then m[key := m[key].(files := m[key].files + [file])]
    else m[key := FileBatch(program, args, [file])]
  }

  /** On plain commands every file is run with exactly the command it was
      added with: a batch's command is never another call's. */
  lemma AddKeepsCommand(m: map<string, FileBatch>, file: string, program: string, args: seq<string>)
    requires WellFormed(m) && Plain(m) && NulFree(program) && PlainArgs(args)
    ensures Plain(Add(m, file, program, args))
    ensures Add(m, file, program, args)[BatchKey(program, args)].program == program
    ensures Add(m, file, program, args)[BatchKey(program, args)].args == args
  {
    var key := BatchKey(program, args);
    if key in m {
      BatchKeyInjective(m[key].program, m[key].args, program, args);
    }
  }

  /** The test at src/main.rs:587-604: two different commands give two
      batches. */
  lemma SeparateBatches()
    ensures |Add(Add(map[], "one.rs", "rustfmt", []), "two.ts", "eslint", ["--fix"])| == 2
  {
    var k1 := BatchKey("rustfmt", []);
    var k2 := BatchKey("eslint", ["--fix"]);
    assert k1[0] == 'r' && k2[0] == 'e';
    var r := Add(Add(map[], "one.rs", "rustfmt", []), "two.ts", "eslint", ["--fix"]);
    assert r.Keys == {k1, k2};
  }

  /** The `HashMap` behind Rust's `FileBatchList`. */
  class FileBatchList {
    var items: map<string, FileBatch>

    constructor ()
      ensures items == map[]
    {
      items := map[];
    }

    /** `add_to_list`: `entry(key).or_insert_with(..)` then a push of the file. */
    method AddToList(file: string, program: string, args: seq<string>)
      modifies this
      ensures items == Add(old(items), file, program, args)
    {
      var key := BatchKey(program, args);
      if key !in items {
        items := items[key := FileBatch(program, args, [])];
      }
      var batch := items[key];
      items := items[key := batch.(files := batch.files + [file])];
    }
  }

  // ---------------------------------------------------------------------
  // What a sequence of `add_to_list` calls builds

  datatype Call = Call(file: string, program: string, args: seq<string>)

  function Accumulate(calls: seq<Call>): map<string, FileBatch>
    decreases |calls|
  {
    if calls == [] then map[]
    else
      var c := calls[|calls| - 1];
      Add(Accumulate(calls[..|calls| - 1]), c.file, c.program, c.args)
  }

  /** The files of the calls whose command has key `k`, in call order. */
  function FilesFor(calls: seq<Call>, k: string): seq<string>
    decreases |calls|
  {
    if calls == [] then []
    else
      var c := calls[|calls| - 1];
      FilesFor(calls[..|calls| - 1], k) + (if BatchKey(c.program, c.args) == k then [c.file] else [])
  }

  /** The key of each call's command. */
  function CallKeys(calls: seq<Call>): (r: seq<string>)
    ensures |r| == |calls| && forall i :: 0 <= i < |calls| ==> r[i] == BatchKey(calls[i].program, calls[i].args)
  {
    seq(|calls|, i requires 0 <= i < |calls| => BatchKey(calls[i].program, calls[i].args))
  }

  lemma {:induction false} AccumulateWellFormed(calls: seq<Call>)
    ensures WellFormed(Accumulate(calls))
    decreases |calls|
  {
    if calls != [] {
      AccumulateWellFormed(calls[..|calls| - 1]);
    }
  }

  /** The batches are the distinct commands of the calls. */
  lemma {:induction false} AccumulateKeys(calls: seq<Call>)
    ensures Accumulate(calls).Keys == set k | k in CallKeys(calls)
    decreases |calls|
  {
    if calls != [] {
      var n := |calls| - 1;
      var init, c := calls[..n], calls[n];
      AccumulateKeys(init);
      CallKeysStep(calls);
      var key := BatchKey(c.program, c.args);
      assert Accumulate(calls).Keys == Accumulate(init).Keys + {key};
      assert (set k | k in CallKeys(calls)) == (set k | k in CallKeys(init)) + {key};
    }
  }

  lemma CallKeysStep(calls: seq<Call>)
    requires calls != []
    ensures var c := calls[|calls| - 1];
      CallKeys(calls) == CallKeys(calls[..|calls| - 1]) + [BatchKey(c.program, c.args)]
  {
  }

  lemma {:induction false} FilesForAbsent(calls: seq<Call>, k: string)
    requires k !in Accumulate(calls)
    ensures FilesFor(calls, k) == []
    decreases |calls|
  {
    if calls != [] {
      FilesForAbsent(calls[..|calls| - 1], k);
    }
  }

  /** Calls with the same command land in one batch, with their files in
      call order. */
  lemma {:induction false} AccumulateFiles(calls: seq<Call>, k: string)
    requires k in Accumulate(calls)
    ensures Accumulate(calls)[k].files == FilesFor(calls, k)
    decreases |calls|
  {
    var n := |calls| - 1;
    var init := calls[..n];
    if k in Accumulate(init) {
      AccumulateFiles(init, k);
    } else {
      FilesForAbsent(init, k);
    }
  }

  // ---------------------------------------------------------------------
  // process_file

  /** The command `process_file` builds for an existing file of language
      `i`: the tool `pick_tool_for_file` picks, its resolved executable and
      its template. */
  function CommandFor(fs: set<Path>, which: map<string, string>, p: Path, i: nat): (r: Option<(string, seq<string>)>)
    requires i < |Languages|
    ensures r.Some?
  {
    var lang := Languages[i];
    EveryLanguageHasATool(i);
    var pick := PickTool(fs, p, lang.tools);
    var tool := lang.tools[pick.0];
    ShippedToolsBuild(i, pick.0, ResolveExecutable(VendorFor(fs, p, lang.name, tool.executable), which, lang, tool), pick.1);
    BuildCommand(ResolveExecutable(VendorFor(fs, p, lang.name, tool.executable), which, lang, tool), tool, pick.1)
  }

  /** What `process_file` does to the list: a file that does not exist or
      has no language is skipped, and so is one whose command cannot be
      built; otherwise the file is added under its command. */
  function ProcessStep(m: map<string, FileBatch>, fs: set<Path>, which: map<string, string>, p: Path): map<string, FileBatch> {
    if p !in fs then m
    else
      match GetLanguageForFile(p)
      case None => m
      case Some(i) =>
        match CommandFor(fs, which, p, i)
        case None => m
        case Some((program, args)) => Add(m, Render(p), program, args)
  }

  /** The middle of `process_file`: pick the tool, resolve its executable
      and build its command. */
  method ResolveCommand(fs: set<Path>, which: map<string, string>, p: Path, i: nat) returns (command: Option<(string, seq<string>)>)
    requires i < |Languages|
    ensures command == CommandFor(fs, which, p, i)
  {
    var lang := Languages[i];
    EveryLanguageHasATool(i);
    var k, configPath := PickToolForFile(fs, p, lang.tools);
    var tool := lang.tools[k];
    var vendor := TestVendor(fs, p, lang.name, tool.executable);
    var executable := ResolveExecutable(vendor, which, lang, tool);
    command := BuildCommand(executable, tool, configPath);
  }

  /** Rust's `process_file` for an absolute path. */
  method ProcessFile(list: FileBatchList, fs: set<Path>, which: map<string, string>, p: Path)
    modifies list
    ensures list.items == ProcessStep(old(list.items), fs, which, p)
  {
    if p !in fs {
      return;
    }
    var found := GetLanguageForFile(p);
    if found.None? {
      return;
    }
    var command := ResolveCommand(fs, which, p, found.value);
    if command.None? {
      return;
    }
    var (program, args) := command.value;
    list.AddToList(Render(p), program, args);
  }

  /** The list after processing `files` in order. */
  function ProcessAll(m: map<string, FileBatch>, fs: set<Path>, which: map<string, string>, files: seq<Path>): (r: map<string, FileBatch>)
    ensures WellFormed(m) ==> WellFormed(r)
    decreases |files|
  {
    if files == [] then m
    else ProcessAll(ProcessStep(m, fs, which, files[0]), fs, which, files[1..])
  }

  /** Every file of a shipped language yields a command, so an existing,
      classified file always enters a batch, as the last file of it. */
  lemma {:induction false} ClassifiedFileBatched(m: map<string, FileBatch>, fs: set<Path>, which: map<string, string>, p: Path)
    requires p in fs && GetLanguageForFile(p).Some?
    ensures exists k :: k in ProcessStep(m, fs, which, p) && var f := ProcessStep(m, fs, which, p)[k].files;
              f != [] && f[|f| - 1] == Render(p)
  {
    var i := GetLanguageForFile(p).value;
    EveryLanguageHasATool(i);
    var lang := Languages[i];
    var pick := PickTool(fs, p, lang.tools);
    var tool := lang.tools[pick.0];
    var exec := ResolveExecutable(VendorFor(fs, p, lang.name, tool.executable), which, lang, tool);
    ShippedToolsBuild(i, pick.0, exec, pick.1);
    var (program, args) := CommandFor(fs, which, p, i).value;
    var k := BatchKey(program, args);
    assert k in ProcessStep(m, fs, which, p);
  }

  /** A file without a language never enters a batch. */
  lemma {:induction false} UnclassifiedSkipped(m: map<string, FileBatch>, fs: set<Path>, which: map<string, string>, p: Path)
    requires GetLanguageForFile(p).None?
    ensures ProcessStep(m, fs, which, p) == m
  {
  }

  /** The walking part of `main` over the files the directory walk yields,
      in the order it yields them. */
  method ProcessFiles(fs: set<Path>, which: map<string, string>, files: seq<Path>) returns (list: FileBatchList)
    ensures fresh(list)
    ensures list.items == ProcessAll(map[], fs, which, files)
  {
    list := new FileBatchList();
    for i := 0 to |files|
      invariant fresh(list)
      invariant ProcessAll(list.items, fs, which, files[i..]) == ProcessAll(map[], fs, which, files)
    {
      ProcessFile(list, fs, which, files[i]);
      assert files[i..][1..] == files[i + 1..];
    }
    assert files[|files|..] == [];
  }

  // ---------------------------------------------------------------------
  // should_skip_dir

  /** The directory names `walk_entry` does not descend into. */
  predicate ShouldSkipDir(name: string) {
    name in [".git", "node_modules", "target", "vendor", ".venv", "venv"]
  }

  /** The walk never descends into the root of a project-local bin
      directory, so vendored tools are never linted themselves. */
  lemma VendorRootsSkipped(langName: string)
    requires VendorDir(langName).Some?
    ensures |VendorDir(langName).value| == 2 && ShouldSkipDir(VendorDir(langName).value[0])
    ensures !ShouldSkipDir(VendorDir(langName).value[1])
  {
  }

  // ---------------------------------------------------------------------
  // run_linter and the exit code of `main`

  /** `run_linter`: 1 when the program is not available, otherwise the code
      of running it with its arguments followed by the batch's files. */
  function RunLinter(available: string -> bool, run: Invocation -> int, b: FileBatch): (code: int)
    ensures !available(b.program) ==> code == 1
    ensures available(b.program) ==> code == run((b.program, b.args + b.files))
  {
    if !available(b.program) then 1 else run((b.program, b.args + b.files))
  }

  /** `order` enumerates the keys of `m`, each once. */
  predicate IsOrder(order: seq<string>, m: map<string, FileBatch>) {
    (forall i, j :: 0 <= i < j < |order| ==> order[i] != order[j])
    && (forall k :: k in m ==> k in order)
    && (forall i :: 0 <= i < |order| ==> order[i] in m)
  }

  /** The codes every batch would give, in `order`. */
  function Codes(m: map<string, FileBatch>, order: seq<string>, available: string -> bool, run: Invocation -> int): (r: seq<int>)
    requires IsOrder(order, m)
    ensures |r| == |order|
    ensures forall i :: 0 <= i < |order| ==> r[i] == RunLinter(available, run, m[order[i]])
  {
    seq(|order|, i requires 0 <= i < |order| => RunLinter(available, run, m[order[i]]))
  }

  /** `ExitCode::from(code as u8)`: the low eight bits of the code. */
  function ExitByte(c: int): (b: int)
    ensures 0 <= b < 256
    ensures 0 <= c < 256 ==> b == c
  {
    c % 256
  }

  /** The fold at the end of `main`: batches run in `order` until one fails;
      that code, truncated to a byte, is the result, and `ran` batches were
      run. */
  method ExitCode(list: FileBatchList, order: seq<string>, available: string -> bool, run: Invocation -> int)
      returns (code: int, ran: nat)
    requires IsOrder(order, list.items)
    ensures code == ExitByte(FirstFailure(Codes(list.items, order, available, run)))
    ensures ran == RunCount(Codes(list.items, order, available, run))
  {
    ghost var codes := Codes(list.items, order, available, run);
    var i := 0;
    while i < |order|
      invariant i <= |order|
      invariant FirstFailure(codes[i..]) == FirstFailure(codes)
      invariant RunCount(codes) == i + RunCount(codes[i..])
    {
      var c := RunLinter(available, run, list.items[order[i]]);
      assert codes[i..][0] == c;
      if c != 0 {
        return ExitByte(c), i + 1;
      }
      assert codes[i..][1..] == codes[i + 1..];
      i := i + 1;
    }
    assert codes[i..] == [];
    return 0, |order|;
  }

  /** With codes a process can report (0 to 255), `main` succeeds exactly
      when every batch it looks at succeeds, and that is every batch. */
  lemma ExitZeroIff(codes: seq<int>)
    requires forall i :: 0 <= i < |codes| ==> 0 <= codes[i] < 256
    ensures ExitByte(FirstFailure(codes)) == 0 <==> forall i :: 0 <= i < |codes| ==> codes[i] == 0
  {
    var f := FirstFailure(codes);
    if f != 0 {
      var k :| 0 <= k < |codes| && codes[k] == f;
    }
  }

  /** A code of 256 would be reported as success. */
  lemma TruncationMasks256()
    ensures FirstFailure([256]) == 256 && ExitByte(FirstFailure([256])) == 0
  {
  }

  /** Batches after the first failing one do not run, so their codes do not
      matter. */
  lemma LaterBatchesIrrelevant(m: map<string, FileBatch>, order: seq<string>, available: string -> bool,
                               run: Invocation -> int, run2: Invocation -> int)
    requires IsOrder(order, m)
    requires forall i :: 0 <= i < RunCount(Codes(m, order, available, run)) ==>
               RunLinter(available, run2, m[order[i]]) == RunLinter(available, run, m[order[i]])
    ensures FirstFailure(Codes(m, order, available, run2)) == FirstFailure(Codes(m, order, available, run))
  {
    var c1 := Codes(m, order, available, run);
    var c2 := Codes(m, order, available, run2);
    var n := RunCount(c1);
    assert c2[..n] == c1[..n];
    FirstFailureIgnoresLater(c1, c2);
  }

  /** The unspecified `HashMap` order decides which failure is reported:
      two failing batches give different results in the two orders. */
  lemma OrderDecides(m: map<string, FileBatch>, k1: string, k2: string, available: string -> bool, run: Invocation -> int)
    requires k1 != k2 && m.Keys == {k1, k2}
    requires 0 < RunLinter(available, run, m[k1]) < 256 && 0 < RunLinter(available, run, m[k2]) < 256
    requires RunLinter(available, run, m[k1]) != RunLinter(available, run, m[k2])
    ensures IsOrder([k1, k2], m) && IsOrder([k2, k1], m)
    ensures ExitByte(FirstFailure(Codes(m, [k1, k2], available, run)))
         != ExitByte(FirstFailure(Codes(m, [k2, k1], available, run)))
  {
    var c := Codes(m, [k1, k2], available, run);
    var d := Codes(m, [k2, k1], available, run);
    assert FirstFailure(c) == c[0];
    assert FirstFailure(d) == d[0];
  }

  /** Rust's `main` after argument parsing, over the files the walk yields:
      process each file, then run the batches until one fails. */
  method Dispatch(fs: set<Path>, which: map<string, string>, files: seq<Path>, order: seq<string>,
                  available: string -> bool, run: Invocation -> int) returns (code: int, ran: nat)
    requires IsOrder(order, ProcessAll(map[], fs, which, files))
    ensures code == ExitByte(FirstFailure(Codes(ProcessAll(map[], fs, which, files), order, available, run)))
    ensures ran == RunCount(Codes(ProcessAll(map[], fs, which, files), order, available, run))
  {
    var list := ProcessFiles(fs, which, files);
    code, ran := ExitCode(list, order, available, run);
  }
}
