# Lint/format dispatcher: resolution and batching, in Dafny

This project models the resolution-and-batching engine of a lint/format
dispatcher. The repository has three versions of it, and each is modelled
file by file, never merged:

- `main.go`, the Go program;
- `src/main.rs`, the Rust program;
- `main.c`, the older PHP-only C program.

For every path it is given, each version:

1. classifies the file into an entry of a static table;
2. walks the ancestor directories for a configuration file;
3. resolves an executable (project-local bin directory, then `PATH`, then a
   default);
4. builds the command line from a per-tool template or format string;
5. adds the file to a batch.

The version decides the batch key: the configuration path in Go and C, the
whole command in Rust. Once every file is batched, each batch is run and the
exit codes are folded into one.

## Common model

- **Paths** (`Paths`) are sequences of components below the root, so `[]`
  is `/`. `Dir` drops the last component. `Ancestors(d)` lists `d` and its
  parents, nearest first, and leaves out the root. The root is never
  probed, because every version stops there.
- **The filesystem** is a set of existing paths, `fs`. The C version adds a
  set of directories, `dirs`, for `S_ISDIR`, and a `realpath` oracle.
- **`PATH` lookup** (`exec.LookPath`, `which::which`) is a map from names to
  paths.
- **Running a batch** is an oracle from the invocation to its exit code.
  Rust also has an oracle for `is_executable_available`.
- **Strings** are `seq<char>`. `Text` holds the string helpers the sources
  rely on:
  - `strings.Fields` and `strings.Join`;
  - `str::replace`;
  - `strstr`;
  - ASCII lower-casing.
- **Exit-code rules** (`ExitCodes`):
  - `LastFailure` is the Go and C rule;
  - `FirstFailure` and `RunCount` are the Rust rule, which stops at the first
    failure.

## Each version in the model

**Go** (`GoBuilders`, `GoTable`, `GoResolve`, `GoBatching`)

- The 17 `build*Cmd` formatters are a `Builder` datatype. `Argv` gives the
  words a builder produces, and `BuildCommand` joins them with spaces.
- `init` is the method `Init`, proved to build `ExtensionIndex`.
- `findInParentDirs`, the closures of `testConfig` and `testVendor`, and the
  `LookPath` loop are each a method with a loop. Each is proved against a
  specification function.
- `fileBatchList` is a class holding a `map` and a `seq`. Its result is
  `Add`, folded over the calls.
- `runLinter` formats `executable config files` (`CommandLineAsWritten`),
  and `ExitCode` and `Dispatch` run that command line as written.
  `CommandLineIntended` is the corrected command line, kept beside it for
  the finding below.
- `main` is the method `Dispatch`.

**Rust** (`RustTemplates`, `RustTable`, `RustResolve`, `RustBatching`)

- `CommandTemplate::build` is `Build`, which performs the two `replace`
  calls in sequence.
- The table, the extension and name normalisation, `pick_tool_for_file`
  and `build_command` are modelled directly.
- The `FileBatchList` `HashMap` is a class with a `map<string, FileBatch>`
  field.
- The iteration order of the map is a parameter, `order`, that lists each
  key once.

**C** (`CResolve`, `CBatching`)

- `test_config` and `test_vendor` write into a buffer. They are methods that
  return the new buffer contents and leave it unchanged when nothing is
  found.
- The ancestor loop of `walk_path` is `WalkUpAsWritten` (the method
  `WalkLoop` is proved to compute it), and the default fallbacks are
  `DefaultsAsWritten`. `argv_path`, which `dirname` has overwritten for a
  file argument, is `BatchedPathAsWritten`. `Resolve`, `WalkStep`,
  `WalkPath`, `WalkAll`, `Outcome`, `WalkTargets` and `Dispatch` are built
  from these, so they describe `main.c` as written.
- The corrected loop, fallback and path are `WalkUpIntended`,
  `DefaultsIntended` and `BatchedPathIntended`, composed in
  `ResolveIntended` and `WalkStepIntended`. Only the findings below use
  them.
- `file_batch_list` is a class with a fixed `array` of 100 batches and a
  `length` counter.

**Across versions** (`CrossVersion`)

- The tools that Go and Rust both ship build the same words.
- The two versions differ in configuration precedence, in the treatment of
  `Dockerfile`, and in the exit-code rule.

In two places the Go code behaves differently from what its declarations
suggest; the model follows the code:

- the `defaultCmd` field is declared and filled for every entry
  (main.go:18, 29-142) but never read, so an executable that is not found
  stays empty;
- in `init`, a later entry would overwrite an earlier one for a shared
  extension. The shipped table has no shared extension (`TableExtensionsDisjoint`).

## Model

| member | source | states |
|---|---|---|
| Paths.Ancestors | main.go:295-311 | the directories an upward search visits: the start directory and each parent, nearest first, the root excluded |
| Paths.FirstExisting | main.go:348-353 | the first candidate name, in declared order, that exists in a directory; none exactly when no candidate exists |
| Paths.Nearest | main.go:342-356 | the nearest directory that has some candidate wins; none exactly when no directory has one |
| Paths.NearerDirectoryWins | main.go:342-356 | a candidate in directory `j` means the result comes from directory `j` or a nearer one, whatever the name's priority |
| Paths.RenderChild | main.c:38 | joining a non-root directory and a name with a slash renders the child path |
| ExitCodes.LastFailure | main.go:452-459 | the last non-zero code; 0 exactly when every code is 0 |
| ExitCodes.FirstFailure | src/main.rs:563-567 | the first non-zero code; 0 exactly when every code is 0 |
| ExitCodes.RunCount | src/main.rs:563-567 | a lazy search looks at every code up to and including the first failure, and at all of them when none fails |
| ExitCodes.FirstFailureIgnoresLater | src/main.rs:563-567 | codes after the first failure do not change the result |
| GoBuilders.Argv | main.go:163-277 | every command starts with the launcher and then the executable; a non-empty configuration path ends the last word (every builder but cargo clippy) |
| GoBuilders.ConfigFlagIff | main.go:163-277 | a builder's words change exactly when the configuration path is non-empty (cargo clippy ignores it) |
| GoBuilders.BuilderWordsAreFields | main.go:163-277 | for a space-free executable and configuration, each word of a command is non-empty and space-free |
| GoBuilders.ParseBuiltCommand | main.go:163-277 | splitting a built command on white space gives back exactly its words |
| GoBuilders.PrettierCommands | main.go:163-168 | prettier gives `exec --write --config c` with a configuration and `exec --write` without |
| GoBuilders.PhpcbfCommandWithConfig | main.go:237-242 | phpcbf runs through `php -dmemory_limit=-1` with `--standard=<config>` |
| GoBuilders.PhpcbfCommandDefault | main.go:237-242 | without a configuration, phpcbf falls back to `--standard=PSR12` |
| GoTable.TableExtensionsDisjoint | main.go:23-145 | no extension is listed by two entries of the shipped table |
| GoTable.ExtensionIndex | main.go:147-155 | a string is a key exactly when some entry lists it, and it maps to the last entry that lists it |
| GoTable.IndexUpToSpec | main.go:149-155 | after the first `n` entries, the keys are exactly their extensions, each mapped to the last of those entries that lists it |
| GoTable.Init | main.go:149-155 | the loop over entries and extensions builds that index |
| GoTable.ShippedIndex | main.go:147-155 | in the shipped table, each listed extension maps to the entry that lists it |
| GoTable.Unlisted | main.go:147-155 | a string that no entry lists is not a key |
| GoTable.ExtOf | main.go:285 | `filepath.Ext` is empty exactly when the name has no dot; otherwise it is the dot-free suffix from the last dot |
| GoTable.GetLanguageForFile | main.go:284-293 | no language exactly when neither the extension nor its lower-case form is a key; the extension as written wins over its lower-case form |
| GoTable.ShippedClassification | main.go:284-293 | a file is classified as entry `i` exactly when its extension, or failing that its lower-case form, is listed by `i` |
| GoTable.DockerfileNeverMatches | main.go:284-293 | no path is ever classified as the dockerfile entry |
| GoTable.UpperCaseExtensionExample | main.go:289-291 | `app.PY` is python through the lower-case fallback |
| GoTable.DockerfileExample | main.go:284-293 | a file named `Dockerfile` gets no language |
| GoResolve.FirstNonEmpty | main.go:295-311 | the first non-empty test result in order; "" exactly when every test gives "" |
| GoResolve.FindInParentDirs | main.go:295-311 | the loop returns the first non-empty test result over the ancestors of the path's directory, nearest first, never testing the root |
| GoResolve.ProbeConfig | main.go:347-355 | the closure returns the first existing configuration file of the directory, in list order, or "" |
| GoResolve.SearchUpIsNearest | main.go:342-356 | a search driven by such a probe returns the nearest directory's first existing name |
| GoResolve.TestConfig | main.go:342-356 | "" without a language; otherwise the nearest configuration file |
| GoResolve.ProbeVendor | main.go:318-339 | the closure returns the first existing executable under `node_modules/.bin` (javascript, typescript) or `vendor/bin` (php), and "" for other languages |
| GoResolve.TestVendor | main.go:313-340 | "" without a language; otherwise the nearest project-local executable |
| GoResolve.FirstOnPath | main.go:426-433 | the `PATH` result of the first executable name that lookup finds; "" when it finds none |
| GoResolve.LookPathFirst | main.go:426-433 | the loop stops at the first name that `LookPath` finds |
| GoResolve.ResolveExecutable | main.go:424-433 | the vendor result if any, else the first name found on `PATH`, else ""; `defaultCmd` plays no part |
| GoBatching.Add | main.go:389-404 | adding a file keeps the list well formed, appends the file to its configuration's batch, and leaves every other batch unchanged |
| GoBatching.FileBatchList.constructor | main.go:442 | a new list has no batches and no keys |
| GoBatching.FileBatchList.AddToList | main.go:389-404 | the list's new state is that of `Add` on the old state |
| GoBatching.AccumulateWellFormed | main.go:389-404 | any sequence of calls leaves each key once in `keys`, and exactly the keys of `items` |
| GoBatching.AccumulateKeys | main.go:389-404 | `keys` holds the distinct configurations in first-seen order |
| GoBatching.AccumulateFiles | main.go:393-395 | each batch holds exactly the files given with its configuration, in call order |
| GoBatching.AccumulateCommand | main.go:393-402 | a batch's command is the one given with the first file of its configuration; later commands are dropped |
| GoBatching.FilesForAbsent | main.go:389-404 | a configuration never given has no files |
| GoBatching.EmptyConfigMerges | main.go:393-395 | two files with no configuration share one batch under the first file's command, even for different languages |
| GoBatching.WalkPath | main.go:406-437 | the list's new state is one walk step: a missing or unclassified file is skipped, any other is added under its resolved configuration and command |
| GoBatching.WalkAll | main.go:444-450 | walking any targets keeps the list well formed |
| GoBatching.UnclassifiedSkipped | main.go:418-421 | a file without a language leaves the list unchanged |
| GoBatching.ClassifiedFileBatched | main.go:406-437 | an existing file with a language ends the files of the batch of the configuration resolved for it |
| GoBatching.ParseCommand | main.go:358-364 | the first field is the program and the rest are the arguments; no fields give `("", [])` |
| GoBatching.ParseJoined | main.go:358-364 | words joined with spaces parse back into the first word and the rest |
| GoBatching.ConfigPassedTwice | main.go:366-373 | as written, the configuration path is passed once after its flag and once more as an argument before the files |
| GoBatching.CommandLineWords | main.go:366-373 | the corrected command line passes the builder's words, then the files |
| GoBatching.UnconfiguredCommandLine | main.go:366-373 | as written, a batch without a configuration passes the builder's words, then the files: the empty field disappears |
| GoBatching.ExitCode | main.go:452-459 | every batch runs, in `keys` order, as the fields of `executable config files`, and the exit code is the last non-zero code, or 0 |
| GoBatching.WalkTargets | main.go:440-450 | the list after walking the arguments in order, or the current directory when there are none |
| GoBatching.Batched | main.go:440-450 | the list `main` builds is well formed |
| GoBatching.Dispatch | main.go:439-462 | `main` exits with the last non-zero code of the batches it built, each run as `executable config files`, or 0 |
| RustTemplates.Build | src/main.rs:23-40 | the result has as many parts as the template selected by whether a configuration is given |
| RustTemplates.BuildFill | src/main.rs:30-38 | for an executable without braces, each part of a well-shaped template is substituted |
| RustTemplates.SubstituteShaped | src/main.rs:32-37 | the two sequential `replace` calls fill `{exec}` and `{config}` in a well-shaped part |
| RustTemplates.ExecPlaceholderInPath | src/main.rs:33-35 | an executable path that contains `{config}` has it replaced by the configuration path, because the second `replace` sees the first one's output |
| RustTemplates.BuildPrettier | src/main.rs:43-46 | the prettier template gives `[e, --write, --config, c]` or `[e, --write]` |
| RustTemplates.BuildEslint | src/main.rs:48-51 | the eslint template gives `[e, --fix, --config, c]` or `[e, --fix]` |
| RustTemplates.BuildSimpleConfig | src/main.rs:53-54 | the simple template gives `[e, --config, c]` or `[e]` |
| RustTemplates.BuildRcfile | src/main.rs:56-57 | the rcfile template gives `[e, --rcfile, c]` or `[e]` |
| RustTemplates.BuildGofmt | src/main.rs:59-62 | the gofmt template gives `[e, -w, -config, c]` or `[e, -s, -w]` |
| RustTemplates.BuildRustfmt | src/main.rs:64-65 | the rustfmt template gives `[e, --config-path, c]` or `[e]` |
| RustTemplates.BuildClangFormat | src/main.rs:67-68 | the clang-format template gives `[e, -style=file:c]` or `[e]` |
| RustTemplates.BuildPhpcbf | src/main.rs:70-73 | the phpcbf template runs through `php -dmemory_limit=-1` with `--standard=c`, or `--standard=PSR12` |
| RustTemplates.BuildSqlfluff | src/main.rs:75-85 | the sqlfluff template gives `format --dialect ansi`, plus `--config c` with a configuration |
| RustTable.EveryLanguageHasATool | src/main.rs:250-291 | every entry of the table has at least one tool |
| RustTable.Extension | src/main.rs:294-296 | `Path::extension`: the text after the last dot that is not the first character |
| RustTable.TrimDotsSpec | src/main.rs:298 | `trim_start_matches('.')` removes exactly the leading dots |
| RustTable.ListsKeyIff | src/main.rs:301-303 | an entry matches exactly when one of its extensions normalises to the key |
| RustTable.FindLanguage | src/main.rs:300-304 | the first matching entry wins; none exactly when no entry matches |
| RustTable.NormalizeNormalForm | src/main.rs:298 | trimming leading dots and lower-casing leaves no leading dot and no upper-case letter |
| RustTable.LookupKeyNormalized | src/main.rs:294-298 | every path but the root has a key, and the key has no leading dot and no upper-case letter |
| RustTable.GetLanguageForFile | src/main.rs:293-305 | the first entry of the table that lists the path's key; none for the root or when no entry lists it |
| RustTable.DockerfileByName | src/main.rs:606-612 | any file named `Dockerfile` is classified as the dockerfile entry by its name |
| RustTable.PythonByNameOrExtension | src/main.rs:293-305 | `py`, `.py` and `app.PY` are all python: name fallback, leading dots stripped, case folded |
| RustResolve.FirstSome | src/main.rs:307-329 | the first present test result in order; none exactly when every test gives none |
| RustResolve.FindInParentDirs | src/main.rs:307-329 | the loop returns the first present result over the ancestors of the path's directory, nearest first, never testing the root |
| RustResolve.SearchIsNearest | src/main.rs:353-361 | a search driven by a first-existing probe returns the nearest directory's first existing name |
| RustResolve.TestConfigForTool | src/main.rs:353-361 | the method's result is the nearest configuration file of the tool |
| RustResolve.TestVendor | src/main.rs:331-351 | the method's result is the nearest project-local copy of the executable under the language's bin directory, and none for languages without one |
| RustResolve.ResolveExecutable | src/main.rs:363-371 | the vendor path, else the `which` result, else the language's default executable |
| RustResolve.FirstPresent | src/main.rs:374-378 | the first tool, from position `n`, that has a configuration |
| RustResolve.PickTool | src/main.rs:373-380 | a configuration found belongs to the chosen tool and no earlier tool has one; with none, the first tool is used with no configuration |
| RustResolve.PickToolForFile | src/main.rs:373-380 | the loop with early return computes `PickTool` |
| RustResolve.BuildCommand | src/main.rs:382-396 | none exactly when the template builds nothing; otherwise the first word is the program and the rest are the arguments |
| RustResolve.EslintDefaultCommand | src/main.rs:577-585 | eslint without a configuration gives `("eslint", ["--fix"])` |
| RustResolve.ShippedToolsBuild | src/main.rs:127-197 | every shipped tool builds a command, so the error branch of `build_command` is never taken |
| RustResolve.ToolPriorityBeatsNearness | src/main.rs:373-380 | with `/p/.flake8` and `/p/src/.pylintrc`, a file in `/p/src` gets black with the farther `.flake8`, not pylint with the nearer file |
| RustBatching.BatchKeyInjective | src/main.rs:434-435 | for NUL-free program and non-empty NUL-free arguments, equal keys mean equal program and arguments |
| RustBatching.BatchKeyCollision | src/main.rs:434-435 | no arguments and one empty argument give the same key |
| RustBatching.Add | src/main.rs:434-445 | the key set gains the call's key, the file is appended to that batch and every other batch is unchanged |
| RustBatching.AddKeepsCommand | src/main.rs:437-442 | the batch under a key holds exactly the program and arguments of that key |
| RustBatching.SeparateBatches | src/main.rs:587-604 | `rustfmt` and `eslint --fix` give two batches |
| RustBatching.FileBatchList.constructor | src/main.rs:553 | a new list is empty |
| RustBatching.FileBatchList.AddToList | src/main.rs:434-445 | the list's new contents are those of `Add` |
| RustBatching.AccumulateWellFormed | src/main.rs:434-445 | any sequence of calls files each batch under the key of its own command |
| RustBatching.AccumulateKeys | src/main.rs:434-445 | the keys are exactly the keys of the calls |
| RustBatching.AccumulateFiles | src/main.rs:434-445 | each batch holds the files of the calls with its key, in call order |
| RustBatching.FilesForAbsent | src/main.rs:434-445 | a key that is no batch has no files |
| RustBatching.ResolveCommand | src/main.rs:461-463 | the method computes the picked tool's command from the resolved executable and configuration |
| RustBatching.CommandFor | src/main.rs:464-471 | for every existing file of a shipped language, the picked tool's command can be built, so the error branch is never taken |
| RustBatching.ProcessFile | src/main.rs:447-478 | the list's new contents are one processing step: a missing or unclassified file is skipped |
| RustBatching.ProcessAll | src/main.rs:447-478 | processing files keeps the list well formed |
| RustBatching.ClassifiedFileBatched | src/main.rs:447-478 | an existing classified file ends the file list of some batch |
| RustBatching.UnclassifiedSkipped | src/main.rs:457-459 | a file without a language leaves the list unchanged |
| RustBatching.ProcessFiles | src/main.rs:551-561 | processing the files in order builds `ProcessAll` from an empty list |
| RustBatching.VendorRootsSkipped | src/main.rs:480-485 | the walk skips `node_modules` and `vendor`, which hold the project-local bin directories |
| RustBatching.RunLinter | src/main.rs:408-432 | code 1 when the program is not available; otherwise the code of running the program with the arguments, then the files |
| RustBatching.ExitByte | src/main.rs:569 | the code is truncated to a byte, and a code below 256 is kept |
| RustBatching.ExitCode | src/main.rs:563-569 | the result is the first non-zero code in the given order, truncated to a byte; exactly the batches up to that failure run |
| RustBatching.ExitZeroIff | src/main.rs:563-569 | for byte-sized codes, the exit code is 0 exactly when every batch succeeds |
| RustBatching.TruncationMasks256 | src/main.rs:569 | a batch code of 256 becomes exit code 0 |
| RustBatching.LaterBatchesIrrelevant | src/main.rs:563-567 | batches after the first failure do not change the result |
| RustBatching.OrderDecides | src/main.rs:563-567 | with two failing batches, the two map orders give different exit codes |
| RustBatching.Dispatch | src/main.rs:551-570 | `main` returns the first failure of the batches it built, truncated to a byte, and runs exactly the batches up to it |
| CResolve.SlashJoin | main.c:38 | `"%s/%s"` of a non-root directory and a name renders the child path |
| CResolve.FoundName | main.c:37-43 | the first readable name of the list, in order |
| CResolve.ConfigFlag | main.c:33-54 | some `phpcs` name readable means a `--standard=` flag; none exactly when no name of either list is readable |
| CResolve.TestConfig | main.c:33-54 | the buffer receives the flag for the first readable name, `phpcs` names before `php-cs-fixer` names; it is untouched when none is readable |
| CResolve.VendorCommand | main.c:56-71 | a command exactly when a vendored phpcbf or php-cs-fixer is readable; phpcbf is preferred |
| CResolve.TestVendor | main.c:56-71 | the buffer receives the vendored command, and is untouched when none is found |
| CResolve.Probe | main.c:142-147 | a filled buffer is never overwritten; an empty one gets the directory's result |
| CResolve.WalkUpAsWritten | main.c:138-159 | the loop as written: a found configuration or executable is never overwritten |
| CResolve.WalkUpIntended | main.c:138-159 | the corrected walk, which stops once both are found, never overwrites a found configuration or executable |
| CResolve.AsWrittenAgreesOnceFilled | main.c:138-159 | once one buffer is filled, the loop as written gives what the corrected walk gives |
| CResolve.AsWrittenSearch | main.c:138-159 | from empty buffers, the loop as written gives nothing when the start directory holds neither file, and otherwise what the corrected walk gives |
| CResolve.Reachable | main.c:137-158 | the directories the walk can visit: existing, below the root, each the parent of the one before |
| CResolve.FirstOfSpec | main.c:138-159 | the value of the first directory whose probe gives one, or "" |
| CResolve.WalkUpSearches | main.c:138-159 | the corrected walk fills each empty buffer with the nearest reachable directory's result, independently of the other |
| CResolve.AsWrittenStopsAtFirstMiss | main.c:148-150 | as written, a start directory that holds neither file ends the walk with both buffers empty |
| CResolve.SubdirectoryMissesProjectConfig | main.c:148-150 | for `/p/src` under a project with `/p/phpcs.xml`, the walk as written finds nothing and the corrected walk finds the standard |
| CResolve.WalkLoop | main.c:137-159 | the loop, which breaks at the root or once both buffers are still empty after probing, computes the walk as written |
| CResolve.DefaultsAsWritten | main.c:164-178 | both ends are non-empty; a found value is kept; a missing executable becomes phpcbf or php-cs-fixer, and a missing configuration becomes PSR12 exactly for a phpcbf executable |
| CResolve.DefaultsIntended | main.c:164-178 | the corrected fallback: both ends are non-empty; a found value is kept; phpcbf is chosen exactly for a `phpcs` configuration, and PSR12 exactly for a phpcbf executable |
| CResolve.PhpcbfFallbackUnreachable | main.c:165 | as written, a missing executable always becomes php-cs-fixer |
| CResolve.StandardSelectsPhpcbf | main.c:164-171 | in the corrected fallback, a found `phpcs.xml` standard selects phpcbf |
| CResolve.VendoredPhpcbfGetsPsr12 | main.c:172-175 | a vendored phpcbf without a configuration gets `--standard=PSR12`, under both fallbacks |
| CResolve.Resolve | main.c:129-178 | the walk as written and then the fallbacks as written: the configuration and the executable handed to `add_to_list` are non-empty |
| CResolve.ResolveIntended | main.c:129-178 | the corrected walk and the corrected fallback also give a non-empty configuration and executable |
| CResolve.ResolveMissFallsBack | main.c:148-178 | as written, a start directory that holds neither file gets the php-cs-fixer executable and rules, whatever is further up |
| CBatching.FindConfig | main.c:106-107 | the first batch with an equal configuration; none exactly when no batch has it |
| CBatching.Insert | main.c:89-118 | a known configuration gets `" " + file` appended with its executable unchanged; a new one goes at index `length`; a new batch at length 99 fails; configurations stay distinct and the length stays below 100 |
| CBatching.FileBatchList.constructor | main.c:193-195 | a new list is empty, with length 0 |
| CBatching.FileBatchList.AddNewBatch | main.c:89-102 | fails exactly when `length + 1 == 100`; otherwise the length grows by one and the new batch is last |
| CBatching.FileBatchList.AddToList | main.c:104-118 | the scan and append compute `Insert` on the array contents |
| CBatching.AccumulateJoined | main.c:104-118 | after any calls, each configuration has one batch, whose files are that configuration's files joined by spaces |
| CBatching.AtMostNinetyNine | main.c:89-102 | at most 99 batches are ever stored |
| CBatching.BatchedPathAsWritten | main.c:129-135 | the path left in `argv_path`: the argument for a directory, and the directory holding it for a file |
| CBatching.BatchedPathIntended | main.c:180 | the corrected path handed to `add_to_list` is the resolved argument |
| CBatching.DirnameReplacesFile | main.c:135 | as written, a file argument is batched as the directory that holds it |
| CBatching.InsertEndsWith | main.c:104-118 | a successful `add_to_list` leaves its file at the end of the files of its configuration's batch |
| CBatching.WalkStep | main.c:120-181 | an unresolvable argument is skipped; any other is inserted as `argv_path` under the configuration and executable resolved as written |
| CBatching.WalkStepBatchesStartDir | main.c:135-180 | as written, a resolved argument ends its configuration's batch as the directory the walk started in |
| CBatching.WalkStepBatchesArgument | main.c:180 | with the corrected walk, fallback and path, the argument itself ends the files of its configuration's batch |
| CBatching.SubdirectoryFileAsWritten | main.c:129-180 | `/p/src/a.php` under a project with only `/p/phpcs.xml` becomes one batch `/p/src` with the php-cs-fixer executable and rules |
| CBatching.WalkPath | main.c:120-181 | the array's new contents are one walk step as written: the as-written loop, the as-written fallbacks, and `argv_path` after `dirname` |
| CBatching.WalkAll | main.c:197-203 | once a walk exits, nothing more is walked; configurations stay distinct and the list stays below 100 batches |
| CBatching.ExitCode | main.c:205-213 | every batch runs in index order and the exit code is the last non-zero result, or 0 |
| CBatching.WalkTargets | main.c:197-203 | the arguments are walked in order, or `.` when there are none, stopping when a walk exits |
| CBatching.Dispatch | main.c:183-217 | 1 for an argument longer than `PATH_MAX` or a full list; otherwise the last non-zero result over the batches `walk_path` builds as written, or 0 |
| CBatching.OutcomeZeroIff | main.c:183-217 | `main` returns 0 exactly when no argument is too long, no walk exits and every batch's command returns 0 |
| CrossVersion.SharedBuildersAgree | main.go:163-277 | for prettier, eslint, flake8, black, hadolint, gofmt, rustfmt, clang-format, phpcbf, sqlfluff and shellcheck, the Go builder's words equal the Rust template's build |
| CrossVersion.PylintFlagDiffers | main.go:184-189 | Go's pylint builder passes `--rcfile`, while Rust's python template passes `--config` |
| CrossVersion.PrecedenceDiffers | main.go:342-356 | on one project, Go takes the nearer `.pylintrc` and Rust the farther `.flake8` |
| CrossVersion.DockerfileDiffers | main.go:284-293 | a file named `Dockerfile` is never the dockerfile entry in Go, and always is in Rust |
| CrossVersion.ExitRulesDiffer | main.go:452-459 | for the codes 1 then 2, Go and C report 2, and Rust reports 1 |
| CrossVersion.SingleFailureAgrees | main.go:452-459 | when at most one batch fails, the two rules give the same code |

## Left out

- Process execution and output (`exec.Command`, `Command::new`, `system`, `printf`, `println!`). A batch's exit code comes from an oracle.
- Real filesystem calls (`os.Stat`, `Path::exists`, `access`, `opendir`) are set membership. `filepath.Abs`, `fs::canonicalize` and `realpath` give absolute component paths; in C, `realpath` is an oracle.
- `walk_entry` and `walk_path` in Rust (src/main.rs:487-549) read directories. The model takes the files to process as a sequence; only `should_skip_dir` is modelled.
- Symbolic links, `.` and `..` components, and relative paths: every path is a canonical absolute path. The `"/"`/`"."` guards and the `parent == dir` check of the two `find_in_parent_dirs` become one end-of-path test.
- The iteration order of Rust's `HashMap` is unspecified. It is the parameter `order`.
- Lower-casing is ASCII only: `strings.ToLower` and `to_lowercase` also fold non-ASCII letters.
- `is_executable_available` is an oracle on the program name.
- Go's `runLinter` error path for a command that cannot start (code 1) is part of the run oracle.
- C memory handling is left out: `malloc`, `realloc`, `free`, the one-byte-short realloc with overlapping `sprintf` (main.c:108-112), and the `MAX_PATH` buffer sizes. The model adds the space-separated file, as intended.
- The uninitialised `list->length` of C's `main` (main.c:193-195) starts at 0.
- C's `exit(1)` in `add_new_batch` (main.c:91-94) is modelled as a failed walk, and `main` then returns 1.
- C's `realpath` failure inside the walk loop (main.c:152-155) is not modelled: the parent of a directory that was opened is taken to resolve. In the source that failure returns before `add_to_list`. A directory that `opendir` cannot open is modelled: it is not in `fs`, and it ends the walk, after which the fallbacks apply and the argument is still batched (main.c:137-180).
- GoBatching.Dispatch: its result is the value handed to `os.Exit` (main.go:461), not the process status the shell sees, which is that value's low byte; a linter killed by a signal (`ExitCode()` is -1) makes the process exit 255.
- C's `system` returns a wait status, not an exit code. The model treats the oracle's value as the status `main` keeps.
- GoBuilders.ConfigFlagIff: excludes the configuration path `PSR12`, because phpcbf's default then builds the same words.
- RustTemplates.Build: its own contract states only the length; the substituted words are stated by `BuildFill` and the per-template lemmas, which require an executable without braces.

## Findings

| source | as written | input that shows it | evidently intended | confidence | as-written member | corrected member |
|---|---|---|---|---|---|---|
| main.go:366-367 | `runLinter` formats `executable config files`, but the executable already holds the whole built command, configuration flag included | a batch with configuration `/p/.prettierrc`: the command line ends `--config /p/.prettierrc /p/.prettierrc <files>` | the built command followed by the files | not executed | GoBatching.ConfigPassedTwice | GoBatching.CommandLineWords |
| main.c:165 | `!strlen(f_config) && NULL != strstr(f_config, "phpcs")`: an empty string never contains `phpcs` | no vendored executable and a found `phpcs.xml`: the executable becomes php-cs-fixer with a phpcs standard | choose phpcbf when a found configuration names phpcs | not executed | CResolve.PhpcbfFallbackUnreachable | CResolve.StandardSelectsPhpcbf |
| main.c:148-150 | the walk breaks when both buffers are still empty | a file in `/p/src` with `/p/phpcs.xml` only: nothing is found and the defaults are used | stop once both are found | not executed | CResolve.SubdirectoryMissesProjectConfig | CResolve.WalkUpSearches |
| main.c:135 | `dirname(argv_path)` writes into `argv_path`, which is later batched | the argument `/p/a.php`: the batch lists `/p` | batch the resolved argument | not executed | CBatching.DirnameReplacesFile | CBatching.WalkStepBatchesArgument |
