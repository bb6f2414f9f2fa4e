# beye and libscanbuild, modelled in Dafny

`beye` runs the Clang static analyzer on every entry of a compilation
database and can then generate an HTML report. This project models the
sequential, deterministic decisions it makes along the way, and proves
properties about them. The analyzer itself, the process pool, JSON and
logging are not modelled.

- **Argument translator** (`argument_translator.dfy`). This is
  `parameters_from_command_line`. It turns the option dictionary into the
  analyzer's flag list, with each flag behind `-Xclang`.
  - `Segment` gives the flags one key contributes.
  - `RawFlags` joins the segments in the fixed emission order.
  - `Translate` pairs every raw flag with `-Xclang`.
  - The method `ParametersFromCommandLine` builds the list step by step, as
    the source does, and is proved equal to `Translate`.
- **Common-prefix resolver** (`common_prefix.dfy`, over `posix_path.dfy`).
  This is `common` inside `get_prefix_from`: a left fold of
  `os.path.commonprefix` over the entry directories, with a fall-back to
  `os.path.dirname` when the fold is not a directory. `os.path.isdir` is
  membership in a set of directories. `commonprefix`, `dirname` and `join`
  are string functions.
- **Report directory** (`report_directory.dfy`, over `file_system.dfy`).
  - `ReportDirectory._create` acquires the directory and `__exit__`
    releases it.
  - The file system is a class that holds the existing directories, each
    with its entry count.
  - `tempfile.mkdtemp` draws random names. Here they are a parameter: a
    list of candidates tried in turn.
- **Entry point helpers** (`beye_main.dfy`). These are
  `from_number_to_level`, `needs_report_file`, `common_params`, `wrap`
  (in-place updates of the entry dictionaries) and the value `main` returns.
- **libscanbuild** (`libscanbuild.dfy`).
  - `duplicate_check` is a class whose `state` set the predicate grows.
  - `tempdir` is a lookup over an environment map.
  - `initialize_logging` contributes the level and format it chooses.

Where the code and its prose description disagree, the model follows the
code:
- `main` returns the bug count itself, not 1, and it does so even without
  `--status-bugs` (see Findings).
- `common` only checks whether the character-wise prefix is a directory. A
  kept result is a directory, but it need not be an ancestor of every
  entry's directory (see Findings).

## Model

| member | source | states |
|---|---|---|
| ArgumentTranslator.DropNone | analyzer/beye.py:310 | exactly the keys whose value is not `None` survive, with their values |
| ArgumentTranslator.NatToString | analyzer/beye.py:324 | `str(n)` of a natural number is decimal text: digits only, no leading zero, a single `0` exactly for zero |
| ArgumentTranslator.ParseNatToString | analyzer/beye.py:324 | `str(n)` of a natural number has no sign and reads back as `n` |
| ArgumentTranslator.PairsShape | analyzer/beye.py:331-345 | reducing with `acc + [flag, x]` gives length 2·n, `flag` at even positions, the elements in order at odd ones |
| ArgumentTranslator.OddsOfPairs | analyzer/beye.py:348-349 | the pairing is undone by taking the odd positions |
| ArgumentTranslator.TranslateShape | analyzer/beye.py:348-349 | the result has even length, `-Xclang` at every even index, and the raw flags exactly and in order at the odd indices |
| ArgumentTranslator.SegmentLocal | analyzer/beye.py:312-347 | the flags of a key depend on that key's entry alone, so dictionary order plays no part |
| ArgumentTranslator.NoneIsAbsent | analyzer/beye.py:310 | a key mapped to `None` yields the same flags as a missing key |
| ArgumentTranslator.AbsentKeyEmitsNothing | analyzer/beye.py:312-347 | a missing or `None` key contributes no flag |
| ArgumentTranslator.SwitchIgnoresValue | analyzer/beye.py:317-318 | `internal_stats=False` still emits `-analyzer-stats`, because only presence is tested |
| ArgumentTranslator.DisplayProgressIff | analyzer/beye.py:329-330 | `-analyzer-display-progress` is emitted iff `verbose` is given and at least 2 |
| ArgumentTranslator.ListOptionPairs | analyzer/beye.py:331-345 | each plugin and checker becomes a `-load`, `-analyzer-checker` or `-analyzer-disable-checker` pair, in list order |
| ArgumentTranslator.MaxLoopPair | analyzer/beye.py:323-324 | `maxloop n` adds `-analyzer-max-loop` followed by decimal text (digits, no leading zero) that reads back as `n` |
| ArgumentTranslator.ExtendPairs | analyzer/beye.py:332-345 | the loop appends exactly `acc + Pairs(flag, xs)` |
| ArgumentTranslator.AppendModelFlags | analyzer/beye.py:311-322 | the store and constraints flags and the three switches are appended in source order |
| ArgumentTranslator.AppendValueFlags | analyzer/beye.py:323-330 | max-loop, output format, verbatim analyzer config and display progress follow, in that order |
| ArgumentTranslator.AppendListOption | analyzer/beye.py:331-345 | one list option appends its flag/value pairs after what is already there |
| ArgumentTranslator.AppendListFlags | analyzer/beye.py:331-347 | plugins, enabled checkers, disabled checkers and `ubiviz` follow, in that order |
| ArgumentTranslator.ParametersFromCommandLine | analyzer/beye.py:307-349 | the step-by-step construction returns exactly `Translate(args)`, the `-Xclang`-paired segments in the fixed order |
| PosixPath.CommonPrefix | analyzer/beye.py:360 | `commonprefix` of two paths is a prefix of both and stops at their first difference |
| PosixPath.CommonPrefixMaximal | analyzer/beye.py:360 | every common prefix of the two paths is a prefix of `commonprefix` |
| PosixPath.DirnameAtBoundary | analyzer/beye.py:365 | `dirname(p)` is a prefix of `p` that ends at a separator boundary |
| CommonPrefix.FoldIsLongestCommonPrefix | analyzer/beye.py:357-360 | the accumulator stays unset only for no paths; otherwise it is the longest common prefix of all of them |
| CommonPrefix.LongestCommonPrefixUnique | analyzer/beye.py:357-360 | the longest common prefix is unique, so the fold's order does not matter |
| CommonPrefix.ResolveSpec | analyzer/beye.py:356-367 | `''` for no paths; otherwise the longest common prefix if it is a directory, else its `dirname`; a prefix of every path either way |
| CommonPrefix.Common | analyzer/beye.py:356-367 | the loop and the final branch compute `Resolve`, the resolver specified by `ResolveSpec` |
| CommonPrefix.Directories | analyzer/beye.py:369-372 | one directory per entry, the `dirname` of its file, in order |
| CommonPrefix.GetPrefixFrom | analyzer/beye.py:353-374 | `common` applied to the entries' directories |
| CommonPrefix.SiblingsFold | analyzer/beye.py:357-360 | the fold of `/src/lib` and `/src/lib2` is `/src/lib` |
| CommonPrefix.AsWrittenCutsThroughName | analyzer/beye.py:356-367 | for `/src/lib` and `/src/lib2`, with `/src/lib` a directory, the result is `/src/lib`, which is no ancestor of `/src/lib2` |
| CommonPrefix.CommonPath | analyzer/beye.py:356-367 | the corrected resolver's result is an ancestor directory of every path |
| CommonPrefix.CommonPathMaximal | analyzer/beye.py:356-367 | every common ancestor of the paths, written without a trailing separator, is a prefix of the corrected result, which is therefore the deepest common ancestor |
| CommonPrefix.CommonPathOfSiblings | analyzer/beye.py:356-367 | for `/src/lib` and `/src/lib2` the corrected resolver gives `/src` |
| CommonPrefix.DirnameIsPathPrefix | analyzer/beye.py:365 | the `dirname` of any prefix of a path is an ancestor of that path |
| CommonPrefix.DirnameKeepsAncestor | analyzer/beye.py:365 | `dirname` keeps every leading part of the path that a separator follows |
| CommonPrefix.DirnameOfLib | analyzer/beye.py:365 | `dirname("/src/lib")` is `/src` |
| FileSystems.FileSystem.Mkdir | analyzer/beye.py:96 | a new empty directory is created, or `FileExistsError` is raised with nothing changed |
| FileSystems.FileSystem.Rmdir | analyzer/beye.py:88 | only an empty, existing directory is removed; otherwise an error is raised and nothing changes |
| FileSystems.FileSystem.ListDir | analyzer/beye.py:82 | the number of entries, or `FileNotFoundError` |
| ReportDirectories.MessagesDistinct | analyzer/beye.py:83-89 | the three release messages differ, so exactly one outcome is reported |
| ReportDirectories.ReportDirectory.MakeTempDir | analyzer/beye.py:102 | the first candidate name not taken is created as a new empty directory; if all are taken, nothing changes |
| ReportDirectories.ReportDirectory.Create | analyzer/beye.py:93-102 | hint `/tmp` gives a fresh `beye-*.out` directory; any other hint creates exactly that path, or fails with `FileExists` leaving the file system unchanged |
| ReportDirectories.ReportDirectory.Open | analyzer/beye.py:73-75 | on success the object holds a newly created empty directory and the `keep` flag; on failure nothing changed |
| ReportDirectories.ReportDirectory.Exit | analyzer/beye.py:81-90 | a non-empty directory is kept with the review message; an empty one is kept if `keep` is set and removed otherwise, each with its message |
| ReportDirectories.WithReportDirectory | analyzer/beye.py:54-64 | if `_create` fails nothing changes; otherwise the directory is released whether the body returns or raises, the body's exception propagates, and afterwards the directory exists iff it holds reports or `keep` is set, with no other directory changed |
| LibScanBuild.DedupDistinct | libscanbuild/__init__.py:14-32 | the entries the predicate lets through have pairwise distinct identities, none already seen |
| LibScanBuild.DedupIdentities | libscanbuild/__init__.py:14-32 | every identity not seen before is kept, and only those |
| LibScanBuild.DedupIsSubsequence | libscanbuild/__init__.py:14-32 | the kept entries appear in the original order |
| LibScanBuild.DedupKeepsFirstOccurrences | libscanbuild/__init__.py:14-32 | each kept entry is the first occurrence of its identity |
| LibScanBuild.DuplicateCheck.constructor | libscanbuild/__init__.py:30-32 | each `duplicate_check(method)` starts with an empty state and the given identity function |
| LibScanBuild.DuplicateCheck.Predicate | libscanbuild/__init__.py:23-28 | the predicate answers True iff the identity was seen, and the state grows by exactly that identity |
| LibScanBuild.DuplicateCheck.Classify | libscanbuild/__init__.py:23-28 | over a sequence, the predicate answers False exactly for the first occurrence of each new identity |
| LibScanBuild.DuplicateCheck.KeepFirsts | libscanbuild/__init__.py:14-32 | the entries the predicate lets through are `Dedup` of the input, and the state grows by the input's identities |
| LibScanBuild.TempDir | libscanbuild/__init__.py:35-39 | `TMPDIR` if set, else `TEMP`, else `TMP`, else `/tmp` |
| LibScanBuild.LogLevel | libscanbuild/__init__.py:48 | the level lies in [0, 30] for a non-negative verbosity, is 30 − 10·v up to v = 3, and is 0 from v = 3 on |
| LibScanBuild.LogFormat | libscanbuild/__init__.py:50-53 | from verbosity 3 on the format is program, level name and message; below 3 it also has the function name |
| LibScanBuild.LogFormatChoice | libscanbuild/__init__.py:50-53 | the brief format is chosen iff verbosity ≥ 3, and it is the detailed format without the function-name field |
| BeyeMain.FromNumberToLevel | analyzer/beye.py:35-43 | the level is WARNING, INFO, DEBUG or the trace level 5, and agrees with `libscanbuild`'s level formula exactly for verbosities 0 to 2 |
| BeyeMain.NeedsReportFileIffHtmlOutput | analyzer/beye.py:45-47 | a report is needed iff the analyzer is told `-analyzer-output=html` or `-analyzer-output=plist-html` |
| BeyeMain.CommonParams | analyzer/beye.py:280-288 | the constants are the compiler, the output directory, the translated flags and the `uname` text, under those four keys only |
| BeyeMain.Merge | analyzer/beye.py:292 | `update` yields the keys of both maps; constant keys take the constant's value, other keys keep the entry's |
| BeyeMain.Wrap | analyzer/beye.py:290-293 | every listed entry ends up as its old contents updated with the constants, even when listed twice |
| BeyeMain.NumberOfBugs | analyzer/beye.py:56-62 | the report's bug count when a report is generated, and 0 when none is |
| BeyeMain.ExitValueAsWritten | analyzer/beye.py:64 | `number_of_bugs` when the `status_bugs` key exists, 0 when it does not; a non-zero result is the full bug count of a generated report |
| BeyeMain.ExitValueIgnoresStatusBugs | analyzer/beye.py:64 | the result does not depend on the value of `status_bugs` |
| BeyeMain.ExitValueWithoutStatusBugs | analyzer/beye.py:64 | with `status_bugs` False and two bugs in an HTML report, `main` returns 2 |
| BeyeMain.ExitStatus | analyzer/beye.py:135-141 | with `--status-bugs` on the status is 0 or 1, and 1 iff bugs were found; with it off the status is the build command's |
| BeyeMain.ExitStatusHonoursSwitch | analyzer/beye.py:135-141 | with the switch off the bug count has no influence; turning it on gives 1 exactly when an HTML report found bugs, else 0 |

## Left out

- The process pool, `imap_unordered`, `close` and `join` (analyzer/beye.py:296-303) are left out. Their point is concurrency, and result order is unspecified.
- The `uname -a` subprocess is a parameter of `CommonParams`. Opening and reading the compilation database with `json.load` is not modelled: the entries are a sequence of `Entry` objects, and `get_prefix_from` receives the entries' file names.
- Command-line parsing is not modelled. The option dictionary is an input.
- ArgumentTranslator.ParametersFromCommandLine: requires `WellTyped(args)`, the types the parser gives: text for formatted options, an integer for `maxloop` and `verbose`, lists for the append options. How `format` would print other Python types is not modelled.
- ArgumentTranslator.IntToString renders negative `maxloop` values with a leading `-`. Only the non-negative case is proved to round-trip.
- `analyzer.driver.run`, `generate_report` and the `trace`/`require` decorators are not part of this model. The report's bug count is a parameter.
- Logging calls (`basicConfig`, `setLevel`, `logging.info`/`warning`) are left out. Only the chosen level, format and message text are modelled.
- `os.path.basename(sys.argv[0])` in `initialize_logging` is left out. The program name is a parameter of `LogFormat`.
- The real operating system is not modelled. The file system is a map from existing directories to entry counts.
  - Permission errors and a missing parent directory are not modelled.
  - Files are counted but not named.
  - Creating or removing a directory does not change its parent's entry count. No modelled decision reads a parent's count.
- ReportDirectories.ReportDirectory.MakeTempDir: the random stream is a list of candidate names, and `TMP_MAX`, the limit on attempts, is that list's length. `tempfile.gettempdir()` is a parameter.
- BeyeMain.ExitStatus: the build command's status it returns with the switch off is a parameter; nothing in the code provides it yet.
- `__enter__` (analyzer/beye.py:77-78) returns the `name` field, which `WithReportDirectory` reads directly.
- BeyeMain.Wrap updates the entries in place but returns nothing. The generator's lazy, one-at-a-time yielding is not modelled.
- CommonPrefix.GetPrefixFrom keeps the behaviour as written, `Resolve`. The corrected `CommonPath` is stated beside it and is not wired into it.

## Findings

| source | as written | input that shows it | evidently intended | confidence | as-written member | corrected member |
|---|---|---|---|---|---|---|
| analyzer/beye.py:64 | `'status_bugs' in args` is always true, because the option is `store_true` (lines 135-141), so `main` returns the bug count | `--status-bugs` not given, HTML output, 2 bugs: exit value 2 | with `--status-bugs` on, exit status 1 when bugs were found and 0 otherwise; with it off, the build command's status (lines 138-139), which the comment at line 63 leaves to be obtained and for which 0 stands in until then | not executed | BeyeMain.ExitValueWithoutStatusBugs | BeyeMain.ExitStatus |
| analyzer/beye.py:356-367 | `os.path.commonprefix` works character by character, and a result that happens to be a directory is kept | directories `/src/lib` and `/src/lib2`, with `/src/lib` existing: result `/src/lib` | an ancestor directory of every entry (`/src`) | not executed | CommonPrefix.AsWrittenCutsThroughName | CommonPrefix.CommonPath |
