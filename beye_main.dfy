/**
 * The small decisions of `beye`'s entry point and of `run_analyzer`: the
 * log level chosen from `--verbose`, whether a report has to be generated,
 * the parameters merged into every compilation-database entry, and the
 * value `main` returns.
 */
module BeyeMain {
  import opened ArgumentTranslator
  import LibScanBuild

  // The numeric levels of Python's `logging` module below WARNING
  // (`LibScanBuild.Warning`), and the trace level.
  const Info := 20
  const Debug := 10
  const Trace := 5

  /** `from_number_to_level`: WARNING, INFO, DEBUG for 0, 1, 2 and the trace level otherwise. */
  function FromNumberToLevel(num: int): (level: int)
    ensures level in {LibScanBuild.Warning, Info, Debug, Trace}
    ensures 0 < level <= LibScanBuild.Warning
    ensures level == LibScanBuild.LogLevel(num) <==> 0 <= num <= 2
  {
    if num == 0 then LibScanBuild.Warning
    else if num == 1 then Info
    else if num == 2 then Debug
    else Trace
  }

  /** More `-v` never raises the level. */
  lemma FromNumberToLevelNonIncreasing(a: int, b: int)
    requires 0 <= a <= b
    ensures FromNumberToLevel(b) <= FromNumberToLevel(a)
  {
  }

  /** From three `-v` on, `libscanbuild` would silence everything (level 0) while `beye` keeps the trace level. */
  lemma TraceLevelAboveLibraryLevel(num: int)
    requires 3 <= num
    ensures FromNumberToLevel(num) == Trace && LibScanBuild.LogLevel(num) == 0
  {
  }

  /** `needs_report_file`: the output format is "html" or "plist-html". */
  predicate NeedsReportFile(args: Options)
  {
    "output_format" in args && args["output_format"] in {Str("html"), Str("plist-html")}
  }

  /**
   * A report is generated exactly when the analyzer is told to write HTML:
   * when the output-format flag the translator emits is one of the two
   * HTML formats.
   */
  lemma NeedsReportFileIffHtmlOutput(args: Options)
    requires WellTyped(args)
    ensures NeedsReportFile(args)
      <==> Segment(args, OutputFormat) in {[OutputFlag + "html"], [OutputFlag + "plist-html"]}
  {
    if Given(args, "output_format") {
      var s := args["output_format"].s;
      var flag := OutputFlag + s;
      assert flag[|OutputFlag|..] == s;
      assert (OutputFlag + "html")[|OutputFlag|..] == "html";
      assert (OutputFlag + "plist-html")[|OutputFlag|..] == "plist-html";
    }
  }

  // ---------------------------------------------------------------------
  // run_analyzer: common_params and wrap

  /** The keys `common_params` fills. */
  const Clang := "clang"
  const OutDir := "out_dir"
  const DirectArgs := "direct_args"
  const Uname := "uname"

  /**
   * `common_params(opts)`: the compiler, the report directory, the
   * translated analyzer flags and the `uname -a` text (a parameter here).
   */
  method CommonParams(opts: Options, outDir: string, uname: string) returns (params: map<string, Value>)
    requires Clang in opts && WellTyped(opts)
    ensures params.Keys == {Clang, OutDir, DirectArgs, Uname}
    ensures params[Clang] == opts[Clang] && params[OutDir] == Str(outDir) && params[Uname] == Str(uname)
    ensures params[DirectArgs].StrList? && params[DirectArgs].items == Translate(opts)
  {
    var directArgs := ParametersFromCommandLine(opts);
    params := map[Clang := opts[Clang], OutDir := Str(outDir), DirectArgs := StrList(directArgs), Uname := Str(uname)];
  }

  /** One compilation-database entry, a dictionary the generator updates in place. */
  class Entry {
    var fields: map<string, Value>

    constructor (fields: map<string, Value>)
      ensures this.fields == fields
    {
      this.fields := fields;
    }
  }

  /** `current.update(const)`: the keys of both, the constant's value where they meet. */
  function Merge(entry: map<string, Value>, constants: map<string, Value>): (merged: map<string, Value>)
    ensures merged.Keys == entry.Keys + constants.Keys
    ensures forall k :: k in constants ==> merged[k] == constants[k]
    ensures forall k :: k in entry && k !in constants ==> merged[k] == entry[k]
  {
    entry + constants
  }

  /** Updating twice with the same constants is updating once. */
  lemma MergeIdempotent(entry: map<string, Value>, constants: map<string, Value>)
    ensures Merge(Merge(entry, constants), constants) == Merge(entry, constants)
  {
  }

  /**
   * `wrap(iterable, const)`: every entry is updated with the constants,
   * once or (when the same dictionary is listed twice) several times to the
   * same effect; no other entry changes.
   */
  method Wrap(entries: seq<Entry>, constants: map<string, Value>)
    modifies set e | e in entries
    ensures forall e :: e in entries ==> e.fields == Merge(old(e.fields), constants)
  {
    for i := 0 to |entries|
      invariant forall e :: e in entries[..i] ==> e.fields == Merge(old(e.fields), constants)
      invariant forall e :: e in entries && e !in entries[..i] ==> e.fields == old(e.fields)
    {
      var current := entries[i];
      MergeIdempotent(old(current.fields), constants);
      current.fields := Merge(current.fields, constants);
      assert entries[..i + 1] == entries[..i] + [current];
    }
    assert entries[..|entries|] == entries;
  }

  // ---------------------------------------------------------------------
  // The value main returns

  const StatusBugs := "status_bugs"

  /** `number_of_bugs`: what the report generator found, or 0 when no report is generated. */
  function NumberOfBugs(args: Options, reportedBugs: nat): (n: nat)
    ensures NeedsReportFile(args) ==> n == reportedBugs
    ensures !NeedsReportFile(args) ==> n == 0
  {
    if NeedsReportFile(args) then reportedBugs else 0
  }

  /** Line 64 as written: the bug count whenever the `status_bugs` key exists, whatever its value. */
  function ExitValueAsWritten(args: Options, reportedBugs: nat): (r: nat)
    ensures r != 0 ==> NeedsReportFile(args) && r == reportedBugs
    ensures StatusBugs in args ==> r == NumberOfBugs(args, reportedBugs)
    ensures StatusBugs !in args ==> r == 0
  {
    if StatusBugs in args then NumberOfBugs(args, reportedBugs) else 0
  }

  /**
   * `--status-bugs` is a store-true switch, so the parser always puts the
   * key in the dictionary; its value then has no influence on the result.
   */
  lemma ExitValueIgnoresStatusBugs(args: Options, reportedBugs: nat)
    ensures ExitValueAsWritten(args[StatusBugs := Bool(false)], reportedBugs)
         == ExitValueAsWritten(args[StatusBugs := Bool(true)], reportedBugs)
  {
    assert NeedsReportFile(args[StatusBugs := Bool(false)]) <==> NeedsReportFile(args[StatusBugs := Bool(true)]);
  }

  /** Without `--status-bugs`, two bugs in an HTML report still give the exit value 2. */
  lemma ExitValueWithoutStatusBugs()
    ensures ExitValueAsWritten(map[StatusBugs := Bool(false), "output_format" := Str("html")], 2) == 2
  {
    var args := map[StatusBugs := Bool(false), "output_format" := Str("html")];
    assert NeedsReportFile(args);
  }

  /**
   * The exit status the `--status-bugs` help text describes: with the
   * switch on, 1 when bugs were found and 0 otherwise; by default, the
   * status of the executed build command. No such status reaches `main`
   * (its own comment at line 63 leaves that open), so it is a parameter.
   */
  function ExitStatus(args: Options, reportedBugs: nat, buildStatus: int): (r: int)
    ensures StatusBugs in args && args[StatusBugs] == Bool(true) ==>
      (r == 0 || r == 1) && (r == 1 <==> NumberOfBugs(args, reportedBugs) > 0)
    ensures !(StatusBugs in args && args[StatusBugs] == Bool(true)) ==> r == buildStatus
  {
    if StatusBugs in args && args[StatusBugs] == Bool(true) then
      (if NumberOfBugs(args, reportedBugs) > 0 then 1 else 0)
    else buildStatus
  }

  /**
   * With the switch off the bug count has no influence on the status;
   * turning it on makes the status 1 exactly when an HTML report found bugs.
   */
  lemma ExitStatusHonoursSwitch(args: Options, reportedBugs: nat, buildStatus: int)
    requires StatusBugs in args && args[StatusBugs] == Bool(false)
    ensures ExitStatus(args, reportedBugs, buildStatus) == ExitStatus(args, 0, buildStatus)
    ensures ExitStatus(args[StatusBugs := Bool(true)], reportedBugs, buildStatus)
         == (if NeedsReportFile(args) && reportedBugs > 0 then 1 else 0)
  {
    assert NeedsReportFile(args[StatusBugs := Bool(true)]) <==> NeedsReportFile(args);
  }
}
