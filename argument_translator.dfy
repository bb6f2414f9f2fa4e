/**
 * The argument translator of `beye` (`parameters_from_command_line`): the
 * option dictionary produced by the command-line parser becomes the ordered
 * list of flags passed to the analyzer front end, each behind `-Xclang`.
 */
module ArgumentTranslator {

  /** A value of the option dictionary. */
  datatype Value = NoneValue | Bool(b: bool) | Int(i: int) | Str(s: string) | StrList(items: seq<string>)

  type Options = map<string, Value>

  /** `k in opts` once line 310 has dropped every key whose value is `None`. */
  predicate Given(args: Options, k: string) {
    k in args && args[k] != NoneValue
  }

  /** `{k: v for k, v in args.items() if v is not None}`. */
  function DropNone(args: Options): (opts: Options)
    ensures forall k :: k in opts <==> Given(args, k)
    ensures forall k :: k in opts ==> k in args && opts[k] == args[k]
  {
    map k | k in args && args[k] != NoneValue :: args[k]
  }

  /** The keys the translator looks at, in the order it emits their flags. */
  datatype Key =
    | StoreModel | ConstraintsModel | InternalStats | AnalyzeHeaders | Stats | MaxLoop
    | OutputFormat | AnalyzerConfig | Verbose | Plugins | EnableChecker | DisableChecker | Ubiviz

  function Name(k: Key): string {
    match k
    case StoreModel => "store_model"
    case ConstraintsModel => "constraints_model"
    case InternalStats => "internal_stats"
    case AnalyzeHeaders => "analyze_headers"
    case Stats => "stats"
    case MaxLoop => "maxloop"
    case OutputFormat => "output_format"
    case AnalyzerConfig => "analyzer_config"
    case Verbose => "verbose"
    case Plugins => "plugins"
    case EnableChecker => "enable_checker"
    case DisableChecker => "disable_checker"
    case Ubiviz => "ubiviz"
  }

  // The analyzer front-end flags the translator emits.
  const StoreFlag := "-analyzer-store="
  const ConstraintsFlag := "-analyzer-constraints="
  const StatsFlag := "-analyzer-stats"
  const HeadersFlag := "-analyzer-opt-analyze-headers"
  const DebugStatsFlag := "-analyzer-checker=debug.Stats"
  const MaxLoopFlag := "-analyzer-max-loop"
  const OutputFlag := "-analyzer-output="
  const ProgressFlag := "-analyzer-display-progress"
  const LoadFlag := "-load"
  const CheckerFlag := "-analyzer-checker"
  const DisableCheckerFlag := "-analyzer-disable-checker"
  const UbigraphFlag := "-analyzer-viz-egraph-ubigraph"
  const Xclang := "-Xclang"

  predicate TextIfGiven(args: Options, k: string) { Given(args, k) ==> args[k].Str? }
  predicate IntIfGiven(args: Options, k: string) { Given(args, k) ==> args[k].Int? }
  predicate ListIfGiven(args: Options, k: string) { Given(args, k) ==> args[k].StrList? }

  /**
   * The value types the command-line parser gives the keys whose value the
   * translator reads; the switches (`internal_stats`, `stats`, ...) may hold anything.
   */
  predicate WellTyped(args: Options) {
    && TextIfGiven(args, "store_model")
    && TextIfGiven(args, "constraints_model")
    && IntIfGiven(args, "maxloop")
    && TextIfGiven(args, "output_format")
    && TextIfGiven(args, "analyzer_config")
    && IntIfGiven(args, "verbose")
    && ListIfGiven(args, "plugins")
    && ListIfGiven(args, "enable_checker")
    && ListIfGiven(args, "disable_checker")
  }

  /** The decimal digit character for `d`. */
  function Digit(d: nat): (c: char)
    requires d < 10
    ensures '0' <= c <= '9' && c as int - '0' as int == d
  {
    "0123456789"[d]
  }

  /** Decimal text as `str` writes a natural number: digits only, no leading zero. */
  predicate IsDecimal(s: string) {
    && s != []
    && (forall i :: 0 <= i < |s| ==> '0' <= s[i] <= '9')
    && (|s| > 1 ==> s[0] != '0')
  }

  /** Python's `str` of a natural number. */
  function NatToString(n: nat): (s: string)
    ensures IsDecimal(s)
    ensures s[0] == '0' <==> n == 0
    ensures |s| == 1 <==> n < 10
  {
    if n < 10 then [Digit(n)] else NatToString(n / 10) + [Digit(n % 10)]
  }

  /** Python's `str` of an integer. */
  function IntToString(n: int): string
  {
    if n < 0 then "-" + NatToString(-n) else NatToString(n)
  }

  /** Reads a string of decimal digits back; the inverse of `NatToString`. */
  function ParseNat(s: string): nat
  {
    if s == [] then 0
    else
      var d := s[|s| - 1] as int - '0' as int;
      ParseNat(s[..|s| - 1]) * 10 + (if 0 <= d < 10 then d else 0)
  }

  lemma {:induction false} ParseNatToString(n: nat)
    ensures ParseNat(NatToString(n)) == n
    ensures NatToString(n) != [] && NatToString(n)[0] != '-'
  {
    if n >= 10 {
      ParseNatToString(n / 10);
      var s := NatToString(n / 10);
      assert (s + [Digit(n % 10)])[..|s|] == s;
    }
  }

  /**
   * `functools.reduce(lambda acc, x: acc + [flag, x], xs, [])`: each element
   * of `xs`, in order, preceded by `flag`.
   */
  function Pairs(flag: string, xs: seq<string>): seq<string>
  {
    if xs == [] then [] else Pairs(flag, xs[..|xs| - 1]) + [flag, xs[|xs| - 1]]
  }

  lemma {:induction false} PairsShape(flag: string, xs: seq<string>)
    ensures |Pairs(flag, xs)| == 2 * |xs|
    ensures forall i :: 0 <= i < |xs| ==> Pairs(flag, xs)[2 * i] == flag && Pairs(flag, xs)[2 * i + 1] == xs[i]
  {
    if xs != [] {
      PairsShape(flag, xs[..|xs| - 1]);
    }
  }

  /** The tokens at odd positions of an even-length list. */
  function Odds(s: seq<string>): seq<string>
    requires |s| % 2 == 0
  {
    if s == [] then [] else Odds(s[..|s| - 2]) + [s[|s| - 1]]
  }

  /** Pairing can be undone: the odd positions give back the list. */
  lemma {:induction false} OddsOfPairs(flag: string, xs: seq<string>)
    ensures |Pairs(flag, xs)| % 2 == 0 && Odds(Pairs(flag, xs)) == xs
  {
    PairsShape(flag, xs);
    if xs != [] {
      var init := xs[..|xs| - 1];
      OddsOfPairs(flag, init);
      var p := Pairs(flag, xs);
      assert p[..|p| - 2] == Pairs(flag, init);
    }
  }

  /** `flag + value` when `key` is given (`'...={0}'.format(opts[key])`). */
  function Formatted(args: Options, key: string, flag: string): seq<string>
    requires TextIfGiven(args, key)
  {
    if Given(args, key) then [flag + args[key].s] else []
  }

  /** `flag` when `key` is given, whatever its value. */
  function Switch(args: Options, key: string, flag: string): seq<string>
  {
    if Given(args, key) then [flag] else []
  }

  /** `flag, x` for each `x` of the list under `key`, when `key` is given. */
  function ListPairs(args: Options, key: string, flag: string): seq<string>
    requires ListIfGiven(args, key)
  {
    if Given(args, key) then Pairs(flag, args[key].items) else []
  }

  /** The flags one key contributes (lines 312-347). */
  function Segment(args: Options, k: Key): seq<string>
    requires WellTyped(args)
  {
    match k
    case StoreModel => Formatted(args, "store_model", StoreFlag)
    case ConstraintsModel => Formatted(args, "constraints_model", ConstraintsFlag)
    case InternalStats => Switch(args, "internal_stats", StatsFlag)
    case AnalyzeHeaders => Switch(args, "analyze_headers", HeadersFlag)
    case Stats => Switch(args, "stats", DebugStatsFlag)
    case MaxLoop => if Given(args, "maxloop") then [MaxLoopFlag, IntToString(args["maxloop"].i)] else []
    case OutputFormat => Formatted(args, "output_format", OutputFlag)
    case AnalyzerConfig => if Given(args, "analyzer_config") then [args["analyzer_config"].s] else []
    case Verbose => if Given(args, "verbose") && 2 <= args["verbose"].i then [ProgressFlag] else []
    case Plugins => ListPairs(args, "plugins", LoadFlag)
    case EnableChecker => ListPairs(args, "enable_checker", CheckerFlag)
    case DisableChecker => ListPairs(args, "disable_checker", DisableCheckerFlag)
    case Ubiviz => Switch(args, "ubiviz", UbigraphFlag)
  }

  /**
   * The flag list before the `-Xclang` wrapping (`result` at line 348): the
   * segments of the keys in their fixed emission order, whatever the map holds.
   */
  function RawFlags(args: Options): seq<string>
    requires WellTyped(args)
  {
    ScalarFlags(args) + ListFlags(args)
  }

  /** The flags of the keys handled before the list options (lines 312-330). */
  function ScalarFlags(args: Options): seq<string>
    requires WellTyped(args)
  {
    Segment(args, StoreModel) + Segment(args, ConstraintsModel) + Segment(args, InternalStats)
    + Segment(args, AnalyzeHeaders) + Segment(args, Stats) + Segment(args, MaxLoop)
    + Segment(args, OutputFormat) + Segment(args, AnalyzerConfig) + Segment(args, Verbose)
  }

  /** The flags of the list options and of `ubiviz` (lines 331-347). */
  function ListFlags(args: Options): seq<string>
    requires WellTyped(args)
  {
    Segment(args, Plugins) + Segment(args, EnableChecker) + Segment(args, DisableChecker)
    + Segment(args, Ubiviz)
  }

  /** What `parameters_from_command_line` returns. */
  function Translate(args: Options): seq<string>
    requires WellTyped(args)
  {
    Pairs(Xclang, RawFlags(args))
  }

  /**
   * The output alternates `-Xclang` with the raw flags: even length, `-Xclang`
   * at every even index, the raw flags in order at the odd ones.
   */
  lemma TranslateShape(args: Options)
    requires WellTyped(args)
    ensures var t, raw := Translate(args), RawFlags(args);
      && |t| == 2 * |raw|
      && (forall i :: 0 <= i < |raw| ==> t[2 * i] == Xclang && t[2 * i + 1] == raw[i])
      && Odds(t) == raw
  {
    PairsShape(Xclang, RawFlags(args));
    OddsOfPairs(Xclang, RawFlags(args));
  }

  /** A key's flags depend on that key's entry alone. */
  lemma SegmentLocal(a1: Options, a2: Options, k: Key)
    requires WellTyped(a1) && WellTyped(a2)
    requires Given(a1, Name(k)) == Given(a2, Name(k))
    requires Given(a1, Name(k)) ==> a1[Name(k)] == a2[Name(k)]
    ensures Segment(a1, k) == Segment(a2, k)
  {
  }

  /** A key mapped to `None` is the same as a missing key (line 310). */
  lemma NoneIsAbsent(args: Options, key: string)
    requires WellTyped(args)
    requires key in args && args[key] == NoneValue
    ensures WellTyped(args - {key})
    ensures Translate(args) == Translate(args - {key})
  {
    var a2 := args - {key};
    forall k: Key
      ensures Segment(args, k) == Segment(a2, k)
    {
      SegmentLocal(args, a2, k);
    }
  }

  /** A missing (or `None`) key contributes no flag. */
  lemma AbsentKeyEmitsNothing(args: Options, k: Key)
    requires WellTyped(args)
    requires !Given(args, Name(k))
    ensures Segment(args, k) == []
  {
  }

  /** The switches test presence only: a key holding `False` still emits its flag. */
  lemma SwitchIgnoresValue(args: Options)
    requires WellTyped(args)
    requires "internal_stats" in args && args["internal_stats"] == Bool(false)
    ensures StatsFlag in RawFlags(args)
  {
    var pre := Segment(args, StoreModel) + Segment(args, ConstraintsModel);
    assert RawFlags(args)[|pre|] == StatsFlag;
  }

  /** `-analyzer-display-progress` is emitted exactly when `verbose` is given and at least 2. */
  lemma DisplayProgressIff(args: Options)
    requires WellTyped(args)
    ensures Segment(args, Verbose) != [] <==> Given(args, "verbose") && args["verbose"].i >= 2
  {
  }

  /** Each element of a list option becomes a flag/value pair, in the list's order. */
  lemma ListOptionPairs(args: Options, k: Key, flag: string)
    requires WellTyped(args)
    requires (k == Plugins && flag == LoadFlag) || (k == EnableChecker && flag == CheckerFlag)
          || (k == DisableChecker && flag == DisableCheckerFlag)
    requires Given(args, Name(k))
    ensures |Segment(args, k)| == 2 * |args[Name(k)].items|
    ensures forall i :: 0 <= i < |args[Name(k)].items| ==>
      Segment(args, k)[2 * i] == flag && Segment(args, k)[2 * i + 1] == args[Name(k)].items[i]
  {
    PairsShape(flag, args[Name(k)].items);
  }

  /** `maxloop n` adds `-analyzer-max-loop` followed by the decimal text of `n`. */
  lemma MaxLoopPair(args: Options)
    requires WellTyped(args)
    requires Given(args, "maxloop") && args["maxloop"].i >= 0
    ensures |Segment(args, MaxLoop)| == 2 && Segment(args, MaxLoop)[0] == MaxLoopFlag
    ensures IsDecimal(Segment(args, MaxLoop)[1])
    ensures ParseNat(Segment(args, MaxLoop)[1]) == args["maxloop"].i
  {
    ParseNatToString(args["maxloop"].i);
  }

  /** `result + [flag, x]` for every `x` of `xs`, as the reductions at lines 332-345 do. */
  method ExtendPairs(acc: seq<string>, flag: string, xs: seq<string>) returns (r: seq<string>)
    ensures r == acc + Pairs(flag, xs)
  {
    r := acc;
    for i := 0 to |xs|
      invariant r == acc + Pairs(flag, xs[..i])
    {
      assert xs[..i + 1][..i] == xs[..i];
      r := r + [flag, xs[i]];
    }
    assert xs[..|xs|] == xs;
  }

  /** Lines 312-322: the store and constraint models and the three switches, appended one by one. */
  method AppendModelFlags(args: Options, opts: Options) returns (result: seq<string>)
    requires WellTyped(args) && opts == DropNone(args)
    ensures result == Segment(args, StoreModel) + Segment(args, ConstraintsModel)
      + Segment(args, InternalStats) + Segment(args, AnalyzeHeaders) + Segment(args, Stats)
  {
    result := [];
    if "store_model" in opts {
      result := result + [StoreFlag + opts["store_model"].s];
    }
    assert result == Segment(args, StoreModel);
    if "constraints_model" in opts {
      result := result + [ConstraintsFlag + opts["constraints_model"].s];
    }
    assert result == Segment(args, StoreModel) + Segment(args, ConstraintsModel);
    if "internal_stats" in opts {
      result := result + [StatsFlag];
    }
    assert result == Segment(args, StoreModel) + Segment(args, ConstraintsModel)
      + Segment(args, InternalStats);
    if "analyze_headers" in opts {
      result := result + [HeadersFlag];
    }
    assert result == Segment(args, StoreModel) + Segment(args, ConstraintsModel)
      + Segment(args, InternalStats) + Segment(args, AnalyzeHeaders);
    if "stats" in opts {
      result := result + [DebugStatsFlag];
    }
  }

  /** Lines 323-330: the loop bound, output format, analyzer configuration and progress flags. */
  method AppendValueFlags(args: Options, opts: Options, acc: seq<string>) returns (result: seq<string>)
    requires WellTyped(args) && opts == DropNone(args)
    ensures result == acc + Segment(args, MaxLoop) + Segment(args, OutputFormat)
      + Segment(args, AnalyzerConfig) + Segment(args, Verbose)
  {
    result := acc;
    if "maxloop" in opts {
      result := result + [MaxLoopFlag, IntToString(opts["maxloop"].i)];
    }
    assert result == acc + Segment(args, MaxLoop);
    if "output_format" in opts {
      result := result + [OutputFlag + opts["output_format"].s];
    }
    assert result == acc + Segment(args, MaxLoop) + Segment(args, OutputFormat);
    if "analyzer_config" in opts {
      result := result + [opts["analyzer_config"].s];
    }
    assert result == acc + Segment(args, MaxLoop) + Segment(args, OutputFormat)
      + Segment(args, AnalyzerConfig);
    if "verbose" in opts && 2 <= opts["verbose"].i {
      result := result + [ProgressFlag];
    }
  }

  /** One of the reductions at lines 331-345: when `key` is given, `flag, x` for each `x` of its list. */
  method AppendListOption(opts: Options, key: string, flag: string, acc: seq<string>) returns (result: seq<string>)
    requires key in opts ==> opts[key].StrList?
    ensures result == acc + ListPairs(opts, key, flag)
  {
    result := acc;
    if key in opts {
      result := ExtendPairs(result, flag, opts[key].items);
    }
  }

  lemma ListSegmentsFromOpts(args: Options, opts: Options)
    requires WellTyped(args) && opts == DropNone(args)
    ensures ListPairs(opts, "plugins", LoadFlag) == Segment(args, Plugins)
    ensures ListPairs(opts, "enable_checker", CheckerFlag) == Segment(args, EnableChecker)
    ensures ListPairs(opts, "disable_checker", DisableCheckerFlag) == Segment(args, DisableChecker)
  {
  }

  /** Lines 331-347: the plugin and checker pairs, then the (never passed) `ubiviz` switch. */
  method AppendListFlags(args: Options, opts: Options, acc: seq<string>) returns (result: seq<string>)
    requires WellTyped(args) && opts == DropNone(args)
    ensures result == acc + Segment(args, Plugins) + Segment(args, EnableChecker)
      + Segment(args, DisableChecker) + Segment(args, Ubiviz)
  {
    ListSegmentsFromOpts(args, opts);
    result := AppendListOption(opts, "plugins", LoadFlag, acc);
    assert result == acc + Segment(args, Plugins);
    result := AppendListOption(opts, "enable_checker", CheckerFlag, result);
    assert result == acc + Segment(args, Plugins) + Segment(args, EnableChecker);
    result := AppendListOption(opts, "disable_checker", DisableCheckerFlag, result);
    assert result == acc + Segment(args, Plugins) + Segment(args, EnableChecker)
      + Segment(args, DisableChecker);
    if "ubiviz" in opts {
      result := result + [UbigraphFlag];
    }
  }

  lemma AppendAssociative(a: seq<string>, b: seq<string>, c: seq<string>, d: seq<string>, e: seq<string>)
    ensures a + b + c + d + e == a + (b + c + d + e)
  {
  }

  /** `parameters_from_command_line`: the raw flags built step by step, then each put behind `-Xclang`. */
  method ParametersFromCommandLine(args: Options) returns (flags: seq<string>)
    requires WellTyped(args)
    ensures flags == Translate(args)
  {
    var opts := DropNone(args);
    var result := AppendModelFlags(args, opts);
    result := AppendValueFlags(args, opts, result);
    ghost var scalars := result;
    assert scalars == ScalarFlags(args);
    result := AppendListFlags(args, opts, result);
    AppendAssociative(scalars, Segment(args, Plugins), Segment(args, EnableChecker),
      Segment(args, DisableChecker), Segment(args, Ubiviz));
    flags := ExtendPairs([], Xclang, result);
  }
}
