/**
 * The shared helpers of `libscanbuild`: the duplicate filter, the default
 * temporary directory, and the level and format `initialize_logging` picks.
 */
module LibScanBuild {

  // ---------------------------------------------------------------------
  // duplicate_check

  /** The identities of the entries of `xs`. */
  ghost function Identities<E, H>(xs: seq<E>, unique: E -> H): set<H>
  {
    set i | 0 <= i < |xs| :: unique(xs[i])
  }

  /** `xs[k]` is the first entry with its identity, and that identity was not seen before `xs`. */
  ghost predicate IsFirst<E, H>(xs: seq<E>, k: int, unique: E -> H, seen: set<H>)
    requires 0 <= k < |xs|
  {
    unique(xs[k]) !in seen && forall j :: 0 <= j < k ==> unique(xs[j]) != unique(xs[k])
  }

  /** The entries a single pass of the predicate lets through, starting from the identities `seen`. */
  function Dedup<E, H>(xs: seq<E>, unique: E -> H, seen: set<H>): seq<E>
  {
    if xs == [] then []
    else if unique(xs[0]) in seen then Dedup(xs[1..], unique, seen)
    else [xs[0]] + Dedup(xs[1..], unique, seen + {unique(xs[0])})
  }

  ghost predicate IsSubsequence<E>(a: seq<E>, b: seq<E>)
  {
    if a == [] then true
    else if b == [] then false
    else (a[0] == b[0] && IsSubsequence(a[1..], b[1..])) || IsSubsequence(a, b[1..])
  }

  /** No two kept entries share an identity, and none has an identity seen before. */
  lemma {:induction false} DedupDistinct<E, H>(xs: seq<E>, unique: E -> H, seen: set<H>)
    ensures forall i :: 0 <= i < |Dedup(xs, unique, seen)| ==> unique(Dedup(xs, unique, seen)[i]) !in seen
    ensures forall i, j :: 0 <= i < j < |Dedup(xs, unique, seen)| ==>
      unique(Dedup(xs, unique, seen)[i]) != unique(Dedup(xs, unique, seen)[j])
  {
    if xs != [] {
      var u := unique(xs[0]);
      var r := Dedup(xs, unique, seen);
      if u in seen {
        DedupDistinct(xs[1..], unique, seen);
        assert r == Dedup(xs[1..], unique, seen);
      } else {
        var tail := Dedup(xs[1..], unique, seen + {u});
        DedupDistinct(xs[1..], unique, seen + {u});
        assert r == [xs[0]] + tail;
        assert forall i :: 0 <= i < |tail| ==> unique(tail[i]) !in seen + {u};
        forall i | 0 <= i < |r| ensures unique(r[i]) !in seen {
          if i > 0 { assert r[i] == tail[i - 1]; } else { assert r[i] == xs[0]; }
        }
        forall i, j | 0 <= i < j < |r| ensures unique(r[i]) != unique(r[j]) {
          assert r[j] == tail[j - 1];
          if i > 0 { assert r[i] == tail[i - 1]; } else { assert r[i] == xs[0]; }
        }
      }
    }
  }

  /** Every identity of `xs` not seen before is kept, and nothing else. */
  lemma {:induction false} DedupIdentities<E, H>(xs: seq<E>, unique: E -> H, seen: set<H>)
    ensures Identities(Dedup(xs, unique, seen), unique) == Identities(xs, unique) - seen
  {
    if xs != [] {
      var u := unique(xs[0]);
      var rest := xs[1..];
      assert Identities(xs, unique) == {u} + Identities(rest, unique) by {
        forall h | h in Identities(xs, unique) ensures h in {u} + Identities(rest, unique) {
          var i :| 0 <= i < |xs| && unique(xs[i]) == h;
          if i > 0 { assert unique(rest[i - 1]) == h; }
        }
        forall h | h in Identities(rest, unique) ensures h in Identities(xs, unique) {
          var i :| 0 <= i < |rest| && unique(rest[i]) == h;
          assert unique(xs[i + 1]) == h;
        }
      }
      if u in seen {
        DedupIdentities(rest, unique, seen);
      } else {
        DedupIdentities(rest, unique, seen + {u});
        var r := Dedup(xs, unique, seen);
        var tail := Dedup(rest, unique, seen + {u});
        assert r == [xs[0]] + tail;
        assert Identities(r, unique) == {u} + Identities(tail, unique) by {
          forall h | h in Identities(r, unique) ensures h in {u} + Identities(tail, unique) {
            var i :| 0 <= i < |r| && unique(r[i]) == h;
            if i > 0 { assert unique(tail[i - 1]) == h; }
          }
          forall h | h in Identities(tail, unique) ensures h in Identities(r, unique) {
            var i :| 0 <= i < |tail| && unique(tail[i]) == h;
            assert unique(r[i + 1]) == h;
          }
          assert unique(r[0]) == u;
        }
      }
    }
  }

  /** The kept entries appear in `xs`, in the same order. */
  lemma {:induction false} DedupIsSubsequence<E, H>(xs: seq<E>, unique: E -> H, seen: set<H>)
    ensures IsSubsequence(Dedup(xs, unique, seen), xs)
  {
    if xs != [] {
      var u := unique(xs[0]);
      if u in seen {
        DedupIsSubsequence(xs[1..], unique, seen);
        SubsequenceOfTail(Dedup(xs[1..], unique, seen), xs);
      } else {
        DedupIsSubsequence(xs[1..], unique, seen + {u});
      }
    }
  }

  lemma SubsequenceOfTail<E>(a: seq<E>, b: seq<E>)
    requires b != [] && IsSubsequence(a, b[1..])
    ensures IsSubsequence(a, b)
  {
  }

  /** Each kept entry is the first occurrence of its identity. */
  lemma {:induction false} DedupKeepsFirstOccurrences<E, H>(xs: seq<E>, unique: E -> H, seen: set<H>, m: nat)
    requires m < |Dedup(xs, unique, seen)|
    ensures exists k :: 0 <= k < |xs| && xs[k] == Dedup(xs, unique, seen)[m] && IsFirst(xs, k, unique, seen)
  {
    var u := unique(xs[0]);
    var rest := xs[1..];
    if u in seen {
      DedupKeepsFirstOccurrences(rest, unique, seen, m);
      var k :| 0 <= k < |rest| && rest[k] == Dedup(rest, unique, seen)[m] && IsFirst(rest, k, unique, seen);
      assert xs[k + 1] == rest[k];
      assert IsFirst(xs, k + 1, unique, seen) by {
        forall j | 0 <= j < k + 1 ensures unique(xs[j]) != unique(xs[k + 1]) {
          if j > 0 { assert xs[j] == rest[j - 1]; }
        }
      }
    } else if m == 0 {
      assert IsFirst(xs, 0, unique, seen);
    } else {
      DedupKeepsFirstOccurrences(rest, unique, seen + {u}, m - 1);
      var k :| 0 <= k < |rest| && rest[k] == Dedup(rest, unique, seen + {u})[m - 1]
        && IsFirst(rest, k, unique, seen + {u});
      assert xs[k + 1] == rest[k];
      assert IsFirst(xs, k + 1, unique, seen) by {
        forall j | 0 <= j < k + 1 ensures unique(xs[j]) != unique(xs[k + 1]) {
          if j > 0 { assert xs[j] == rest[j - 1]; }
        }
      }
    }
  }

  /**
   * `duplicate_check(method)`: a predicate with its own set of seen
   * identities. Each construction starts from an empty set, and a call
   * changes no object but its own.
   */
  class DuplicateCheck<E, H(==)> {
    const unique: E -> H
    var state: set<H>

    constructor (unique: E -> H)
      ensures this.unique == unique && state == {}
    {
      this.unique := unique;
      state := {};
    }

    /** `predicate(entry)`: False the first time an identity shows up, True afterwards. */
    method Predicate(entry: E) returns (duplicate: bool)
      modifies this
      ensures duplicate <==> unique(entry) in old(state)
      ensures state == old(state) + {unique(entry)}
    {
      var entryHash := unique(entry);
      if entryHash !in state {
        state := state + {entryHash};
        return false;
      }
      return true;
    }

    /** The predicate applied to `entries` in turn: True exactly for the entries that are not first of their identity. */
    method Classify(entries: seq<E>) returns (verdicts: seq<bool>)
      modifies this
      ensures |verdicts| == |entries|
      ensures forall k :: 0 <= k < |entries| ==> verdicts[k] == !IsFirst(entries, k, unique, old(state))
      ensures state == old(state) + Identities(entries, unique)
    {
      verdicts := [];
      for i := 0 to |entries|
        invariant |verdicts| == i
        invariant forall k :: 0 <= k < i ==> verdicts[k] == !IsFirst(entries, k, unique, old(state))
        invariant state == old(state) + Identities(entries[..i], unique)
      {
        assert unique(entries[i]) in Identities(entries[..i], unique)
          <==> exists j :: 0 <= j < i && unique(entries[j]) == unique(entries[i]) by {
          forall j | 0 <= j < i ensures entries[..i][j] == entries[j] { }
        }
        var duplicate := Predicate(entries[i]);
        verdicts := verdicts + [duplicate];
        assert Identities(entries[..i + 1], unique) == Identities(entries[..i], unique) + {unique(entries[i])} by {
          assert entries[..i + 1] == entries[..i] + [entries[i]];
        }
      }
      assert entries[..|entries|] == entries;
    }

    /** The entries the predicate lets through (it says False for them), in their order. */
    method KeepFirsts(entries: seq<E>) returns (kept: seq<E>)
      modifies this
      ensures kept == Dedup(entries, unique, old(state))
      ensures state == old(state) + Identities(entries, unique)
    {
      kept := [];
      for i := 0 to |entries|
        invariant kept + Dedup(entries[i..], unique, state) == Dedup(entries, unique, old(state))
        invariant state == old(state) + Identities(entries[..i], unique)
      {
        assert entries[i..][1..] == entries[i + 1..];
        ghost var rest := Dedup(entries[i + 1..], unique, state + {unique(entries[i])});
        assert unique(entries[i]) in state ==> state + {unique(entries[i])} == state;
        assert Dedup(entries[i..], unique, state)
          == if unique(entries[i]) in state then rest else [entries[i]] + rest;
        var duplicate := Predicate(entries[i]);
        if !duplicate {
          assert kept + ([entries[i]] + rest) == (kept + [entries[i]]) + rest;
          kept := kept + [entries[i]];
        }
        assert Identities(entries[..i + 1], unique) == Identities(entries[..i], unique) + {unique(entries[i])} by {
          assert entries[..i + 1] == entries[..i] + [entries[i]];
        }
      }
      assert entries[..|entries|] == entries;
    }
  }

  // ---------------------------------------------------------------------
  // tempdir

  /** `os.getenv(key, default)`: the variable's value when it is set, even to "". */
  function GetEnv(env: map<string, string>, key: string, default: string): string
  {
    if key in env then env[key] else default
  }

  /** `tempdir()`: `TMPDIR`, else `TEMP`, else `TMP`, else "/tmp". */
  function TempDir(env: map<string, string>): (dir: string)
    ensures "TMPDIR" in env ==> dir == env["TMPDIR"]
    ensures "TMPDIR" !in env && "TEMP" in env ==> dir == env["TEMP"]
    ensures "TMPDIR" !in env && "TEMP" !in env && "TMP" in env ==> dir == env["TMP"]
    ensures "TMPDIR" !in env && "TEMP" !in env && "TMP" !in env ==> dir == "/tmp"
  {
    GetEnv(env, "TMPDIR", GetEnv(env, "TEMP", GetEnv(env, "TMP", "/tmp")))
  }

  // ---------------------------------------------------------------------
  // initialize_logging

  const Warning := 30

  /** `logging.WARNING - min(logging.WARNING, 10 * verbose_level)`. */
  function LogLevel(verboseLevel: int): (level: int)
    ensures verboseLevel >= 0 ==> 0 <= level <= Warning
    ensures verboseLevel >= 3 ==> level == 0
    ensures 0 <= verboseLevel <= 3 ==> level == Warning - 10 * verboseLevel
  {
    Warning - (if 10 * verboseLevel < Warning then 10 * verboseLevel else Warning)
  }

  /** More verbosity never raises the level. */
  lemma LogLevelNonIncreasing(a: int, b: int)
    requires a <= b
    ensures LogLevel(b) <= LogLevel(a)
  {
  }

  // The fields of the two format strings of lines 50-53, after `{0}`.
  const LevelField := ": %(levelname)s: "
  const FuncNameField := "%(funcName)s: "
  const MessageField := "%(message)s"

  /** The format string with `{0}` replaced by the program name. */
  function LogFormat(verboseLevel: int, program: string): (fmt: string)
    ensures 3 <= verboseLevel ==> fmt == program + LevelField + MessageField
    ensures verboseLevel < 3 ==> fmt == program + LevelField + FuncNameField + MessageField
  {
    if 3 <= verboseLevel then program + LevelField + MessageField
    else program + LevelField + FuncNameField + MessageField
  }

  /**
   * The brief format is chosen exactly from level 3 on, and it is the
   * detailed one with the function-name field taken out.
   */
  lemma LogFormatChoice(verboseLevel: int, program: string)
    ensures LogFormat(verboseLevel, program) == program + LevelField + MessageField <==> 3 <= verboseLevel
    ensures var brief, detailed, k := LogFormat(3, program), LogFormat(2, program), |program| + |LevelField|;
      detailed == brief[..k] + FuncNameField + brief[k..]
  {
    var brief := LogFormat(3, program);
    var k := |program| + |LevelField|;
    assert brief[..k] == program + LevelField;
    assert brief[k..] == MessageField;
    if verboseLevel < 3 {
      assert |LogFormat(verboseLevel, program)| != |brief|;
    }
  }
}
