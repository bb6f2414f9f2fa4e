/**
 * The common-prefix resolver of `beye` (`common` inside `get_prefix_from`):
 * the directories of the compilation database's files are folded with
 * `os.path.commonprefix`, and the result falls back to its `dirname` when it
 * is not a directory. `isdir` is membership in an abstract set of directories.
 */
module CommonPrefix {
  import opened Wrappers
  import opened PosixPath

  predicate AllHavePrefix(p: string, files: seq<string>) {
    forall i :: 0 <= i < |files| ==> IsPrefix(p, files[i])
  }

  /** `p` is a prefix of every path, and every common prefix is a prefix of `p`. */
  ghost predicate IsLongestCommonPrefix(p: string, files: seq<string>) {
    AllHavePrefix(p, files) && forall q :: AllHavePrefix(q, files) ==> IsPrefix(q, p)
  }

  /** The accumulator `result` after the loop of lines 358-360 has read `files`. */
  function Fold(files: seq<string>): Option<string>
  {
    if files == [] then None
    else
      match Fold(files[..|files| - 1])
      case None => Some(files[|files| - 1])
      case Some(acc) => Some(CommonPrefix(acc, files[|files| - 1]))
  }

  /** What `common` returns (lines 362-367). */
  function Resolve(files: seq<string>, dirs: set<string>): string
  {
    match Fold(files)
    case None => ""
    case Some(p) => if p in dirs then p else Dirname(p)
  }

  /** The fold is unset only for no paths, and is otherwise their longest common prefix. */
  lemma {:induction false} FoldIsLongestCommonPrefix(files: seq<string>)
    ensures Fold(files).None? <==> files == []
    ensures Fold(files).Some? ==> IsLongestCommonPrefix(Fold(files).value, files)
  {
    if files != [] {
      var init, last := files[..|files| - 1], files[|files| - 1];
      FoldIsLongestCommonPrefix(init);
      var p := Fold(files).value;
      if init == [] {
        assert files == [last];
        forall q | AllHavePrefix(q, files) ensures IsPrefix(q, p) {
          assert IsPrefix(q, files[0]);
        }
      } else {
        var acc := Fold(init).value;
        assert p == CommonPrefix(acc, last);
        forall i | 0 <= i < |files| ensures IsPrefix(p, files[i]) {
          if i < |init| {
            assert files[i] == init[i];
            PrefixTransitive(p, acc, init[i]);
          }
        }
        forall q | AllHavePrefix(q, files) ensures IsPrefix(q, p) {
          assert AllHavePrefix(q, init) by {
            forall i | 0 <= i < |init| ensures IsPrefix(q, init[i]) {
              assert init[i] == files[i];
            }
          }
          assert IsPrefix(q, files[|files| - 1]);
          CommonPrefixMaximal(acc, last, q);
        }
      }
    }
  }

  /** There is only one longest common prefix, so the fold's order does not matter. */
  lemma LongestCommonPrefixUnique(p: string, q: string, files: seq<string>)
    requires IsLongestCommonPrefix(p, files) && IsLongestCommonPrefix(q, files)
    ensures p == q
  {
    assert IsPrefix(q, p) && IsPrefix(p, q);
  }

  /**
   * `common` gives "" for no paths; otherwise it takes the longest common
   * prefix, kept when it is a directory and replaced by its `dirname` when it
   * is not. Either way the result is a prefix of every path.
   */
  lemma ResolveSpec(files: seq<string>, dirs: set<string>)
    ensures files == [] ==> Resolve(files, dirs) == ""
    ensures files != [] ==> exists p ::
      && IsLongestCommonPrefix(p, files)
      && (p in dirs ==> Resolve(files, dirs) == p)
      && (p !in dirs ==> Resolve(files, dirs) == Dirname(p))
    ensures AllHavePrefix(Resolve(files, dirs), files)
  {
    FoldIsLongestCommonPrefix(files);
    if files != [] {
      var p := Fold(files).value;
      DirnameAtBoundary(p);
      forall i | 0 <= i < |files| ensures IsPrefix(Resolve(files, dirs), files[i]) {
        PrefixTransitive(Resolve(files, dirs), p, files[i]);
      }
    }
  }

  /** `common(files)`, with `os.path.isdir` as membership in `dirs`. */
  method Common(files: seq<string>, dirs: set<string>) returns (r: string)
    ensures r == Resolve(files, dirs)
  {
    var result: Option<string> := None;
    for i := 0 to |files|
      invariant result == Fold(files[..i])
    {
      assert files[..i + 1][..i] == files[..i];
      result := if result.None? then Some(files[i]) else Some(CommonPrefix(result.value, files[i]));
    }
    assert files[..|files|] == files;
    if result.None? {
      r := "";
    } else if result.value !in dirs {
      r := Dirname(result.value);
    } else {
      r := result.value;
    }
  }

  /** `filenames()` (lines 369-372): the directory of each entry's source file. */
  function Directories(entryFiles: seq<string>): (dirsOf: seq<string>)
    ensures |dirsOf| == |entryFiles|
    ensures forall i :: 0 <= i < |entryFiles| ==> dirsOf[i] == Dirname(entryFiles[i])
  {
    if entryFiles == [] then [] else [Dirname(entryFiles[0])] + Directories(entryFiles[1..])
  }

  /** `get_prefix_from`, with the database already read into the list of entry file names. */
  method GetPrefixFrom(entryFiles: seq<string>, dirs: set<string>) returns (r: string)
    ensures r == Resolve(Directories(entryFiles), dirs)
  {
    r := Common(Directories(entryFiles), dirs);
  }

  // ---------------------------------------------------------------------
  // The character-wise prefix is not a path prefix. When it happens to name
  // an existing directory it is kept, although it may only be a prefix of
  // another entry's directory name ("/src/lib" of "/src/lib2").

  /** `q` is `f` itself or one of its ancestor directories ("" standing for the relative root). */
  predicate IsPathPrefix(q: string, f: string) {
    IsPrefix(q, f) && (q == [] || |q| == |f| || q[|q| - 1] == '/' || f[|q|] == '/')
  }

  /** `q` is an ancestor of every path. */
  predicate AllHavePathPrefix(q: string, files: seq<string>) {
    forall i :: 0 <= i < |files| ==> IsPathPrefix(q, files[i])
  }

  /** The fold of the two sibling directories `/src/lib` and `/src/lib2` is `/src/lib`. */
  lemma SiblingsFold()
    ensures Fold(["/src/lib", "/src/lib2"]) == Some("/src/lib")
  {
    var files := ["/src/lib", "/src/lib2"];
    FoldIsLongestCommonPrefix(files);
    var p := Fold(files).value;
    assert AllHavePrefix("/src/lib", files) by {
      assert files[1][..8] == "/src/lib";
    }
    assert IsPrefix(p, files[0]);
  }

  /** `common` keeps "/src/lib" for "/src/lib" and "/src/lib2", which is no ancestor of "/src/lib2". */
  lemma AsWrittenCutsThroughName()
    ensures var files := ["/src/lib", "/src/lib2"];
      Resolve(files, {"/src/lib"}) == "/src/lib" && !IsPathPrefix("/src/lib", files[1])
  {
    SiblingsFold();
    assert "/src/lib2"[8] == '2';
  }

  /** The evidently intended result: the longest common prefix when it ends at a path boundary of every path, else its `dirname`. */
  function CommonPath(files: seq<string>): (r: string)
    ensures AllHavePathPrefix(r, files)
  {
    FoldIsLongestCommonPrefix(files);
    match Fold(files)
    case None => ""
    case Some(p) =>
      if AllHavePathPrefix(p, files) then p
      else
        assert AllHavePathPrefix(Dirname(p), files) by {
          forall i | 0 <= i < |files| ensures IsPathPrefix(Dirname(p), files[i]) {
            DirnameIsPathPrefix(p, files[i]);
          }
        }
        Dirname(p)
  }

  /** The `dirname` of a prefix of `f` is an ancestor directory of `f`. */
  lemma DirnameIsPathPrefix(p: string, f: string)
    requires IsPrefix(p, f)
    ensures IsPathPrefix(Dirname(p), f)
  {
    DirnameAtBoundary(p);
    PrefixTransitive(Dirname(p), p, f);
  }

  /** `dirname` keeps every leading part of `p` that a separator follows. */
  lemma DirnameKeepsAncestor(p: string, q: string)
    requires IsPrefix(q, p) && |q| < |p| && p[|q|] == '/'
    requires q != [] && q[|q| - 1] != '/'
    ensures IsPrefix(q, Dirname(p))
  {
    var a := AfterLastSep(p);
    assert a > |q|;
    var head := p[..a];
    assert head[|q| - 1] != '/';
    var r := RStripSeps(head);
    assert |r| >= |q|;
    assert q == head[..|q|] == r[..|q|];
  }

  /**
   * The corrected resolver gives the deepest common ancestor: every
   * directory (written without a trailing separator) that is an ancestor
   * of all paths is a prefix of its result.
   */
  lemma CommonPathMaximal(files: seq<string>, q: string)
    requires files != []
    requires AllHavePathPrefix(q, files)
    requires q == [] || q[|q| - 1] != '/'
    ensures IsPrefix(q, CommonPath(files))
  {
    FoldIsLongestCommonPrefix(files);
    var p := Fold(files).value;
    assert AllHavePrefix(q, files) by {
      forall i | 0 <= i < |files| ensures IsPrefix(q, files[i]) {
        assert IsPathPrefix(q, files[i]);
      }
    }
    assert IsPrefix(q, p);
    if q != [] && !AllHavePathPrefix(p, files) {
      var i :| 0 <= i < |files| && !IsPathPrefix(p, files[i]);
      assert IsPrefix(p, files[i]);
      assert IsPathPrefix(q, files[i]);
      assert q != p;
      assert |q| < |p|;
      assert p[|q|] == files[i][|q|] == '/';
      DirnameKeepsAncestor(p, q);
    }
  }

  /** `os.path.dirname("/src/lib")` is `/src`. */
  lemma DirnameOfLib()
    ensures Dirname("/src/lib") == "/src"
  {
    var p := "/src/lib";
    assert p[4] == '/' && p[5] == 'l' && p[6] == 'i' && p[7] == 'b';
    assert AfterLastSep(p) == 5;
    assert "/src/lib"[..5] == "/src/";
    assert RStripSeps("/src/") == "/src";
  }

  /** For `/src/lib` and `/src/lib2` the corrected resolver gives `/src`. */
  lemma CommonPathOfSiblings()
    ensures CommonPath(["/src/lib", "/src/lib2"]) == "/src"
  {
    SiblingsFold();
    assert !IsPathPrefix("/src/lib", ["/src/lib", "/src/lib2"][1]) by {
      assert "/src/lib2"[8] == '2';
    }
    DirnameOfLib();
  }
}
