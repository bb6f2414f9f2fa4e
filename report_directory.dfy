/**
 * The report directory of `beye` (`ReportDirectory`): acquired when the run
 * starts, and on release kept when it holds reports or the user asked to keep
 * it, removed otherwise. The random names `tempfile.mkdtemp` draws are a
 * parameter, and so is the directory `tempfile.gettempdir()` returns.
 */
module ReportDirectories {
  import opened Wrappers
  import opened PosixPath
  import opened FileSystems

  const TmpHint := "/tmp"

  /** The path `mkdtemp(prefix='beye-', suffix='.out')` tries for the random part `random`. */
  function TempName(tempRoot: string, random: string): string
  {
    Join(tempRoot, "beye-" + random + ".out")
  }

  // The messages of lines 83-89, with the directory name filled in.

  function ReviewMessage(name: string): string {
    "Run 'scan-view " + name + "' to examine bug reports."
  }

  function KeptMessage(name: string): string {
    "Report directory '" + name + "' contans no report, but kept."
  }

  function RemovedMessage(name: string): string {
    "Removing directory '" + name + "' because it contains no report."
  }

  /** The three messages differ, so the one logged tells which way the release went. */
  lemma MessagesDistinct(name: string)
    ensures ReviewMessage(name) != KeptMessage(name)
    ensures ReviewMessage(name) != RemovedMessage(name)
    ensures KeptMessage(name) != RemovedMessage(name)
  {
    assert ReviewMessage(name)[1] == 'u';
    assert KeptMessage(name)[1] == 'e' && KeptMessage(name)[2] == 'p';
    assert RemovedMessage(name)[1] == 'e' && RemovedMessage(name)[2] == 'm';
  }

  /**
   * How the `with` block at lines 54-64 ends: `_create` raised and nothing
   * was released; or the directory `dir` was released with `message` logged,
   * after the body completed or after it raised `cause`, which `__exit__`
   * (returning nothing) lets propagate.
   */
  datatype Outcome =
    | NotAcquired(error: OsError)
    | Completed(dir: string, message: string)
    | Raised(dir: string, message: string, cause: string)

  class ReportDirectory {
    const name: string
    const keep: bool

    constructor (name: string, keep: bool)
      ensures this.name == name && this.keep == keep
    {
      this.name := name;
      this.keep := keep;
    }

    /**
     * `tempfile.mkdtemp(prefix='beye-', suffix='.out')`: tries the random names
     * in turn and creates the first path that does not exist yet.
     */
    static method MakeTempDir(fs: FileSystem, tempRoot: string, randoms: seq<string>) returns (r: Result<string, OsError>)
      modifies fs
      ensures r.Success? ==> exists i :: (
        && 0 <= i < |randoms| && r.value == TempName(tempRoot, randoms[i])
        && forall j :: 0 <= j < i ==> TempName(tempRoot, randoms[j]) in old(fs.entries))
      ensures r.Success? ==> r.value !in old(fs.entries) && fs.entries == old(fs.entries)[r.value := 0]
      ensures r.Failure? ==> (
        && r.error == NoUsableTempName && fs.entries == old(fs.entries)
        && forall j :: 0 <= j < |randoms| ==> TempName(tempRoot, randoms[j]) in old(fs.entries))
    {
      var i := 0;
      while i < |randoms|
        invariant 0 <= i <= |randoms|
        invariant fs.entries == old(fs.entries)
        invariant forall j :: 0 <= j < i ==> TempName(tempRoot, randoms[j]) in old(fs.entries)
      {
        var candidate := TempName(tempRoot, randoms[i]);
        var err := fs.Mkdir(candidate);
        if err.None? {
          return Success(candidate);
        }
        i := i + 1;
      }
      return Failure(NoUsableTempName);
    }

    /**
     * `_create(hint)`: the hint "/tmp" asks for a fresh `beye-*.out`
     * directory under the temporary directory; any other hint is created as
     * it is, and an existing one is an error.
     */
    static method Create(fs: FileSystem, hint: string, tempRoot: string, randoms: seq<string>) returns (r: Result<string, OsError>)
      modifies fs
      ensures hint != TmpHint && hint in old(fs.entries) ==>
        r == Failure(FileExists(hint)) && fs.entries == old(fs.entries)
      ensures hint != TmpHint && hint !in old(fs.entries) ==>
        r == Success(hint) && fs.entries == old(fs.entries)[hint := 0]
      ensures hint == TmpHint && r.Success? ==>
        && (exists i :: 0 <= i < |randoms| && r.value == TempName(tempRoot, randoms[i]))
        && r.value !in old(fs.entries) && fs.entries == old(fs.entries)[r.value := 0]
      ensures hint == TmpHint && r.Failure? ==> r.error == NoUsableTempName && fs.entries == old(fs.entries)
    {
      if hint != TmpHint {
        var err := fs.Mkdir(hint);
        if err.Some? {
          return Failure(err.value);
        }
        return Success(hint);
      } else {
        r := MakeTempDir(fs, tempRoot, randoms);
      }
    }

    /** `ReportDirectory(hint, keep)`: creates the directory, or raises what `_create` raises. */
    static method Open(fs: FileSystem, hint: string, keep: bool, tempRoot: string, randoms: seq<string>)
      returns (r: Result<ReportDirectory, OsError>)
      modifies fs
      ensures r.Success? ==> (
        && fresh(r.value) && r.value.keep == keep
        && r.value.name !in old(fs.entries) && fs.entries == old(fs.entries)[r.value.name := 0]
        && (hint != TmpHint ==> r.value.name == hint))
      ensures r.Failure? ==> (
        && fs.entries == old(fs.entries)
        && (hint != TmpHint ==> hint in old(fs.entries) && r.error == FileExists(hint)))
    {
      var created := Create(fs, hint, tempRoot, randoms);
      if created.Failure? {
        return Failure(created.error);
      }
      var dir := new ReportDirectory(created.value, keep);
      return Success(dir);
    }

    /**
     * `__exit__`: a directory with entries is kept; an empty one is kept
     * when `keep` is set and removed otherwise. The result is the message
     * logged, or the error `os.listdir` raises for a missing directory.
     */
    method Exit(fs: FileSystem) returns (r: Result<string, OsError>)
      modifies fs
      ensures name !in old(fs.entries) ==> r == Failure(FileNotFound(name)) && fs.entries == old(fs.entries)
      ensures name in old(fs.entries) && old(fs.entries)[name] > 0 ==>
        r == Success(ReviewMessage(name)) && fs.entries == old(fs.entries)
      ensures name in old(fs.entries) && old(fs.entries)[name] == 0 && keep ==>
        r == Success(KeptMessage(name)) && fs.entries == old(fs.entries)
      ensures name in old(fs.entries) && old(fs.entries)[name] == 0 && !keep ==>
        r == Success(RemovedMessage(name)) && fs.entries == old(fs.entries) - {name}
    {
      var listed := fs.ListDir(name);
      if listed.Failure? {
        return Failure(listed.error);
      }
      if listed.value > 0 {
        r := Success(ReviewMessage(name));
      } else if keep {
        r := Success(KeptMessage(name));
      } else {
        var err := fs.Rmdir(name);
        r := Success(RemovedMessage(name));
      }
    }
  }

  /**
   * The `with ReportDirectory(...)` block of lines 54-64, with the body
   * writing `written` report files into the directory and then returning
   * (`bodyError` is `None`) or raising. The release runs either way, and
   * afterwards the directory exists exactly when it holds reports or `keep`
   * is set.
   */
  method WithReportDirectory(fs: FileSystem, hint: string, keep: bool, tempRoot: string, randoms: seq<string>,
                             written: nat, bodyError: Option<string>)
    returns (r: Outcome)
    modifies fs
    ensures r.NotAcquired? ==> fs.entries == old(fs.entries)
    ensures r.NotAcquired? && hint != TmpHint ==> hint in old(fs.entries) && r.error == FileExists(hint)
    ensures !r.NotAcquired? ==> (
      && (r.Completed? <==> bodyError.None?)
      && (r.Raised? ==> bodyError == Some(r.cause)))
    ensures !r.NotAcquired? ==>
      var dir := r.dir;
      && dir !in old(fs.entries)
      && (hint != TmpHint ==> dir == hint)
      && (dir in fs.entries <==> written > 0 || keep)
      && (written > 0 ==> r.message == ReviewMessage(dir) && fs.entries == old(fs.entries)[dir := written])
      && (written == 0 && keep ==> r.message == KeptMessage(dir) && fs.entries == old(fs.entries)[dir := 0])
      && (written == 0 && !keep ==> r.message == RemovedMessage(dir) && fs.entries == old(fs.entries))
  {
    var acquired := ReportDirectory.Open(fs, hint, keep, tempRoot, randoms);
    if acquired.Failure? {
      return NotAcquired(acquired.error);
    }
    var out := acquired.value;
    fs.AddEntries(out.name, written);
    var released := out.Exit(fs);
    assert released.Success?;
    assert old(fs.entries)[out.name := 0][out.name := written] == old(fs.entries)[out.name := written];
    assert old(fs.entries)[out.name := 0] - {out.name} == old(fs.entries);
    if bodyError.Some? {
      r := Raised(out.name, released.value, bodyError.value);
    } else {
      r := Completed(out.name, released.value);
    }
  }
}
