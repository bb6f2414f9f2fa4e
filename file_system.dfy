/**
 * The part of the file system the report directory touches, as an abstract
 * state: the existing directories, each with the number of entries it holds.
 * `os.mkdir`, `os.rmdir` and `os.listdir` are modelled on it.
 */
module FileSystems {
  import opened Wrappers

  datatype OsError =
    | FileExists(path: string)
    | FileNotFound(path: string)
    | DirectoryNotEmpty(path: string)
    | NoUsableTempName

  class FileSystem {
    /** The existing directories (the keys) and how many entries each one holds. */
    var entries: map<string, nat>

    constructor (entries: map<string, nat>)
      ensures this.entries == entries
    {
      this.entries := entries;
    }

    predicate IsDir(path: string)
      reads this
    {
      path in entries
    }

    /** `os.mkdir(path)`: a new empty directory, or `FileExistsError`. */
    method Mkdir(path: string) returns (err: Option<OsError>)
      modifies this
      ensures path in old(entries) ==> err == Some(FileExists(path)) && entries == old(entries)
      ensures path !in old(entries) ==> err == None && entries == old(entries)[path := 0]
    {
      if path in entries {
        err := Some(FileExists(path));
      } else {
        entries := entries[path := 0];
        err := None;
      }
    }

    /** `os.rmdir(path)`: removes an empty directory only. */
    method Rmdir(path: string) returns (err: Option<OsError>)
      modifies this
      ensures path !in old(entries) ==> err == Some(FileNotFound(path)) && entries == old(entries)
      ensures path in old(entries) && old(entries)[path] > 0 ==>
        err == Some(DirectoryNotEmpty(path)) && entries == old(entries)
      ensures path in old(entries) && old(entries)[path] == 0 ==>
        err == None && entries == old(entries) - {path}
    {
      if path !in entries {
        err := Some(FileNotFound(path));
      } else if entries[path] > 0 {
        err := Some(DirectoryNotEmpty(path));
      } else {
        entries := entries - {path};
        err := None;
      }
    }

    /** `len(os.listdir(path))`: the number of entries, or `FileNotFoundError`. */
    method ListDir(path: string) returns (r: Result<nat, OsError>)
      ensures path in entries ==> r == Success(entries[path])
      ensures path !in entries ==> r == Failure(FileNotFound(path))
    {
      if path in entries {
        r := Success(entries[path]);
      } else {
        r := Failure(FileNotFound(path));
      }
    }

    /** The analyzer writing `count` report files into the existing directory `path`. */
    method AddEntries(path: string, count: nat)
      requires path in entries
      modifies this
      ensures entries == old(entries)[path := old(entries)[path] + count]
    {
      entries := entries[path := entries[path] + count];
    }
  }
}
