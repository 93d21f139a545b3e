/** The per-session storage files on disk, as a set of paths. */
module SessionFiles {

  const SessionsDir: string := "storage/sessions"

  /** `filepath.Join("storage/sessions", id + ".db")` for uuid-shaped ids, which contain no separator and no `..` for `Join` to clean. */
  function SessionPath(id: string): (p: string)
    ensures |p| == |SessionsDir| + 1 + |id| + 3
    ensures p[|SessionsDir| + 1..|p| - 3] == id
  {
    SessionsDir + "/" + id + ".db"
  }

  /** Distinct sessions never share a storage file. */
  lemma SessionPathInjective(a: string, b: string)
    requires SessionPath(a) == SessionPath(b)
    ensures a == b
  {
    var p := SessionPath(a);
    assert a == p[|SessionsDir| + 1..|p| - 3];
  }

  class Disk {
    var files: set<string>

    constructor (files: set<string>)
      ensures this.files == files
    {
      this.files := files;
    }

    /** `os.MkdirAll` of the sessions directory followed by the store creating its file. */
    method Create(path: string)
      modifies this
      ensures files == old(files) + {path}
    {
      files := files + {path};
    }

    /** `os.Remove`: fails when the file is absent or the system reports a fault. */
    method Remove(path: string, fault: bool) returns (err: bool)
      modifies this
      ensures err == (fault || path !in old(files))
      ensures files == if err then old(files) else old(files) - {path}
    {
      err := fault || path !in files;
      if !err {
        files := files - {path};
      }
    }
  }
}
