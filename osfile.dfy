/** The part of Go's `os` package the logger uses: a file system holding
    byte contents by path, and files opened with
    `O_APPEND|O_CREATE|O_WRONLY`. Whether an open, a write or a close
    succeeds is scripted by the environment. */
module OsFile {
  import opened GoBase

  /** How the k-th `os.OpenFile` call ends: refused, or a file whose j-th
      `Write` succeeds when `writeOk(j)` and whose `Close` succeeds when
      `closeOk`. */
  datatype OpenOutcome = Refused | Opens(writeOk: nat -> bool, closeOk: bool)

  class FileSystem {
    var files: map<GoString, seq<byte>>
    const outcome: nat -> OpenOutcome
    var opens: nat

    constructor (files: map<GoString, seq<byte>>, outcome: nat -> OpenOutcome)
      ensures this.files == files && this.outcome == outcome && opens == 0
    {
      this.files, this.outcome := files, outcome;
      opens := 0;
    }

    /** The bytes stored at `path`; a missing file reads as empty. */
    function Contents(path: GoString): seq<byte>
      reads this
    {
      if path in files then files[path] else []
    }

    /** Whether the next `OpenFile` call will succeed. */
    predicate WillOpen()
      reads this
    {
      outcome(opens).Opens?
    }

    /** `os.OpenFile(path, os.O_APPEND|os.O_CREATE|os.O_WRONLY, 0644)`: a
        refused open creates nothing; a granted one creates the file empty
        if it is missing and leaves existing contents as they are. */
    method OpenFile(path: GoString) returns (f: FileHandle?, err: Option<Error>)
      modifies this
      ensures opens == old(opens) + 1
      ensures (f == null) <==> err.Some?
      ensures err.Some? <==> !old(WillOpen())
      ensures err.Some? ==> err == Some(OpenFailed) && files == old(files)
      ensures err.None? ==>
        fresh(f) && f.fs == this && f.path == path && !f.closed && f.writes == 0 &&
        f.writeOk == old(outcome(opens)).writeOk && f.closeOk == old(outcome(opens)).closeOk &&
        files == old(files)[path := old(Contents(path))]
    {
      var o := outcome(opens);
      opens := opens + 1;
      if o.Refused? {
        return null, Some(OpenFailed);
      }
      files := files[path := Contents(path)];
      f := new FileHandle(this, path, o.writeOk, o.closeOk);
      err := None;
    }
  }

  /** An open `*os.File`. `writes` counts the `Write` calls made on it. */
  class FileHandle {
    const fs: FileSystem
    const path: GoString
    const writeOk: nat -> bool
    const closeOk: bool
    var writes: nat
    var closed: bool

    constructor (fs: FileSystem, path: GoString, writeOk: nat -> bool, closeOk: bool)
      ensures this.fs == fs && this.path == path && this.writeOk == writeOk && this.closeOk == closeOk
      ensures writes == 0 && !closed
    {
      this.fs, this.path, this.writeOk, this.closeOk := fs, path, writeOk, closeOk;
      writes, closed := 0, false;
    }

    /** Whether the next `Write` will succeed: never on a closed file. */
    predicate WillWrite()
      reads this
    {
      !closed && writeOk(writes)
    }

    /** `Close` fails on a file already closed and when the system reports an error. */
    predicate WillClose()
      reads this
    {
      !closed && closeOk
    }

    /** `Write` in append mode: the bytes go to the end of the file, all of
        them or none. */
    method Write(data: seq<byte>) returns (err: Option<Error>)
      modifies this, fs
      ensures writes == old(writes) + 1 && closed == old(closed)
      ensures fs.opens == old(fs.opens)
      ensures err.None? <==> old(WillWrite())
      ensures err.None? ==> fs.files == old(fs.files)[path := old(fs.Contents(path)) + data]
      ensures err.Some? ==> err == Some(WriteFailed) && fs.files == old(fs.files)
    {
      var ok := WillWrite();
      writes := writes + 1;
      if !ok {
        return Some(WriteFailed);
      }
      fs.files := fs.files[path := fs.Contents(path) + data];
      err := None;
    }

    /** `Close`: the handle is unusable afterwards whether or not the close
        reported an error. */
    method Close() returns (err: Option<Error>)
      modifies this
      ensures closed && writes == old(writes)
      ensures err.None? <==> old(WillClose())
      ensures err.Some? ==> err == Some(CloseFailed)
    {
      err := if WillClose() then None else Some(CloseFailed);
      closed := true;
    }
  }
}
