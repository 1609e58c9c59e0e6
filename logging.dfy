/** The event logger of internal/logging/logger.go: every `Event` becomes a
    log entry, serialised onto one line appended to the log file; a failed
    write is followed by one attempt to reopen the file. */
module Logging {
  import opened GoBase
  import opened Effects
  import opened OsFile

  const NEWLINE: byte := 10

  /** `logEntry`, whose fields `json.Marshal` writes under the keys
      `timestamp`, `service`, `remote_addr`, `event_type` and `details`. */
  datatype LogEntry = LogEntry(
    timestamp: GoString,
    service: GoString,
    remoteAddr: GoString,
    eventType: GoString,
    details: map<GoString, GoString>)

  /** The entry `HandleEvent` builds: each field of the event is copied
      unchanged, so the event can be read back from its entry. */
  function EntryOf(event: Event): (entry: LogEntry)
    ensures EventOf(entry) == event
  {
    LogEntry(event.timestamp, event.serviceName, event.remoteAddr, event.eventType, event.details)
  }

  /** Reading an entry back as the event it records. */
  function EventOf(entry: LogEntry): Event
  {
    Event(entry.service, entry.remoteAddr, entry.timestamp, entry.eventType, entry.details)
  }

  /** Every entry is the entry of exactly one event: the mapping drops no field. */
  lemma EntryOfOnto(entry: LogEntry)
    ensures EntryOf(EventOf(entry)) == entry
    ensures forall e: Event :: EntryOf(e) == entry ==> e == EventOf(entry)
  {
  }

  /** `append(data, '\n')`: one record as one line. */
  function Line(record: seq<byte>): (line: seq<byte>)
    ensures |line| == |record| + 1 && line[..|record|] == record && line[|record|] == NEWLINE
  {
    record + [NEWLINE]
  }

  /** The log file holding `records`, in order, one per line. */
  function JoinLines(records: seq<seq<byte>>): seq<byte>
  {
    if records == [] then [] else Line(records[0]) + JoinLines(records[1..])
  }

  /** The first position of `b` in `s`. */
  function FirstIndex(s: seq<byte>, b: byte): (i: nat)
    requires b in s
    ensures i < |s| && s[i] == b && b !in s[..i]
  {
    if s[0] == b then 0
    else
      var i := 1 + FirstIndex(s[1..], b);
      assert s[..i] == [s[0]] + s[1..][..i - 1];
      i
  }

  /** How a reader splits the log into lines: at every newline, with an
      unterminated last line kept as a line of its own. */
  function SplitLines(s: seq<byte>): seq<seq<byte>>
    decreases |s|
  {
    if s == [] then []
    else if NEWLINE !in s then [s]
    else
      var i := FirstIndex(s, NEWLINE);
      [s[..i]] + SplitLines(s[i + 1..])
  }

  predicate NoNewline(record: seq<byte>)
  {
    NEWLINE !in record
  }

  /** A record without a raw newline ends at the newline that follows it. */
  lemma FirstNewlineAfter(record: seq<byte>, rest: seq<byte>)
    requires NoNewline(record)
    ensures var s := Line(record) + rest;
      NEWLINE in s && FirstIndex(s, NEWLINE) == |record| && s[..|record|] == record && s[|record| + 1..] == rest
  {
    var s := Line(record) + rest;
    assert s[|record|] == NEWLINE;
    var i := FirstIndex(s, NEWLINE);
    forall j | 0 <= j < |record|
      ensures s[j] != NEWLINE
    {
      assert s[j] == record[j];
    }
    forall j | 0 <= j < i
      ensures s[j] != NEWLINE
    {
      assert s[..i][j] == s[j];
    }
  }

  /** Reading back a log of newline-free records gives the records, each as
      one complete line. */
  lemma {:induction false} SplitJoin(records: seq<seq<byte>>)
    requires forall k | 0 <= k < |records| :: NoNewline(records[k])
    ensures SplitLines(JoinLines(records)) == records
  {
    if records != [] {
      var rest := JoinLines(records[1..]);
      FirstNewlineAfter(records[0], rest);
      SplitJoin(records[1..]);
      assert [records[0]] + records[1..] == records;
    }
  }

  /** Appending one line extends the log by one record. */
  lemma {:induction false} JoinSnoc(records: seq<seq<byte>>, record: seq<byte>)
    ensures JoinLines(records + [record]) == JoinLines(records) + Line(record)
  {
    if records == [] {
      assert [] + [record] == [record];
      assert [record][1..] == [];
    } else {
      assert (records + [record])[0] == records[0];
      assert (records + [record])[1..] == records[1..] + [record];
      JoinSnoc(records[1..], record);
    }
  }

  /** After `HandleEvent` appends its line to a log of newline-free
      records, a reader sees the earlier records unchanged, then the new one. */
  lemma AppendRecord(records: seq<seq<byte>>, record: seq<byte>)
    requires forall k | 0 <= k < |records| :: NoNewline(records[k])
    requires NoNewline(record)
    ensures SplitLines(JoinLines(records) + Line(record)) == records + [record]
  {
    JoinSnoc(records, record);
    SplitJoin(records + [record]);
  }

  /** What the logger reports on standard error. */
  datatype Diagnostic =
    | MarshalError
    | WriteError(err: Error)
    | ReopenError(err: Error)

  /** `Logger`. `fs` is the host's file system, a global in Go; `marshal`
      stands for `json.Marshal`, which may fail; `diagnostics` are the
      messages printed to standard error, in order. `HandleEvent` runs
      under the mutex, so each call is one atomic step. */
  class Logger {
    var file: FileHandle
    const filepath: GoString
    const fs: FileSystem
    const marshal: LogEntry -> Option<seq<byte>>
    var diagnostics: seq<Diagnostic>

    /** The handle in `file` is always one opened on `filepath`. */
    ghost predicate Valid()
      reads this, file
    {
      file.fs == fs && file.path == filepath
    }

    constructor (file: FileHandle, filepath: GoString, fs: FileSystem, marshal: LogEntry -> Option<seq<byte>>)
      requires file.fs == fs && file.path == filepath
      ensures Valid()
      ensures this.file == file && this.filepath == filepath && this.fs == fs && this.marshal == marshal
      ensures diagnostics == []
    {
      this.file, this.filepath, this.fs, this.marshal := file, filepath, fs, marshal;
      diagnostics := [];
    }

    /** `HandleEvent`: build the entry, serialise it, append one line.
        Nothing is returned to the caller: a failure is only reported.
        After a failed write there is exactly one reopen and no second
        write, so the record is lost even when the reopen succeeds. */
    method HandleEvent(event: Event)
      requires Valid()
      modifies this, file, fs
      ensures Valid()
      ensures var record := marshal(EntryOf(event));
        record.None? ==>
          file == old(file) && file.closed == old(file.closed) && file.writes == old(file.writes) &&
          fs.files == old(fs.files) && fs.opens == old(fs.opens) &&
          diagnostics == old(diagnostics) + [MarshalError]
      ensures var record := marshal(EntryOf(event));
        record.Some? && old(file.WillWrite()) ==>
          file == old(file) && !file.closed && file.writes == old(file.writes) + 1 &&
          fs.files == old(fs.files)[filepath := old(fs.Contents(filepath)) + Line(record.value)] &&
          fs.opens == old(fs.opens) && diagnostics == old(diagnostics)
      ensures var record := marshal(EntryOf(event));
        record.Some? && !old(file.WillWrite()) ==>
          old(file).closed && old(file).writes == old(file.writes) + 1 &&
          fs.Contents(filepath) == old(fs.Contents(filepath)) &&
          ReopenOutcome(old(file), old(file.WillClose()), old(fs.WillOpen()), old(fs.files), old(fs.opens), old(diagnostics) + [WriteError(WriteFailed)])
      ensures old(file.closed) ==> file == old(file) && file.closed && fs.files == old(fs.files) && fs.opens == old(fs.opens)
    {
      var entry := EntryOf(event);
      var data := marshal(entry);
      if data.None? {
        diagnostics := diagnostics + [MarshalError];
        return;
      }
      var err := file.Write(Line(data.value));
      if err.Some? {
        diagnostics := diagnostics + [WriteError(err.value)];
        var rerr := ReopenFile();
        if rerr.Some? {
          diagnostics := diagnostics + [ReopenError(rerr.value)];
        }
      }
    }

    /** The state `reopenFile` leaves, as seen by `HandleEvent`: the old
        handle is closed in any case; it stays in `file` unless both its
        close and the new open succeeded; each failure adds its diagnostic
        to `before`. */
    ghost predicate ReopenOutcome(old_file: FileHandle, closes: bool, opens: bool,
                                  files0: map<GoString, seq<byte>>, opens0: nat, before: seq<Diagnostic>)
      reads this, file, fs
    {
      && (!closes ==>
            file == old_file && fs.opens == opens0 && fs.files == files0 &&
            diagnostics == before + [ReopenError(CloseFailed)])
      && (closes && !opens ==>
            file == old_file && fs.opens == opens0 + 1 && fs.files == files0 &&
            diagnostics == before + [ReopenError(OpenFailed)])
      && (closes && opens ==>
            file != old_file && !file.closed && file.writes == 0 && fs.opens == opens0 + 1 &&
            fs.outcome(opens0).Opens? && file.writeOk == fs.outcome(opens0).writeOk && file.closeOk == fs.outcome(opens0).closeOk &&
            fs.files == files0[filepath := if filepath in files0 then files0[filepath] else []] &&
            diagnostics == before)
    }

    /** `reopenFile`: close the current handle; if that fails, stop. Then
        open `filepath` again; only if that succeeds is `file` replaced. */
    method ReopenFile() returns (err: Option<Error>)
      requires Valid()
      modifies this, file, fs
      ensures Valid() && diagnostics == old(diagnostics)
      ensures old(file).closed && old(file).writes == old(file.writes)
      ensures !old(file.WillClose()) ==>
        err == Some(CloseFailed) && file == old(file) && fs.opens == old(fs.opens) && fs.files == old(fs.files)
      ensures old(file.WillClose()) && !old(fs.WillOpen()) ==>
        err == Some(OpenFailed) && file == old(file) && fs.opens == old(fs.opens) + 1 && fs.files == old(fs.files)
      ensures old(file.WillClose()) && old(fs.WillOpen()) ==>
        err.None? && fresh(file) && !file.closed && file.writes == 0 && fs.opens == old(fs.opens) + 1 &&
        file.writeOk == fs.outcome(old(fs.opens)).writeOk && file.closeOk == fs.outcome(old(fs.opens)).closeOk &&
        fs.files == old(fs.files)[filepath := old(fs.Contents(filepath))]
    {
      err := file.Close();
      if err.Some? {
        return;
      }
      var f, oerr := fs.OpenFile(filepath);
      if oerr.Some? {
        return oerr;
      }
      file := f;
    }

    /** `Close`: close the current handle and return what that returns. */
    method Close() returns (err: Option<Error>)
      modifies file
      ensures file == old(file) && file.closed && file.writes == old(file.writes)
      ensures err.None? <==> old(file.WillClose())
    {
      err := file.Close();
    }
  }

  /** `NewLogger`: open `filepath` for appending, creating it if missing. */
  method NewLogger(fs: FileSystem, filepath: GoString, marshal: LogEntry -> Option<seq<byte>>)
    returns (l: Logger?, err: Option<Error>)
    modifies fs
    ensures fs.opens == old(fs.opens) + 1
    ensures err.Some? <==> !old(fs.WillOpen())
    ensures err.Some? ==> l == null && err == Some(LogOpenFailed(OpenFailed)) && fs.files == old(fs.files)
    ensures err.None? ==>
      l != null && fresh(l) && fresh(l.file) && l.Valid() &&
      l.filepath == filepath && l.fs == fs && l.marshal == marshal && l.diagnostics == [] &&
      !l.file.closed && l.file.writes == 0 &&
      l.file.writeOk == fs.outcome(old(fs.opens)).writeOk && l.file.closeOk == fs.outcome(old(fs.opens)).closeOk &&
      fs.files == old(fs.files)[filepath := old(fs.Contents(filepath))]
  {
    var file, oerr := fs.OpenFile(filepath);
    if oerr.Some? {
      return null, Some(LogOpenFailed(oerr.value));
    }
    l := new Logger(file, filepath, fs, marshal);
    err := None;
  }
}
