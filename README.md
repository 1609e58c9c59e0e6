# net-canary core, modelled in Dafny

net-canary is a small honeypot. It runs fake network services. Each service
reports every client interaction as a structured `Event` to an event handler,
and the handler in production is a logger that appends one JSON record per
line to a log file. This project models three parts of it and proves
properties of them:

- the service lifecycle base (`BaseService`: construction, an immutable
  name, `Stop` with or without a bound listener);
- the fake SSH service: binding in `Start`, the cancellation-checked accept
  loop, and the per-connection script (report the attempt, announce
  `SSH-2.0-<banner>\r\n`, read once into a 1024-byte buffer, report the
  client's bytes, answer `Protocol mismatch.\r\n`, close);
- the event logger: the field mapping from `Event` to the log entry, the
  append of one line, the single reopen after a failed write, and `Close`.

The environment is a set of objects whose outcomes are fixed in advance:

- `Net` models Go's `net` package: a network that grants or refuses each
  bind, a listener whose coming `Accept` results are a list, and connections
  whose client bytes and I/O outcomes are fixed.
- `OsFile` models Go's `os` package: a file system mapping paths to bytes,
  where the k-th open, and each handle's j-th write and its close, succeed
  or fail as scripted.
- `Runtime` models a cancellable context, counted in live checks, and the
  wall clock, as a sequence of opaque readings.
- `Effects` holds the `Event` record and a `Trace`: the list of observable
  effects in the order they happen. Every `Write`, `Read` and `Close` on a
  client socket, and every event handed to the SSH service's handler,
  appends one step to the same trace, so the trace fixes how events and
  socket calls interleave.

Methods change these objects in place. Each method's `ensures` states the
new value of every field it may change, in terms of the old state.

Files, one module each: `go_base.dfy` (bytes, strings, errors, `%d`),
`effects.dfy`, `runtime.dfy`, `net.dfy`, `osfile.dfy`, `services.dfy`, `ssh.dfy`,
`logging.dfy`.

What is proved, in short:

- A connection's events follow a fixed order. `connection_attempt` comes
  first and carries `local_addr`. `client_identification` appears exactly
  when the read succeeded, and carries exactly the bytes read (at most 1024).
  Every event names the service and the client.
- The first write is exactly `SSH-2.0-` + banner + `\r\n`. The rejection
  line is written only after a successful read, and it is the last write.
  The socket is closed on every path.
- `HandleConnection` appends exactly the script `Ssh.ConnectionSteps` to
  the shared trace. So the attempt is reported before any byte is written,
  the read follows the banner, the client's bytes are reported before the
  rejection line is written, and the close comes last.
- The accept loop makes exactly one `Accept` per live cancellation check.
  It skips accept errors. Over any run there is one `connection_attempt` per
  accepted client and one `client_identification` per client whose read
  succeeded. These counts, and the order within one connection, hold
  however the connection handlers interleave.
- Because this model serves each connection to completion before the next
  `Accept`, it also proves more: the reported events are the per-connection
  events concatenated in arrival order, and each identification directly
  follows its own client's attempt. In the program each handler runs in its
  own goroutine, so another client's events can come in between; see
  "## Left out".
- The logger copies every event field into the entry unchanged; the
  mapping loses nothing.
- A successful `HandleEvent` appends exactly one record plus `'\n'` to the
  log file and changes nothing else. A log of newline-free records reads
  back as those records, and an append adds exactly one record at the end.
- A serialisation failure touches neither the file nor the handle. A write
  failure causes exactly one reopen and no second write. The reopen's three
  outcomes leave the states stated in `Logging.Logger.ReopenOutcome`.

## Behaviour worth knowing

The model follows the code. These points follow from the source lines
cited and are stated in the contracts named.

- After a failed log write, `HandleEvent` reopens the file once and never
  writes the record again, so the record is lost even when the reopen
  succeeds (internal/logging/logger.go:59-65; `Logging.Logger.HandleEvent`,
  third `ensures`).
- When the reopen's close succeeds but its open fails, `l.file` keeps the
  now-closed handle (internal/logging/logger.go:77-86). Every later write
  then fails, and every later reopen fails at the close, so the logger never
  writes again: `HandleEvent`'s last `ensures` states that a closed handle
  stays in place and the file system is not changed. The same holds after a
  failed close.
- `handleConnection` sets no read deadline before its single `Read`
  (internal/services/ssh.go:74-78). The model's `Read` never blocks.
- The SSH script emits only `connection_attempt` and
  `client_identification` (internal/services/ssh.go:64, 85).
- `Stop` does not clear the listener, so a second `Stop` closes it again and
  returns the error of closing a closed socket
  (internal/services/service.go:52-57; `Services.BaseService.Stop`).
- Cancellation is observed only between two `Accept` calls
  (internal/services/ssh.go:43-47). A blocked `Accept` is ended by `Stop`
  closing the listener, after which the loop sees accept errors until it
  next checks the context.

## Model

| member | source | states |
|---|---|---|
| `GoBase.DecimalRoundTrip` | internal/services/ssh.go:28 | the decimal text `%d` prints for any integer reads back as that integer |
| `Ssh.Address` | internal/services/ssh.go:28 | the listen address is the host, then `:`, then text that reads back as the port |
| `Runtime.Context.Done` | internal/services/ssh.go:43-46 | a check reports cancellation exactly when no live check is left, and cancellation persists |
| `Runtime.Clock.Now` | internal/services/ssh.go:63 | each call takes the next clock reading |
| `Net.Network.Listen` | internal/services/ssh.go:29-32 | binding fails exactly for an unavailable address; otherwise a fresh open listener with the address's scripted clients |
| `Net.Listener.Accept` | internal/services/ssh.go:47-50 | a closed or exhausted listener returns an error; otherwise the next scripted outcome is consumed, and a client gives a fresh open connection |
| `Net.Listener.Close` | internal/services/service.go:53-54 | the listener is closed; the call errs exactly when it was already closed or the close is faulty |
| `Net.Conn.Write` | internal/services/ssh.go:71 | the bytes are recorded as the next write and appended to the trace as a `Send`; the result is an error exactly on a closed or failing socket |
| `Net.Conn.Read` | internal/services/ssh.go:74-78 | an error exactly on a closed or failing socket or at end of stream, with nothing consumed and the buffer unchanged; otherwise the buffer's prefix holds the next bytes, at most its size, the rest of the buffer is unchanged, and the bytes are consumed; the trace gains a `Receive` of what was delivered |
| `Net.Conn.Close` | internal/services/ssh.go:57 | the connection is closed and the trace gains a `Hangup`; it errs exactly when already closed |
| `Services.EventRecorder.HandleEvent` | internal/services/service.go:17-20 | the event handler receives events in order and keeps each one unchanged; each is appended to the trace as it arrives |
| `Services.BaseService.constructor` | internal/services/service.go:41-50 | the service has the given name (returned by `Name`, fixed forever), the given handler, and no listener |
| `Services.BaseService.Stop` | internal/services/service.go:52-57 | without a listener: nil and no effect; with one: that listener's `Close` result, listener kept, so a second `Stop` closes again and errs |
| `Ssh.BannerLine` | internal/services/ssh.go:71 | the announced line is exactly `SSH-2.0-`, the banner, `\r\n` |
| `Ssh.FirstRead` | internal/services/ssh.go:74-78 | the read into the 1024-byte buffer succeeds exactly when the socket works and the client sent bytes; then it yields a nonempty prefix of them, the whole message or exactly 1024 bytes |
| `Ssh.ConnectionEvents` | internal/services/ssh.go:60-89 | one event per clock reading the connection takes |
| `Ssh.ConnectionEventsFacts` | internal/services/ssh.go:60-89 | first event `connection_attempt` with `local_addr`; a second, `client_identification` with `client_version` = the bytes read, exactly when the read succeeded; all carry the service name, the client address and successive clock readings |
| `Ssh.ConnectionWrites` | internal/services/ssh.go:71-95 | the banner line is written first; `Protocol mismatch.\r\n` is written second and last, exactly when the read succeeded |
| `Ssh.ConnectionSteps` | internal/services/ssh.go:56-96 | the script is report, announce, read; after a successful read it goes on with the `client_identification` report, then the rejection line, before the hang-up; a failed read hangs up at once; the hang-up comes last and nowhere else |
| `Ssh.StepsAgree` | internal/services/ssh.go:56-96 | the events of the interleaved script are the connection's events, and its writes are the connection's writes |
| `Ssh.ReplayAppend` | internal/services/ssh.go:41-54 | handling arrivals in two runs produces the first run's output, then the second's at the later clock readings |
| `Ssh.ServedAppend` | internal/services/ssh.go:41-54 | serving more arrivals appends their events after those already reported, and their clock readings after those already taken |
| `Ssh.ServedTicks` | internal/services/ssh.go:60-89 | the accept loop takes exactly one clock reading per event it reports |
| `Ssh.ServedStepsAppend` | internal/services/ssh.go:41-54 | serving more arrivals appends their effects after those already caused |
| `Ssh.ServedStepsAgree` | internal/services/ssh.go:41-89 | the events in the accept loop's trace are exactly the events it reports to the handler |
| `Ssh.ServedSnoc` | internal/services/ssh.go:47-51 | serving one more arrival appends exactly its events |
| `Ssh.ServedSingle` | internal/services/ssh.go:47-51 | one arrival reports its own events and causes its own effects: none for an accept error, its connection's for a client |
| `Ssh.Handled` | internal/services/ssh.go:42-50 | the loop takes a prefix of the scripted arrivals: one per live check while any remain, none from a closed listener |
| `Ssh.HandledNext` | internal/services/ssh.go:42-50 | one more live check takes at most the next arrival and nothing else |
| `Ssh.ServedCounts` | internal/services/ssh.go:47-89 | one `connection_attempt` per accepted client and one `client_identification` per client whose read succeeded; accept errors report nothing |
| `Ssh.ConnectionCounts` | internal/services/ssh.go:60-89 | one connection reports exactly one `connection_attempt`, and one `client_identification` exactly when its read succeeded |
| `Ssh.ServedOrder` | internal/services/ssh.go:47-89 | with connections served one after another, every `client_identification` directly follows the `connection_attempt` of the same client; this adjacency comes from sequential dispatch and is not a property of the goroutine-per-connection program |
| `Ssh.SshService.constructor` | internal/services/ssh.go:18-25 | the service is named `ssh`, has the given handler and no listener, and stores port, host and banner unchanged |
| `Ssh.SshService.Start` | internal/services/ssh.go:27-39 | a refused bind returns the wrapped bind error and changes nothing; a granted bind sets a fresh open listener on the address, with its close outcome, no close made, and the arrivals the accept loop left; the loop serves the address's clients, reporting their events and appending their effects to the trace |
| `Ssh.SshService.AcceptConnections` | internal/services/ssh.go:41-54 | one `Accept` per live check; the clients taken are the prefix `Handled` names; the reported events are their served events, and the trace gains their scripts, in order; the clock moves by their readings |
| `Ssh.SshService.AcceptNext` | internal/services/ssh.go:46-51 | one `Accept`; an error is skipped and reports nothing; a client is served to completion and its script is appended to the trace |
| `Ssh.SshService.HandleConnection` | internal/services/ssh.go:56-96 | the shared trace gains exactly the script `ConnectionSteps`: attempt reported, banner written, one read, then after a successful read the identification reported and the rejection written, and the close last; the handler's events, the socket's writes, the client bytes left unread and the clock readings taken are stated as well |
| `OsFile.FileSystem.OpenFile` | internal/logging/logger.go:29-31 | a refused open creates nothing and errs; a granted one returns a fresh open handle on the path and creates the file empty if missing |
| `OsFile.FileHandle.Write` | internal/logging/logger.go:59-60 | an append-mode write adds the bytes at the file's end, or errs and changes nothing; never succeeds on a closed handle |
| `OsFile.FileHandle.Close` | internal/logging/logger.go:72 | the handle ends closed; the close errs when already closed or faulty |
| `Logging.EntryOf` | internal/logging/logger.go:42-48 | the entry holds the event's timestamp, service name, remote address, type and details unchanged: the event reads back from it |
| `Logging.EntryOfOnto` | internal/logging/logger.go:19-25 | every entry is the entry of exactly one event |
| `Logging.Line` | internal/logging/logger.go:59 | one record becomes its bytes followed by a single `'\n'` |
| `Logging.SplitJoin` | internal/logging/logger.go:53-59 | a log of newline-free records, one per line, reads back as exactly those records |
| `Logging.JoinSnoc` | internal/logging/logger.go:59 | appending a line to the log adds one record at the end |
| `Logging.AppendRecord` | internal/logging/logger.go:53-65 | after an append the earlier records read back unchanged and the new one follows |
| `Logging.Logger.constructor` | internal/logging/logger.go:34-37 | the logger holds the opened handle and the path, and has reported nothing |
| `Logging.Logger.HandleEvent` | internal/logging/logger.go:41-66 | serialisation failure: one diagnostic, file system and handle untouched; written: exactly one record line appended to the log file, nothing else changed; write failure: log contents unchanged, one write diagnostic, one reopen with the outcome `ReopenOutcome` states (including the whole file system), no retry; a closed handle stays in place and nothing is ever written through it |
| `Logging.Logger.ReopenFile` | internal/logging/logger.go:76-88 | the old handle is closed first; a failed close errs without opening; a failed open errs and keeps the old handle; otherwise `file` is a fresh handle on the same path |
| `Logging.Logger.Close` | internal/logging/logger.go:69-73 | closes the current handle and returns its result |
| `Logging.NewLogger` | internal/logging/logger.go:28-38 | a failed open returns nil and the wrapped error; otherwise a logger on the fresh handle and the given path |

## Left out

- Concurrency: each `go` statement is a plain call, so a connection is
  served to completion before the next `Accept`. `Start` runs the accept loop
  before returning. The logger's mutex is left out, and each `HandleEvent`
  is one atomic step. Of what is proved about the accept loop, the order
  within one connection (`Ssh.ConnectionSteps`, `Ssh.ConnectionEventsFacts`)
  and the counts (`Ssh.ServedCounts`) carry over to the program, where the
  handlers of several clients run at once.
- Ssh.ServedOrder: "each identification directly follows its own client's
  attempt" holds only under sequential dispatch. With a goroutine per
  connection, client A's handler can block in `Read` while B is accepted and
  reported, so B's attempt can come between A's two events.
- Ssh.SshService.AcceptConnections: its events and trace are the
  per-connection ones concatenated in arrival order. With concurrent
  handlers they interleave, and only each connection's own order is kept.
- Ssh.SshService.Start: its `ensures` describes the state after the accept
  loop has run. In Go, `Start` returns as soon as the loop has been spawned.
- The `EventHandler` interface: this model has no interface types. The SSH
  service reports to an in-memory `EventRecorder`, and `Logger` is modelled
  as a separate class with the same `HandleEvent` operation. The wiring of
  the one into the other, which main.go does, is not modelled.
- main.go (flags, signals, WaitGroup, shutdown order) and
  internal/config/config.go (YAML loading) are not part of this model.
- `json.Marshal`: the exact bytes are not modelled. `Logger.marshal` is an
  arbitrary function from entries to bytes-or-failure. `Logging.SplitJoin`
  and `Logging.AppendRecord` assume records contain no raw newline byte,
  which holds for compact JSON output.
- Timestamps are opaque readings of the clock (`Clock.reading`), and the
  RFC 3339 format is not modelled. `time.Sleep(500ms)` has no observable
  effect and is a no-op.
- Console output: the `fmt.Printf` in `Start` is left out. The messages
  printed to standard error become a list of `Diagnostic` values.
- Blocking: an `Accept` with no client waiting, or on a closed listener,
  returns an error instead of blocking. A `Read` with nothing sent reads as
  end of stream. Cancellation is a count of the checks that still find the
  context live, which also bounds the loop.
- Net.Conn.Read: delivers all waiting bytes up to the buffer size, not an
  arbitrary shorter amount. A failing read delivers no bytes, although Go
  allows bytes together with an error.
- OsFile.FileHandle.Write: writes all of the bytes or none. The partial
  writes Go allows are not modelled.
- Net.Network.Listen: binding never marks the address as taken, so a second
  bind of an address this process already holds succeeds in the model. Go's
  `net.Listen` would fail with "address in use" unless the port is 0. Each
  service is started once, so no contract depends on this.
- Go's `int` is modelled as an unbounded integer. The port only appears in
  the address text, where width does not matter.
