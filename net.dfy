/** The part of Go's `net` package the SSH service uses, as objects whose
    outcomes are scripted by the environment: a listening socket, the
    connections it accepts, and the network that grants or refuses a bind. */
module Net {
  import opened GoBase
  import opened Effects

  /** What the client at the far end of one connection will do. `inbox` is
      the bytes it has sent and not yet read; an empty inbox reads as end of
      stream. `readFault` and `writeOk` fix how the socket's I/O calls end. */
  datatype Peer = Peer(remote: GoString, local: GoString, inbox: seq<byte>, readFault: bool, writeOk: bool)

  /** One outcome of `Listener.Accept`: a client, or an accept error. */
  datatype Arrival = Client(peer: Peer) | AcceptFault

  /** An accepted `net.Conn`. `writes` records every `Write` call in order;
      every `Write`, `Read` and `Close` also appends its step to `trace`. */
  class Conn {
    const remote: GoString
    const local: GoString
    var inbox: seq<byte>
    const readFault: bool
    const writeOk: bool
    var writes: seq<GoString>
    var closed: bool
    const trace: Trace

    constructor (p: Peer, trace: Trace)
      ensures Script() == p && writes == [] && !closed && this.trace == trace
    {
      this.trace := trace;
      remote, local, inbox := p.remote, p.local, p.inbox;
      readFault, writeOk := p.readFault, p.writeOk;
      writes, closed := [], false;
    }

    /** The client's remaining behaviour. */
    ghost function Script(): Peer
      reads this
    {
      Peer(remote, local, inbox, readFault, writeOk)
    }

    /** `conn.RemoteAddr().String()`. */
    function RemoteAddr(): GoString
    {
      remote
    }

    /** `conn.LocalAddr().String()`. */
    function LocalAddr(): GoString
    {
      local
    }

    method Write(data: GoString) returns (err: Option<Error>)
      modifies this, trace
      ensures writes == old(writes) + [data] && trace.steps == old(trace.steps) + [Send(data)]
      ensures inbox == old(inbox) && closed == old(closed)
      ensures err.None? <==> !closed && writeOk
      ensures err.Some? ==> err == Some(WriteFailed)
    {
      writes := writes + [data];
      err := if !closed && writeOk then None else Some(WriteFailed);
      trace.Record(Send(data));
    }

    /** Reads at most `buf.Length` of the bytes the client sent. */
    method Read(buf: array<byte>) returns (n: nat, err: Option<Error>)
      modifies this, buf, trace
      ensures writes == old(writes) && closed == old(closed)
      ensures err.Some? <==> closed || readFault || old(inbox) == []
      ensures err.Some? ==>
        err == Some(ReadFailed) && n == 0 && inbox == old(inbox) && buf[..] == old(buf[..]) &&
        trace.steps == old(trace.steps) + [Receive(None)]
      ensures err.None? ==> n == Min(|old(inbox)|, buf.Length)
      ensures err.None? ==>
        buf[..n] == old(inbox)[..n] && buf[n..] == old(buf[n..]) && inbox == old(inbox)[n..] &&
        trace.steps == old(trace.steps) + [Receive(Some(old(inbox)[..n]))]
    {
      if closed || readFault || inbox == [] {
        n, err := 0, Some(ReadFailed);
        trace.Record(Receive(None));
        return;
      }
      n := Min(|inbox|, buf.Length);
      forall i | 0 <= i < n {
        buf[i] := inbox[i];
      }
      trace.Record(Receive(Some(inbox[..n])));
      inbox := inbox[n..];
      err := None;
    }

    method Close() returns (err: Option<Error>)
      modifies this, trace
      ensures closed && trace.steps == old(trace.steps) + [Hangup]
      ensures writes == old(writes) && inbox == old(inbox)
      ensures err.Some? <==> old(closed)
      ensures err.Some? ==> err == Some(CloseFailed)
    {
      err := if closed then Some(CloseFailed) else None;
      closed := true;
      trace.Record(Hangup);
    }
  }

  /** A bound `net.Listener`. `pending` is the scripted sequence of
      outcomes of the coming `Accept` calls; `accepts` and `closes` count the
      calls made. The connections it accepts report to `trace`. */
  class Listener {
    const addr: GoString
    const trace: Trace
    var pending: seq<Arrival>
    var closed: bool
    const closeOk: bool
    var accepts: nat
    var closes: nat

    constructor (addr: GoString, arrivals: seq<Arrival>, closeOk: bool, trace: Trace)
      ensures this.addr == addr && pending == arrivals && this.closeOk == closeOk && this.trace == trace
      ensures !closed && accepts == 0 && closes == 0
    {
      this.addr, pending, this.closeOk, this.trace := addr, arrivals, closeOk, trace;
      closed, accepts, closes := false, 0, 0;
    }

    /** A closed listener, and one with no client left to deliver, report an
        error instead of blocking. */
    method Accept() returns (conn: Conn?, err: Option<Error>)
      modifies this
      ensures accepts == old(accepts) + 1 && closes == old(closes) && closed == old(closed)
      ensures (conn == null) <==> err.Some?
      ensures old(closed) || old(pending) == [] ==> conn == null && pending == old(pending)
      ensures !old(closed) && old(pending) != [] ==>
        pending == old(pending)[1..] &&
        match old(pending)[0]
        case AcceptFault => conn == null
        case Client(p) =>
          conn != null && fresh(conn) && conn.Script() == p && conn.writes == [] && !conn.closed && conn.trace == trace
    {
      accepts := accepts + 1;
      if closed || pending == [] {
        conn, err := null, Some(AcceptFailed);
        return;
      }
      var next := pending[0];
      pending := pending[1..];
      match next
      case AcceptFault =>
        conn, err := null, Some(AcceptFailed);
      case Client(p) =>
        conn := new Conn(p, trace);
        err := None;
    }

    /** Closing twice reports an error, as closing a closed socket does. */
    method Close() returns (err: Option<Error>)
      modifies this
      ensures closed && closes == old(closes) + 1
      ensures pending == old(pending) && accepts == old(accepts)
      ensures err.Some? <==> old(closed) || !closeOk
    {
      err := if closed || !closeOk then Some(CloseFailed) else None;
      closed := true;
      closes := closes + 1;
    }
  }

  /** The host's network: which addresses cannot be bound, which clients
      will connect to each address, and whose listener reports an error on
      close. `trace` observes the connections of every listener. */
  class Network {
    const unavailable: set<GoString>
    const arrivals: map<GoString, seq<Arrival>>
    const closeFaults: set<GoString>
    const trace: Trace

    constructor (unavailable: set<GoString>, arrivals: map<GoString, seq<Arrival>>, closeFaults: set<GoString>, trace: Trace)
      ensures this.unavailable == unavailable && this.arrivals == arrivals && this.closeFaults == closeFaults
      ensures this.trace == trace
    {
      this.unavailable, this.arrivals, this.closeFaults, this.trace := unavailable, arrivals, closeFaults, trace;
    }

    /** The clients that will connect to `addr`. */
    function ArrivalsAt(addr: GoString): seq<Arrival>
    {
      if addr in arrivals then arrivals[addr] else []
    }

    /** `net.Listen("tcp", addr)`. */
    method Listen(addr: GoString) returns (l: Listener?, err: Option<Error>)
      ensures err.Some? <==> addr in unavailable
      ensures err.Some? ==> l == null && err == Some(BindFailed)
      ensures err.None? ==> l != null && fresh(l) && l.addr == addr && !l.closed
      ensures err.None? ==> l.pending == ArrivalsAt(addr) && l.closeOk == (addr !in closeFaults)
      ensures err.None? ==> l.accepts == 0 && l.closes == 0 && l.trace == trace
    {
      if addr in unavailable {
        l, err := null, Some(BindFailed);
      } else {
        l := new Listener(addr, ArrivalsAt(addr), addr !in closeFaults, trace);
        err := None;
      }
    }
  }
}
