/** The fake SSH service of internal/services/ssh.go: bind, the accept loop,
    and the per-connection script (announce, read one client message, log
    it, reject). Each connection is served to completion before the next
    `Accept`: the goroutine per connection is modelled as a call. */
module Ssh {
  import opened GoBase
  import opened Runtime
  import opened Net
  import opened Services
  import opened Effects

  const SERVICE_NAME: GoString := Lit("ssh")
  const VERSION_PREFIX: GoString := Lit("SSH-2.0-")
  const CRLF: GoString := Lit("\r\n")
  const MISMATCH: GoString := Lit("Protocol mismatch.\r\n")
  const CONNECTION_ATTEMPT: GoString := Lit("connection_attempt")
  const CLIENT_IDENTIFICATION: GoString := Lit("client_identification")
  const LOCAL_ADDR: GoString := Lit("local_addr")
  const CLIENT_VERSION: GoString := Lit("client_version")

  /** Size of the buffer the client's first message is read into. */
  const BUFFER_SIZE: nat := 1024

  /** `fmt.Sprintf("%s:%d", host, port)`. */
  function Address(host: GoString, port: int): (addr: GoString)
    ensures |addr| > |host| && addr[..|host|] == host && addr[|host|] == Lit(":")[0]
    ensures DecimalValue(addr[|host| + 1..]) == port
  {
    var addr := host + Lit(":") + Decimal(port);
    assert addr[|host| + 1..] == Decimal(port);
    DecimalRoundTrip(port);
    addr
  }

  /** The version line the server announces: `SSH-2.0-<banner>\r\n`. */
  function BannerLine(banner: GoString): (line: GoString)
    ensures |line| == |VERSION_PREFIX| + |banner| + |CRLF|
    ensures line[..|VERSION_PREFIX|] == VERSION_PREFIX
    ensures line[|VERSION_PREFIX|..|line| - |CRLF|] == banner
    ensures line[|line| - |CRLF|..] == CRLF
  {
    VERSION_PREFIX + banner + CRLF
  }

  /** What the single `Read` into the 1024-byte buffer delivers: nothing
      when the read fails, otherwise the client's first bytes, cut at the
      buffer size. */
  function FirstRead(p: Peer): (r: Option<seq<byte>>)
    ensures r.Some? <==> !p.readFault && p.inbox != []
    ensures r.Some? ==> 0 < |r.value| <= BUFFER_SIZE && |r.value| <= |p.inbox| && r.value == p.inbox[..|r.value|]
    ensures r.Some? ==> |r.value| == BUFFER_SIZE || r.value == p.inbox
  {
    if p.readFault || p.inbox == [] then None else Some(p.inbox[..Min(|p.inbox|, BUFFER_SIZE)])
  }

  /** The `connection_attempt` event. */
  function AttemptEvent(name: GoString, p: Peer, stamp: GoString): Event
  {
    Event(name, p.remote, stamp, CONNECTION_ATTEMPT, map[LOCAL_ADDR := p.local])
  }

  /** The `client_identification` event carrying the bytes read. */
  function IdentificationEvent(name: GoString, p: Peer, stamp: GoString, version: seq<byte>): Event
  {
    Event(name, p.remote, stamp, CLIENT_IDENTIFICATION, map[CLIENT_VERSION := version])
  }

  /** The events one connection reports, in order, when the clock's next
      readings are `reading(tick)`, `reading(tick + 1)`, ... */
  function ConnectionEvents(name: GoString, p: Peer, reading: nat -> GoString, tick: nat): (evs: seq<Event>)
    ensures |evs| == ConnectionTicks(p)
  {
    var r := FirstRead(p);
    [AttemptEvent(name, p, reading(tick))] +
    (if r.Some? then [IdentificationEvent(name, p, reading(tick + 1), r.value)] else [])
  }

  /** Clock readings one connection takes. */
  function ConnectionTicks(p: Peer): nat
  {
    if FirstRead(p).Some? then 2 else 1
  }

  /** A connection first reports a `connection_attempt` with its local
      address; it reports a `client_identification` holding the bytes read
      exactly when the read succeeded; every event names the service and the
      client, and takes the next clock reading. */
  lemma ConnectionEventsFacts(name: GoString, p: Peer, reading: nat -> GoString, tick: nat)
    ensures var evs := ConnectionEvents(name, p, reading, tick);
      && (|evs| == 2 <==> FirstRead(p).Some?)
      && evs[0].eventType == CONNECTION_ATTEMPT && evs[0].details == map[LOCAL_ADDR := p.local]
      && (|evs| == 2 ==>
            evs[1].eventType == CLIENT_IDENTIFICATION && evs[1].details == map[CLIENT_VERSION := FirstRead(p).value])
      && (forall i | 0 <= i < |evs| ::
            evs[i].serviceName == name && evs[i].remoteAddr == p.remote && evs[i].timestamp == reading(tick + i))
  {
  }

  /** The bytes one connection is sent, one entry per `Write`. */
  function ConnectionWrites(banner: GoString, p: Peer): (ws: seq<GoString>)
    ensures 1 <= |ws| <= 2 && ws[0] == BannerLine(banner)
    ensures |ws| == 2 <==> FirstRead(p).Some?
    ensures |ws| == 2 ==> ws[1] == MISMATCH
  {
    [BannerLine(banner)] + (if FirstRead(p).Some? then [MISMATCH] else [])
  }

  /** The events among `steps`, in order. */
  function Emitted(steps: seq<Step>): seq<Event>
  {
    if steps == [] then []
    else Emitted(steps[..|steps| - 1]) + (if steps[|steps| - 1].Emit? then [steps[|steps| - 1].event] else [])
  }

  /** The data written among `steps`, in order. */
  function Sent(steps: seq<Step>): seq<GoString>
  {
    if steps == [] then []
    else Sent(steps[..|steps| - 1]) + (if steps[|steps| - 1].Send? then [steps[|steps| - 1].data] else [])
  }

  /** The whole script of one connection, events and socket calls interleaved. */
  function ConnectionSteps(name: GoString, banner: GoString, p: Peer, reading: nat -> GoString, tick: nat): (steps: seq<Step>)
    ensures 4 <= |steps| <= 6
    ensures steps[0] == Emit(AttemptEvent(name, p, reading(tick)))
    ensures steps[1] == Send(BannerLine(banner))
    ensures steps[2] == Receive(FirstRead(p))
    ensures steps[|steps| - 1] == Hangup && forall i | 0 <= i < |steps| - 1 :: !steps[i].Hangup?
    ensures FirstRead(p).None? ==> |steps| == 4
    ensures FirstRead(p).Some? ==>
      |steps| == 6 && steps[3] == Emit(IdentificationEvent(name, p, reading(tick + 1), FirstRead(p).value)) &&
      steps[4] == Send(MISMATCH)
  {
    var r := FirstRead(p);
    [Emit(AttemptEvent(name, p, reading(tick))), Send(BannerLine(banner)), Receive(r)] +
    (if r.Some? then [Emit(IdentificationEvent(name, p, reading(tick + 1), r.value)), Send(MISMATCH)] else []) +
    [Hangup]
  }

  lemma EmittedSnoc(steps: seq<Step>, s: Step)
    ensures Emitted(steps + [s]) == Emitted(steps) + (if s.Emit? then [s.event] else [])
    ensures Sent(steps + [s]) == Sent(steps) + (if s.Send? then [s.data] else [])
  {
  }

  /** The opening of every connection script: report, announce, read. */
  lemma Opening(a: Step, b: Step, c: Step)
    requires a.Emit? && b.Send? && c.Receive?
    ensures Emitted([a, b, c]) == [a.event] && Sent([a, b, c]) == [b.data]
  {
    assert [] + [a] == [a] && [a] + [b] == [a, b] && [a, b] + [c] == [a, b, c];
    EmittedSnoc([], a);
    EmittedSnoc([a], b);
    EmittedSnoc([a, b], c);
  }

  /** The rest of a script whose read succeeded: report, reject, close. */
  lemma Closing(opening: seq<Step>, d: Step, e: Step)
    requires d.Emit? && e.Send?
    ensures Emitted(opening + [d, e, Hangup]) == Emitted(opening) + [d.event]
    ensures Sent(opening + [d, e, Hangup]) == Sent(opening) + [e.data]
  {
    assert opening + [d, e, Hangup] == opening + [d] + [e] + [Hangup];
    EmittedSnoc(opening, d);
    EmittedSnoc(opening + [d], e);
    EmittedSnoc(opening + [d] + [e], Hangup);
  }

  /** The script's events are `ConnectionEvents` and its writes are
      `ConnectionWrites`. The order between events and writes is the one
      `ConnectionSteps` fixes. */
  lemma StepsAgree(name: GoString, banner: GoString, p: Peer, reading: nat -> GoString, tick: nat)
    ensures Emitted(ConnectionSteps(name, banner, p, reading, tick)) == ConnectionEvents(name, p, reading, tick)
    ensures Sent(ConnectionSteps(name, banner, p, reading, tick)) == ConnectionWrites(banner, p)
  {
    var r := FirstRead(p);
    var a := Emit(AttemptEvent(name, p, reading(tick)));
    var b := Send(BannerLine(banner));
    var c := Receive(r);
    Opening(a, b, c);
    if r.Some? {
      var d := Emit(IdentificationEvent(name, p, reading(tick + 1), r.value));
      var e := Send(MISMATCH);
      Closing([a, b, c], d, e);
      assert ConnectionSteps(name, banner, p, reading, tick) == [a, b, c] + [d, e, Hangup];
    } else {
      EmittedSnoc([a, b, c], Hangup);
      assert ConnectionSteps(name, banner, p, reading, tick) == [a, b, c] + [Hangup];
    }
  }

  /** Events one outcome of `Accept` leads to. */
  function ArrivalEvents(name: GoString, a: Arrival, reading: nat -> GoString, tick: nat): seq<Event>
  {
    match a
    case AcceptFault => []
    case Client(p) => ConnectionEvents(name, p, reading, tick)
  }

  /** What handling `xs` one after another produces, when handling `x`
      with the clock at reading `t` produces `f(x, t)` and takes `cost(x)`
      clock readings. */
  function Replay<A, E>(f: (A, nat) -> seq<E>, cost: A -> nat, xs: seq<A>, tick: nat): seq<E>
  {
    if xs == [] then []
    else f(xs[0], tick) + Replay(f, cost, xs[1..], tick + cost(xs[0]))
  }

  /** The clock readings handling `xs` takes. */
  function Cost<A>(cost: A -> nat, xs: seq<A>): nat
  {
    if xs == [] then 0 else cost(xs[0]) + Cost(cost, xs[1..])
  }

  lemma {:induction false} CostAppend<A>(cost: A -> nat, xs: seq<A>, ys: seq<A>)
    ensures Cost(cost, xs + ys) == Cost(cost, xs) + Cost(cost, ys)
  {
    if xs == [] {
      assert xs + ys == ys;
    } else {
      assert (xs + ys)[0] == xs[0] && (xs + ys)[1..] == xs[1..] + ys;
      CostAppend(cost, xs[1..], ys);
    }
  }

  /** Handling `ys` after `xs` produces what `xs` produces, then what `ys`
      produces once the clock has moved on. */
  lemma {:induction false} ReplayAppend<A, E>(f: (A, nat) -> seq<E>, cost: A -> nat, xs: seq<A>, ys: seq<A>, tick: nat)
    ensures Replay(f, cost, xs + ys, tick) == Replay(f, cost, xs, tick) + Replay(f, cost, ys, tick + Cost(cost, xs))
  {
    if xs == [] {
      assert xs + ys == ys;
    } else {
      assert (xs + ys)[0] == xs[0] && (xs + ys)[1..] == xs[1..] + ys;
      ReplayAppend(f, cost, xs[1..], ys, tick + cost(xs[0]));
    }
  }

  lemma ReplaySingle<A, E>(f: (A, nat) -> seq<E>, cost: A -> nat, x: A, tick: nat)
    ensures Replay(f, cost, [x], tick) == f(x, tick) && Cost(cost, [x]) == cost(x)
  {
    assert [x][0] == x && [x][1..] == [];
  }

  /** How one outcome of `Accept` is handled: no clock reading for an
      accept error, the connection's readings for a client. */
  function ArrivalTicks(a: Arrival): nat
  {
    match a
    case AcceptFault => 0
    case Client(p) => ConnectionTicks(p)
  }

  /** The effects one outcome of `Accept` leads to. */
  function ArrivalSteps(name: GoString, banner: GoString, a: Arrival, reading: nat -> GoString, tick: nat): seq<Step>
  {
    match a
    case AcceptFault => []
    case Client(p) => ConnectionSteps(name, banner, p, reading, tick)
  }

  function Reporter(name: GoString, reading: nat -> GoString): (Arrival, nat) -> seq<Event>
  {
    (a: Arrival, t: nat) => ArrivalEvents(name, a, reading, t)
  }

  function Stepper(name: GoString, banner: GoString, reading: nat -> GoString): (Arrival, nat) -> seq<Step>
  {
    (a: Arrival, t: nat) => ArrivalSteps(name, banner, a, reading, t)
  }

  /** Events the accept loop reports for the arrivals it handled, in order. */
  function Served(name: GoString, arrivals: seq<Arrival>, reading: nat -> GoString, tick: nat): seq<Event>
  {
    Replay(Reporter(name, reading), ArrivalTicks, arrivals, tick)
  }

  /** The effects the accept loop causes for the arrivals it handled, in order. */
  function ServedSteps(name: GoString, banner: GoString, arrivals: seq<Arrival>, reading: nat -> GoString, tick: nat): seq<Step>
  {
    Replay(Stepper(name, banner, reading), ArrivalTicks, arrivals, tick)
  }

  /** Clock readings the accept loop takes for the arrivals it handled. */
  function Ticks(arrivals: seq<Arrival>): nat
  {
    Cost(ArrivalTicks, arrivals)
  }

  /** The clock advances by exactly one reading per reported event. */
  lemma {:induction false} ServedTicks(name: GoString, arrivals: seq<Arrival>, reading: nat -> GoString, tick: nat)
    ensures |Served(name, arrivals, reading, tick)| == Ticks(arrivals)
  {
    if arrivals != [] {
      ServedTicks(name, arrivals[1..], reading, tick + ArrivalTicks(arrivals[0]));
    }
  }

  /** Serving `more` after `handled` reports what `handled` reports, then
      what `more` reports once the clock has moved on. */
  lemma ServedAppend(name: GoString, handled: seq<Arrival>, more: seq<Arrival>, reading: nat -> GoString, tick: nat)
    ensures Served(name, handled + more, reading, tick) ==
      Served(name, handled, reading, tick) + Served(name, more, reading, tick + Ticks(handled))
    ensures Ticks(handled + more) == Ticks(handled) + Ticks(more)
  {
    ReplayAppend(Reporter(name, reading), ArrivalTicks, handled, more, tick);
    CostAppend(ArrivalTicks, handled, more);
  }

  /** Serving `more` after `handled` causes the effects of `handled`, then
      those of `more`. */
  lemma ServedStepsAppend(name: GoString, banner: GoString, handled: seq<Arrival>, more: seq<Arrival>, reading: nat -> GoString, tick: nat)
    ensures ServedSteps(name, banner, handled + more, reading, tick) ==
      ServedSteps(name, banner, handled, reading, tick) + ServedSteps(name, banner, more, reading, tick + Ticks(handled))
  {
    ReplayAppend(Stepper(name, banner, reading), ArrivalTicks, handled, more, tick);
  }

  /** A single arrival reports its own events and causes its own effects. */
  lemma ServedSingle(name: GoString, banner: GoString, a: Arrival, reading: nat -> GoString, tick: nat)
    ensures Served(name, [a], reading, tick) == ArrivalEvents(name, a, reading, tick)
    ensures ServedSteps(name, banner, [a], reading, tick) == ArrivalSteps(name, banner, a, reading, tick)
    ensures Ticks([a]) == ArrivalTicks(a)
  {
    ReplaySingle(Reporter(name, reading), ArrivalTicks, a, tick);
    ReplaySingle(Stepper(name, banner, reading), ArrivalTicks, a, tick);
  }

  /** Serving one more arrival reports that arrival's events at the next clock reading. */
  lemma ServedSnoc(name: GoString, handled: seq<Arrival>, a: Arrival, reading: nat -> GoString, tick: nat)
    ensures Served(name, handled + [a], reading, tick) ==
      Served(name, handled, reading, tick) + ArrivalEvents(name, a, reading, tick + Ticks(handled))
  {
    ReplayAppend(Reporter(name, reading), ArrivalTicks, handled, [a], tick);
    ReplaySingle(Reporter(name, reading), ArrivalTicks, a, tick + Ticks(handled));
  }

  lemma {:induction false} EmittedAppend(xs: seq<Step>, ys: seq<Step>)
    ensures Emitted(xs + ys) == Emitted(xs) + Emitted(ys)
    ensures Sent(xs + ys) == Sent(xs) + Sent(ys)
  {
    if ys == [] {
      assert xs + ys == xs;
    } else {
      var init := ys[..|ys| - 1];
      assert xs + ys == (xs + init) + [ys[|ys| - 1]];
      assert ys == init + [ys[|ys| - 1]];
      EmittedAppend(xs, init);
      EmittedSnoc(xs + init, ys[|ys| - 1]);
      EmittedSnoc(init, ys[|ys| - 1]);
    }
  }

  /** The events among the accept loop's effects are exactly the events it
      reports to the handler. */
  lemma {:induction false} ServedStepsAgree(name: GoString, banner: GoString, arrivals: seq<Arrival>, reading: nat -> GoString, tick: nat)
    ensures Emitted(ServedSteps(name, banner, arrivals, reading, tick)) == Served(name, arrivals, reading, tick)
  {
    if arrivals != [] {
      var a := arrivals[0];
      var next := tick + ArrivalTicks(a);
      ServedStepsAgree(name, banner, arrivals[1..], reading, next);
      EmittedAppend(ArrivalSteps(name, banner, a, reading, tick), ServedSteps(name, banner, arrivals[1..], reading, next));
      match a
      case AcceptFault =>
      case Client(p) =>
        StepsAgree(name, banner, p, reading, tick);
    }
  }

  /** The arrivals that `n` cancellation checks let the loop take from a
      listener in the given state: none from a closed listener, one per
      live check otherwise, as long as any are left. */
  function Handled(closed: bool, pending: seq<Arrival>, n: nat): (h: seq<Arrival>)
    ensures |h| <= |pending| && h == pending[..|h|]
    ensures closed ==> h == []
    ensures !closed ==> |h| == Min(n, |pending|)
  {
    if closed then [] else pending[..Min(n, |pending|)]
  }

  /** One more live check takes at most one more arrival. */
  lemma HandledNext(closed: bool, pending: seq<Arrival>, n: nat)
    ensures var h := Handled(closed, pending, n);
      Handled(closed, pending, n + 1) == h + Handled(closed, pending[|h|..], 1)
  {
  }

  function CountType(t: GoString, evs: seq<Event>): nat
  {
    if evs == [] then 0
    else CountType(t, evs[..|evs| - 1]) + (if evs[|evs| - 1].eventType == t then 1 else 0)
  }

  function Clients(arrivals: seq<Arrival>): nat
  {
    if arrivals == [] then 0
    else Clients(arrivals[..|arrivals| - 1]) + (if arrivals[|arrivals| - 1].Client? then 1 else 0)
  }

  predicate IsIdentified(a: Arrival)
  {
    a.Client? && FirstRead(a.peer).Some?
  }

  function Identified(arrivals: seq<Arrival>): nat
  {
    if arrivals == [] then 0
    else Identified(arrivals[..|arrivals| - 1]) + (if IsIdentified(arrivals[|arrivals| - 1]) then 1 else 0)
  }

  lemma {:induction false} CountTypeAppend(t: GoString, a: seq<Event>, b: seq<Event>)
    ensures CountType(t, a + b) == CountType(t, a) + CountType(t, b)
  {
    if b == [] {
      assert a + b == a;
    } else {
      var b' := b[..|b| - 1];
      assert (a + b)[..|a + b| - 1] == a + b';
      CountTypeAppend(t, a, b');
    }
  }

  /** Every accepted client is reported by exactly one `connection_attempt`,
      and exactly the clients whose read succeeded by a
      `client_identification`; accept errors report nothing. */
  lemma {:induction false} ServedCounts(name: GoString, arrivals: seq<Arrival>, reading: nat -> GoString, tick: nat)
    ensures CountType(CONNECTION_ATTEMPT, Served(name, arrivals, reading, tick)) == Clients(arrivals)
    ensures CountType(CLIENT_IDENTIFICATION, Served(name, arrivals, reading, tick)) == Identified(arrivals)
  {
    if arrivals != [] {
      var init := arrivals[..|arrivals| - 1];
      ServedCounts(name, init, reading, tick);
      assert arrivals == init + [arrivals[|arrivals| - 1]];
      ServedSnoc(name, init, arrivals[|arrivals| - 1], reading, tick);
      if arrivals[|arrivals| - 1].AcceptFault? {
        assert Served(name, arrivals, reading, tick) == Served(name, init, reading, tick);
        assert Clients(arrivals) == Clients(init) && Identified(arrivals) == Identified(init);
      } else {
        var p := arrivals[|arrivals| - 1].peer;
        var evs := ConnectionEvents(name, p, reading, tick + Ticks(init));
        CountTypeAppend(CONNECTION_ATTEMPT, Served(name, init, reading, tick), evs);
        CountTypeAppend(CLIENT_IDENTIFICATION, Served(name, init, reading, tick), evs);
        ConnectionCounts(name, p, reading, tick + Ticks(init));
      }
    }
  }

  /** One connection reports one attempt, and one identification exactly when its read succeeded. */
  lemma ConnectionCounts(name: GoString, p: Peer, reading: nat -> GoString, tick: nat)
    ensures var evs := ConnectionEvents(name, p, reading, tick);
      CountType(CONNECTION_ATTEMPT, evs) == 1 &&
      CountType(CLIENT_IDENTIFICATION, evs) == if FirstRead(p).Some? then 1 else 0
  {
    var evs := ConnectionEvents(name, p, reading, tick);
    assert evs[..1] == [evs[0]] && [evs[0]][..0] == [];
    if |evs| == 2 {
      assert evs[..|evs| - 1] == [evs[0]];
      assert CountType(CONNECTION_ATTEMPT, evs) == CountType(CONNECTION_ATTEMPT, [evs[0]]) + 0;
      assert CountType(CLIENT_IDENTIFICATION, evs) == CountType(CLIENT_IDENTIFICATION, [evs[0]]) + 1;
    }
  }

  /** Every `client_identification` directly follows the `connection_attempt`
      of the same client. */
  ghost predicate IdentificationsFollowAttempts(evs: seq<Event>)
  {
    forall i | 0 <= i < |evs| && evs[i].eventType == CLIENT_IDENTIFICATION ::
      0 < i && evs[i - 1].eventType == CONNECTION_ATTEMPT && evs[i - 1].remoteAddr == evs[i].remoteAddr
  }

  lemma {:induction false} ServedOrder(name: GoString, arrivals: seq<Arrival>, reading: nat -> GoString, tick: nat)
    ensures IdentificationsFollowAttempts(Served(name, arrivals, reading, tick))
  {
    if arrivals != [] {
      var init := arrivals[..|arrivals| - 1];
      ServedOrder(name, init, reading, tick);
      assert arrivals == init + [arrivals[|arrivals| - 1]];
      ServedSnoc(name, init, arrivals[|arrivals| - 1], reading, tick);
      var before := Served(name, init, reading, tick);
      var evs := Served(name, arrivals, reading, tick);
      if arrivals[|arrivals| - 1].AcceptFault? {
        assert evs == before;
      } else {
        var p := arrivals[|arrivals| - 1].peer;
        var last := ConnectionEvents(name, p, reading, tick + Ticks(init));
        assert evs == before + last;
        forall i | 0 <= i < |evs| && evs[i].eventType == CLIENT_IDENTIFICATION
          ensures 0 < i && evs[i - 1].eventType == CONNECTION_ATTEMPT && evs[i - 1].remoteAddr == evs[i].remoteAddr
        {
          if i < |before| {
            assert evs[i] == before[i];
            assert 0 < i;
            assert evs[i - 1] == before[i - 1];
          } else {
            assert evs[i] == last[i - |before|];
            assert i - |before| == 1;
          }
        }
      }
    }
  }

  /** `SSHService`: a `BaseService` named "ssh" plus the address to bind and
      the banner to announce. */
  class SshService {
    const base: BaseService
    const port: int
    const host: GoString
    const banner: GoString

    /** `NewSSHService`. */
    constructor (port: int, host: GoString, banner: GoString, handler: EventRecorder)
      ensures fresh(base) && base.Name() == SERVICE_NAME && base.handler == handler && base.listener == null
      ensures this.port == port && this.host == host && this.banner == banner
    {
      base := new BaseService(SERVICE_NAME, handler);
      this.port, this.host, this.banner := port, host, banner;
    }

    /** `Start`: bind `host:port`; on failure report it and leave the
        listener as it was, on success keep the listener and run the accept
        loop until the context is cancelled. The network's connections and
        the handler report to one trace. */
    method Start(ctx: Context, network: Network, clock: Clock) returns (err: Option<Error>)
      requires network.trace == base.handler.trace
      modifies base, ctx, base.handler, clock, base.handler.trace
      ensures err.Some? <==> Address(host, port) in network.unavailable
      ensures err.Some? ==>
        err == Some(StartFailed(BindFailed)) && base.listener == old(base.listener) &&
        base.handler.events == old(base.handler.events) && base.handler.trace.steps == old(base.handler.trace.steps) &&
        ctx.polls == old(ctx.polls) && clock.ticks == old(clock.ticks)
      ensures err.None? ==>
        base.listener != null && fresh(base.listener) && base.listener.addr == Address(host, port) &&
        !base.listener.closed && ctx.polls == 0 && base.listener.accepts == old(ctx.polls) &&
        base.listener.closeOk == (Address(host, port) !in network.closeFaults) && base.listener.closes == 0 &&
        base.listener.trace == network.trace
      ensures err.None? ==>
        var handled := Handled(false, network.ArrivalsAt(Address(host, port)), old(ctx.polls));
        base.listener.pending == network.ArrivalsAt(Address(host, port))[|handled|..] &&
        base.handler.events == old(base.handler.events) + Served(base.name, handled, clock.reading, old(clock.ticks)) &&
        base.handler.trace.steps == old(base.handler.trace.steps) + ServedSteps(base.name, banner, handled, clock.reading, old(clock.ticks)) &&
        clock.ticks == old(clock.ticks) + Ticks(handled)
    {
      var addr := Address(host, port);
      var listener, lerr := network.Listen(addr);
      if lerr.Some? {
        return Some(StartFailed(lerr.value));
      }
      base.listener := listener;
      AcceptConnections(ctx, clock);
      err := None;
    }

    /** `acceptConnections`: check for cancellation, then accept; skip an
        accept error; serve each client. One `Accept` per live check. */
    method AcceptConnections(ctx: Context, clock: Clock)
      requires base.listener != null && base.listener.trace == base.handler.trace
      modifies base.listener, ctx, base.handler, clock, base.handler.trace
      ensures ctx.polls == 0
      ensures base.listener.accepts == old(base.listener.accepts) + old(ctx.polls)
      ensures base.listener.closed == old(base.listener.closed) && base.listener.closes == old(base.listener.closes)
      ensures var handled := Handled(old(base.listener.closed), old(base.listener.pending), old(ctx.polls));
        base.listener.pending == old(base.listener.pending)[|handled|..] &&
        base.handler.events == old(base.handler.events) + Served(base.name, handled, clock.reading, old(clock.ticks)) &&
        base.handler.trace.steps == old(base.handler.trace.steps) + ServedSteps(base.name, banner, handled, clock.reading, old(clock.ticks)) &&
        clock.ticks == old(clock.ticks) + Ticks(handled)
    {
      var l := base.listener;
      var trace := base.handler.trace;
      ghost var polls0, pending0, closed0 := ctx.polls, l.pending, l.closed;
      ghost var accepts0, events0, steps0, ticks0 := l.accepts, base.handler.events, trace.steps, clock.ticks;
      ghost var handled: seq<Arrival> := [];
      while true
        invariant ctx.polls <= polls0 && base.listener == l
        invariant l.closed == closed0 && l.closes == old(l.closes) && l.accepts == accepts0 + (polls0 - ctx.polls)
        invariant handled == Handled(closed0, pending0, polls0 - ctx.polls)
        invariant l.pending == pending0[|handled|..]
        invariant base.handler.events == events0 + Served(base.name, handled, clock.reading, ticks0)
        invariant trace.steps == steps0 + ServedSteps(base.name, banner, handled, clock.reading, ticks0)
        invariant clock.ticks == ticks0 + Ticks(handled)
        decreases ctx.polls
      {
        var done := ctx.Done();
        if done {
          return;
        }
        HandledNext(closed0, pending0, polls0 - ctx.polls - 1);
        ghost var events1, stepsBefore, tick1 := base.handler.events, trace.steps, clock.ticks;
        AcceptNext(clock);
        ghost var took := Handled(closed0, pending0[|handled|..], 1);
        ServedAppend(base.name, handled, took, clock.reading, ticks0);
        ServedStepsAppend(base.name, banner, handled, took, clock.reading, ticks0);
        assert base.handler.events == events1 + Served(base.name, took, clock.reading, tick1);
        assert trace.steps == stepsBefore + ServedSteps(base.name, banner, took, clock.reading, tick1);
        assert pending0[|handled|..][|took|..] == pending0[|handled + took|..];
        handled := handled + took;
      }
    }

    /** The `default:` branch of the accept loop: one `Accept`; an error is
        skipped, a client is served. */
    method AcceptNext(clock: Clock)
      requires base.listener != null && base.listener.trace == base.handler.trace
      modifies base.listener, base.handler, clock, base.handler.trace
      ensures base.listener == old(base.listener)
      ensures base.listener.accepts == old(base.listener.accepts) + 1
      ensures base.listener.closed == old(base.listener.closed) && base.listener.closes == old(base.listener.closes)
      ensures var took := Handled(old(base.listener.closed), old(base.listener.pending), 1);
        base.listener.pending == old(base.listener.pending)[|took|..] &&
        base.handler.events == old(base.handler.events) + Served(base.name, took, clock.reading, old(clock.ticks)) &&
        base.handler.trace.steps == old(base.handler.trace.steps) + ServedSteps(base.name, banner, took, clock.reading, old(clock.ticks)) &&
        clock.ticks == old(clock.ticks) + Ticks(took)
    {
      ghost var took := Handled(base.listener.closed, base.listener.pending, 1);
      if |took| == 1 {
        assert took == [took[0]];
        ServedSingle(base.name, banner, took[0], clock.reading, clock.ticks);
      }
      var conn, err := base.listener.Accept();
      if err.Some? {
        return;
      }
      HandleConnection(conn, clock);
    }

    /** `handleConnection`: the per-connection script. The deferred
        `conn.Close()` runs on both ways out. */
    method HandleConnection(conn: Conn, clock: Clock)
      requires !conn.closed && conn.trace == base.handler.trace
      modifies conn, base.handler, clock, conn.trace
      ensures conn.trace.steps == old(conn.trace.steps) + ConnectionSteps(base.name, banner, old(conn.Script()), clock.reading, old(clock.ticks))
      ensures base.handler.events == old(base.handler.events) + ConnectionEvents(base.name, old(conn.Script()), clock.reading, old(clock.ticks))
      ensures conn.writes == old(conn.writes) + ConnectionWrites(banner, old(conn.Script()))
      ensures conn.inbox == if FirstRead(old(conn.Script())).Some?
        then old(conn.inbox)[|FirstRead(old(conn.Script())).value|..] else old(conn.inbox)
      ensures conn.closed && clock.ticks == old(clock.ticks) + ConnectionTicks(old(conn.Script()))
    {
      ghost var p, tick := conn.Script(), clock.ticks;
      ghost var steps0, events0, writes0 := conn.trace.steps, base.handler.events, conn.writes;
      var stamp := clock.Now();
      var attempt := Event(base.Name(), conn.RemoteAddr(), stamp, CONNECTION_ATTEMPT, map[LOCAL_ADDR := conn.LocalAddr()]);
      base.handler.HandleEvent(attempt);
      var _ := conn.Write(BannerLine(banner));

      var buffer := new byte[BUFFER_SIZE];
      var n, err := conn.Read(buffer);
      if err.Some? {
        var _ := conn.Close();
        assert conn.trace.steps == steps0 + [Emit(attempt), Send(BannerLine(banner)), Receive(None), Hangup];
        return;
      }
      var version := buffer[..n];
      assert FirstRead(p) == Some(version);

      stamp := clock.Now();
      var identification := Event(base.Name(), conn.RemoteAddr(), stamp, CLIENT_IDENTIFICATION, map[CLIENT_VERSION := version]);
      base.handler.HandleEvent(identification);
      // time.Sleep(500 * time.Millisecond) has no observable effect here.
      var _ := conn.Write(MISMATCH);
      var _ := conn.Close();
      assert conn.trace.steps == steps0 +
        [Emit(attempt), Send(BannerLine(banner)), Receive(Some(version)), Emit(identification), Send(MISMATCH), Hangup];
    }
  }
}
