/** The service framework of internal/services/service.go: an event
    handler and the lifecycle state every service shares. The `Event`
    record itself is declared in `Effects`. */
module Services {
  import opened GoBase
  import opened Net
  import opened Effects

  /** An `EventHandler` that keeps every event it is given, in order, and
      appends each one to `trace` as it arrives. */
  class EventRecorder {
    var events: seq<Event>
    const trace: Trace

    constructor (trace: Trace)
      ensures events == [] && this.trace == trace
    {
      events := [];
      this.trace := trace;
    }

    method HandleEvent(event: Event)
      modifies this, trace
      ensures events == old(events) + [event]
      ensures trace.steps == old(trace.steps) + [Emit(event)]
    {
      events := events + [event];
      trace.Record(Emit(event));
    }
  }

  /** `BaseService`: the name is fixed at construction (no method of the
      service assigns it), the listener is set only once a bind succeeds. */
  class BaseService {
    const name: GoString
    var listener: Listener?
    const handler: EventRecorder

    /** `NewBaseService`. */
    constructor (name: GoString, handler: EventRecorder)
      ensures Name() == name && this.handler == handler && listener == null
    {
      this.name, this.handler := name, handler;
      listener := null;
    }

    /** `Name`. */
    function Name(): GoString
    {
      name
    }

    /** `Stop`: closes the listener if there is one and returns what `Close`
        returns. The field is not cleared, so a second `Stop` closes the same
        listener again and reports the error of closing a closed socket. */
    method Stop() returns (err: Option<Error>)
      modifies listener
      ensures listener == old(listener)
      ensures old(listener) == null ==> err.None?
      ensures old(listener) != null ==>
        listener.closed && listener.closes == old(listener.closes) + 1 &&
        listener.pending == old(listener.pending) && listener.accepts == old(listener.accepts) &&
        (err.Some? <==> old(listener.closed) || !listener.closeOk)
    {
      if listener != null {
        err := listener.Close();
        return;
      }
      err := None;
    }
  }
}
