/** What an outside observer of the core sees, in the order it happens:
    the events services report, and the calls made on client sockets. */
module Effects {
  import opened GoBase

  /** One security event, as a service reports it to its handler. */
  datatype Event = Event(
    serviceName: GoString,
    remoteAddr: GoString,
    timestamp: GoString,
    eventType: GoString,
    details: map<GoString, GoString>)

  /** One observable effect: an event handed to the handler, a `Write` on a
      client socket, a `Read` on it (with the bytes it delivered, or none
      when it failed), or a `Close` of it. */
  datatype Step = Emit(event: Event) | Send(data: GoString) | Receive(got: Option<seq<byte>>) | Hangup

  /** The effects observed so far, in order. Every socket and every event
      handler that shares a `Trace` appends to the same list, so the list
      fixes how their effects interleave. */
  class Trace {
    var steps: seq<Step>

    constructor ()
      ensures steps == []
    {
      steps := [];
    }

    method Record(s: Step)
      modifies this
      ensures steps == old(steps) + [s]
    {
      steps := steps + [s];
    }
  }
}
