/** The two pieces of Go's runtime the core consults: a cancellable
    `context.Context` and the wall clock behind `time.Now()`. */
module Runtime {
  import opened GoBase

  /** A context that will be cancelled. `polls` is the number of `Done`
      checks that still find it live; once it is zero every check sees the
      cancellation, as `<-ctx.Done()` stays ready once closed. */
  class Context {
    var polls: nat

    constructor (polls: nat)
      ensures this.polls == polls
    {
      this.polls := polls;
    }

    /** The `case <-ctx.Done():` branch of a non-blocking `select`. */
    method Done() returns (done: bool)
      modifies this
      ensures done <==> old(polls) == 0
      ensures polls == if done then 0 else old(polls) - 1
    {
      done := polls == 0;
      if !done {
        polls := polls - 1;
      }
    }
  }

  /** The wall clock. `reading(k)` is the RFC 3339 text `time.Now()` gives on
      its k-th call; the text itself is opaque to the model. */
  class Clock {
    const reading: nat -> GoString
    var ticks: nat

    constructor (reading: nat -> GoString)
      ensures this.reading == reading && ticks == 0
    {
      this.reading := reading;
      ticks := 0;
    }

    /** `time.Now().Format(time.RFC3339)`. */
    method Now() returns (stamp: GoString)
      modifies this
      ensures stamp == reading(old(ticks))
      ensures ticks == old(ticks) + 1
    {
      stamp := reading(ticks);
      ticks := ticks + 1;
    }
  }
}
