/** Errors. `BFException` carries its sender, a message, the child errors it
    aggregates and the free texts to preserve; any other Python exception
    (IndexError, TypeError, KeyError, ValueError, or the host refusing an
    assignment) is a `Crash` that no descriptor catches as a BFException. */
module Errors {
  import opened Options
  import opened Values

  datatype Exc = BF(error: BFError) | Crash(reason: string)

  datatype BFError = BFError(sender: string, msg: string, causes: seq<Exc>, freeTexts: seq<string>)

  /** A Python call that returns a value or raises. */
  datatype Outcome<+T> = Ok(value: T) | Raised(exc: Exc)

  /** The effect of a call that changes an element and may raise part way:
      what was raised, if anything, and the element's properties afterwards
      (there is no rollback). */
  datatype Step = Step(raised: Option<Exc>, values: Values)

  /** `BFException(sender, msg)` */
  function Simple(sender: string, msg: string): (r: BFError)
  {
    BFError(sender, msg, [], [])
  }

  const HostRejected := "the host property refused the value"
  const FollowingErrors := "Following errors reported"
}
