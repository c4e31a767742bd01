/** Failure-carrying values shared by every service of the model.
    The source signals failures with exceptions; here they are values. */
module Results {

  /** A Java reference that may be null. */
  datatype Option<+T> = None | Some(value: T)

  /** The two exception kinds the services throw: a ValidationException keyed by
      the offending field, and a ResourceNotFoundException naming what was missing. */
  datatype Error =
    | Invalid(field: string)
    | NotFound(entity: string)

  /** The value of an operation that either returns or throws. */
  datatype Result<+T> = Success(value: T) | Failure(error: Error)

  /** A check that either passes or throws (a `void` validation method). */
  datatype Outcome = Pass | Fail(error: Error) {
    /** Runs `next` only when this check passed: the fail-fast order of
        consecutive validation calls. */
    function Then(next: Outcome): (r: Outcome)
      ensures Fail? ==> r == this
      ensures Pass? ==> r == next
    {
      if Fail? then this else next
    }
  }
}
