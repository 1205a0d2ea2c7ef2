/** What a stage of a route's middleware chain and a route as a whole can
    produce. A stage either passes or fails with `{ status, message }`, the
    object the stages hand to `next(err)`; a route ends in one response. */
module Pipeline {
  import opened JsonValues

  /** The `{ status, message }` object a failing stage passes to `next`. */
  datatype Error = Error(status: int, message: string)

  /** A stage that also produces a value for the stages after it. */
  datatype Result<T> = Ok(value: T) | Err(error: Error)

  /** A stage that only checks. */
  datatype Check = Pass | Reject(error: Error)

  function Need(condition: bool, error: Error): Check
  {
    if condition then Pass else Reject(error)
  }

  /** The response of a route: a status code with `{ data }`, or the error of
      the first stage that failed. */
  datatype Reply<T> = Success(status: int, data: T) | Failure(error: Error)

  /** A route's response together with the collection after it ran. */
  datatype Step<T> = Step(reply: Reply<T>, after: seq<Record>)
}
