/** What the route handlers share: the status codes they answer with, and the two shapes of a
    handler's result over the tables. */
module Http {
  import opened Storage

  const OK_STATUS: int := 200
  const FORBIDDEN_STATUS: int := 403
  const NOT_FOUND_STATUS: int := 404
  const ERROR_STATUS: int := 500

  /** The tables after a step of a handler and whether the step threw out of it. */
  datatype Outcome = Outcome(tables: Tables, thrown: bool)

  /** The tables after a request and the status it was answered with. */
  datatype Response = Response(tables: Tables, status: int)
}
