/** What the route handlers answer, and what a handler call leaves stored. */
module Http {
  import opened JsValues
  import opened MockInterview

  /** What `sendErrorResponse` or `NextResponse.json` is given. */
  datatype Response =
    | Failure(status: int, code: string, message: string)
    | Success(status: int, body: Value)

  const LoginFirst := "Please Login First"

  /** The answer to a request whose token does not verify. */
  const Unauthorized := Failure(401, "unauthorized", LoginFirst)

  /** What one call does: the response, and the record it leaves stored
      under the interview's id, if it wrote one. */
  datatype Outcome = Outcome(resp: Response, written: Option<Interview>)

  /** The stored records after a call that wrote `written`. */
  function Written(records: map<string, Interview>, written: Option<Interview>): map<string, Interview>
  {
    if written.Some? then records[written.value.id := written.value] else records
  }
}
