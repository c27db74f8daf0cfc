/** Responses of the two API routes: a status code and a JSON body. */
module Http {
  import opened Json

  datatype Body =
    | ErrorBody(error: string)      // `{ error: ... }`
    | MessageBody(message: string)  // `{ message: ... }`
    | JsonBody(value: Json)         // a document passed through as it was parsed

  datatype Response = Response(status: int, body: Body)

  const InternalServerError := "Internal server error"

  /** `res.ok` on the client: a status in the 2xx range. */
  predicate IsOk(status: int) {
    200 <= status <= 299
  }

  function Failure(status: int, error: string): Response {
    Response(status, ErrorBody(error))
  }

  function Internal(): Response {
    Failure(500, InternalServerError)
  }
}
