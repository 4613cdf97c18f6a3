/** The two response builders every route uses
    (`src/lib/api/route-response.ts`): a success carries data and a null
    error, a failure a null data and an error. */
module RouteResponse {
  import opened Wrappers
  import opened ClientTypes

  /** In a well-formed envelope exactly one side is present. */
  predicate OneSided<T>(e: Envelope<T>) {
    e.data.Some? != e.error.Some?
  }

  /** `success(data, status = 200)`. */
  function Success<T>(data: T, status: int := 200): (r: Response<T>)
    ensures r.status == status
    ensures r.body.data == Some(data) && r.body.error == None
  {
    Response(status, Envelope(Some(data), None))
  }

  /** `failure(message, status, details)`. */
  function Failure<T>(message: string, status: int, details: Option<seq<string>>): (r: Response<T>)
    ensures r.status == status
    ensures r.body.data == None && r.body.error == Some(ApiError(message, details))
  {
    Response(status, Envelope(None, Some(ApiError(message, details))))
  }

  /** Both builders produce envelopes with exactly one side present, and a
      response of one kind is never one of the other. */
  lemma EnvelopesAreOneSided<T>(data: T, status: int, message: string, failStatus: int, details: Option<seq<string>>)
    ensures OneSided(Success(data, status).body)
    ensures OneSided(Failure<T>(message, failStatus, details).body)
    ensures Success(data, status) != Failure<T>(message, failStatus, details)
  {
  }

  /** Without a status, a success is a 200. */
  lemma SuccessDefaultsTo200<T>(data: T)
    ensures Success(data).status == 200
    ensures Success(data) == Success(data, 200)
  {
  }
}
