/**
 * The HTTP edge of pkg/api/api.go reduced to what the handlers decide: the
 * parts of a request they read and the (status, JSON body) pairs they write.
 * JSON encoding and the router are not modelled.
 */
module Http {
  import opened UtilTypes

  const StatusOK: int := 200
  const StatusCreated: int := 201
  const StatusBadRequest: int := 400

  /**
   * A request as the handlers see it: the HTTP method, the value of the
   * x-jwt-token header (Header.Get gives "" when it is absent) and the {id}
   * path variable.
   */
  datatype Request = Request(httpMethod: string, jwtHeader: string, idVar: string)

  /** The JSON bodies the service writes. */
  datatype Body =
    | ApiError(error: string)
    | AccountJson(account: Account)
    | AccountsJson(accounts: seq<Account>)
    | DeletedJson(deleted: int)
    | LoginJson(login: LoginResponse)
    | CreateRequestJson(request: CreateAccountRequest)

  datatype Response = Response(status: int, body: Body)

  /** An http.ResponseWriter that keeps every response written to it, in order. */
  class ResponseRecorder {
    var written: seq<Response>

    constructor ()
      ensures written == []
    {
      written := [];
    }

    /** writeJson: sets the content type and status and writes the body. */
    method WriteJson(status: int, body: Body)
      modifies this
      ensures written == old(written) + [Response(status, body)]
    {
      written := written + [Response(status, body)];
    }
  }
}
