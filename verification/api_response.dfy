/** The response shapes a handler can produce. */
module Responses {
  import opened Wrappers

  /** The body every `api_response` call builds: exactly these four members. */
  datatype Envelope<D> = Envelope(message: string, status: int, success: bool, data: Option<D>)

  datatype Response<D> =
    | Enveloped(statusCode: int, body: Envelope<D>)   // `api_response(...)`, a JSONResponse
    | Detail(statusCode: int, detail: string)         // `raise HTTPException(status_code, detail)`
    | Plain(payload: D)                               // a dict returned as is: FastAPI answers 200
    | InternalError                                   // an exception escaped the handler: 500
  {
    function Status(): int
    {
      match this
      case Enveloped(code, _) => code
      case Detail(code, _) => code
      case Plain(_) => 200
      case InternalError => 500
    }
  }

  /**
   * `api_response(message, status=200, data=None, success=True)`: the HTTP status is the
   * envelope's status, and `success` is whatever the caller passed, True by default, whatever
   * the status says.
   */
  function ApiResponse<D>(message: string, status: int := 200, data: Option<D> := None,
                          success: bool := true): (r: Response<D>)
    ensures r.Enveloped? && r.Status() == r.body.status == status
    ensures r.body.message == message && r.body.success == success && r.body.data == data
  {
    Enveloped(status, Envelope(message, status, success, data))
  }

  /** The text of the TypeError `json.dumps` raises on a value of a type it cannot encode. */
  function NotSerializable(typeName: string): string
  {
    "Object of type " + typeName + " is not JSON serializable"
  }

  /**
   * The whole `api_response` call. `JSONResponse` encodes its content with `json.dumps` as it is
   * built, with no fallback encoder, so a `data` holding a datetime or a pydantic model makes
   * the call raise. `unencodable` names the type of the first such value in `data`, if any.
   */
  function CallApiResponse<D>(message: string, status: int, data: Option<D>,
                              unencodable: Option<string>): (r: Result<Response<D>, string>)
    ensures r.Ok? <==> unencodable.None?
    ensures r.Ok? ==> r.value.Enveloped? && r.value.Status() == status && r.value.body.data == data
                      && r.value == ApiResponse(message, status, data)
    ensures r.Err? ==> r.error == NotSerializable(unencodable.value)
  {
    if unencodable.Some? then Err(NotSerializable(unencodable.value))
    else Ok(ApiResponse(message, status, data))
  }

  /** An exception nobody catches: FastAPI answers it with a 500. */
  function Uncaught<D>(r: Result<Response<D>, string>): (resp: Response<D>)
    ensures r.Err? ==> resp == InternalError
    ensures r.Ok? ==> resp == r.value
  {
    if r.Err? then InternalError else r.value
  }
}
