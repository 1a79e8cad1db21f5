/** The slice of net/http the handlers touch: requests, responses and status codes. */
module Http {
  import opened Wrappers

  const StatusOK := 200
  const StatusBadRequest := 400
  const StatusUnauthorized := 401
  const StatusNotFound := 404
  const StatusInternalServerError := 500

  /** A request; `authorization` is `Header.Get("Authorization")`, which is "" when the header is absent. */
  datatype Request = Request(verb: string, path: string, authorization: string, body: string)

  /** A response body: the plain text of `http.Error`, or one of the JSON replies. */
  datatype Body =
    | Text(text: string)
    | Message(message: string)
    | LoginReply(message: string, token: string)

  datatype Response = Response(status: int, body: Body)

  /** `http.Error(w, msg, code)`. */
  function Error(msg: string, code: int): Response {
    Response(code, Text(msg))
  }

  /**
   * What a gate did with one request: its response, the string it handed to the token
   * verifier (None when it never called the verifier) and the requests it passed to `next`.
   */
  datatype GateTrace = GateTrace(response: Response, verifierInput: Option<string>, forwarded: seq<Request>)
}
