/** The axios instance of the Vite/Redux front end (src/services/api.ts): the
    request interceptor attaches the stored token; on a 401 the response
    interceptor removes it, performs no navigation, and rejects the error again. */
module ServiceApi {
  import opened Wrappers
  import opened Http
  import opened Browser

  method OnRequest(w: Window, config: Request) returns (out: Request)
    modifies config
    ensures out == config
    ensures config.headers == Authorize(old(config.headers), w.GetItem(AuthTokenKey))
  {
    var token := w.GetItem(AuthTokenKey);
    if token.Some? && token.value != "" {
      var headers := if config.headers.Some? then config.headers.value else map[];
      config.headers := Some(headers[Authorization := BearerValue(token.value)]);
    }
    out := config;
  }

  method OnResponse<R>(res: R) returns (r: Result<R, HttpError>)
    ensures r == Success(res)
  {
    r := Success(res);
  }

  method OnError<R>(w: Window, err: HttpError) returns (r: Result<R, HttpError>)
    modifies w
    ensures r == Failure(err)
    ensures w.localStorage == ClearedOnUnauthorized(old(w.localStorage), err)
    ensures w.navigations == old(w.navigations)
  {
    if err.response.Some? && err.response.value.status == 401 {
      w.RemoveItem(AuthTokenKey);
    }
    r := Failure(err);
  }

  /** One request through both interceptors; the answer reaches the caller unchanged. */
  method Exchange<R>(w: Window, config: Request, answer: Result<R, HttpError>) returns (r: Result<R, HttpError>)
    modifies w, config
    ensures r == answer
    ensures config.headers == Authorize(old(config.headers), Lookup(old(w.localStorage), AuthTokenKey))
    ensures w.localStorage ==
      if answer.Failure? then ClearedOnUnauthorized(old(w.localStorage), answer.error) else old(w.localStorage)
    ensures w.navigations == old(w.navigations)
  {
    var sent := OnRequest(w, config);
    match answer
    case Success(res) => r := OnResponse(res);
    case Failure(err) => r := OnError(w, err);
  }
}
