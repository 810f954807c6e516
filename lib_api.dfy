/** The axios instance of the Next.js front end (lib/api.ts): a request
    interceptor that attaches the stored token when running in a browser, and a
    response interceptor that, on a 401 in a browser, removes the token and sends
    the browser to /login. Every error is rejected again, unchanged. */
module LibApi {
  import opened Wrappers
  import opened Text
  import opened Http
  import opened Browser
  import opened Query

  /** `typeof window !== 'undefined' ? localStorage.getItem('auth_token') : null` */
  function VisibleToken(storage: map<string, string>, inBrowser: bool): (t: Option<string>)
    ensures t.Some? ==> inBrowser && AuthTokenKey in storage && t.value == storage[AuthTokenKey]
    ensures inBrowser && AuthTokenKey in storage ==> t.Some?
  {
    if inBrowser then Lookup(storage, AuthTokenKey) else None
  }

  /** Storage after the error interceptor: the token is removed only for a 401 in a browser. */
  function StorageAfterError(storage: map<string, string>, inBrowser: bool, err: HttpError): (r: map<string, string>)
    ensures !(inBrowser && IsUnauthorized(err)) ==> r == storage
    ensures inBrowser && IsUnauthorized(err) ==> AuthTokenKey !in r
    ensures forall k :: k != AuthTokenKey ==> (k in r <==> k in storage)
    ensures forall k :: k != AuthTokenKey && k in storage ==> r[k] == storage[k]
  {
    if inBrowser then ClearedOnUnauthorized(storage, err) else storage
  }

  /** Navigations the error interceptor performs: /login exactly for a 401 in a browser. */
  function RedirectsAfterError(inBrowser: bool, err: HttpError): (r: seq<string>)
    ensures r == [] || r == ["/login"]
    ensures r == ["/login"] <==> inBrowser && IsUnauthorized(err)
  {
    if inBrowser && IsUnauthorized(err) then ["/login"] else []
  }

  /** The request interceptor: edits the config's headers in place and returns it. */
  method OnRequest(w: Window, inBrowser: bool, config: Request) returns (out: Request)
    modifies config
    ensures out == config
    ensures config.headers == Authorize(old(config.headers), VisibleToken(w.localStorage, inBrowser))
  {
    var token := if inBrowser then w.GetItem(AuthTokenKey) else None;
    if Truthy(token) {
      var headers := if config.headers.Some? then config.headers.value else map[];
      config.headers := Some(headers[Authorization := BearerValue(token.value)]);
    }
    out := config;
  }

  /** The success handler: the response is passed on as it came. */
  method OnResponse<R>(res: R) returns (r: Result<R, HttpError>)
    ensures r == Success(res)
  {
    r := Success(res);
  }

  /** The error handler: a 401 in a browser removes the token and redirects; in
      every case the promise is rejected with the original error. */
  method OnError<R>(w: Window, inBrowser: bool, err: HttpError) returns (r: Result<R, HttpError>)
    modifies w
    ensures r == Failure(err)
    ensures w.localStorage == StorageAfterError(old(w.localStorage), inBrowser, err)
    ensures w.navigations == old(w.navigations) + RedirectsAfterError(inBrowser, err)
  {
    if err.response.Some? && err.response.value.status == 401 && inBrowser {
      w.RemoveItem(AuthTokenKey);
      w.Navigate("/login");
    }
    r := Failure(err);
  }

  /** One request through both interceptors, with the server's answer as a parameter.
      The caller receives exactly what the server answered. */
  method Exchange<R>(w: Window, inBrowser: bool, config: Request, answer: Result<R, HttpError>)
    returns (r: Result<R, HttpError>)
    modifies w, config
    ensures r == answer
    ensures config.headers == Authorize(old(config.headers), VisibleToken(old(w.localStorage), inBrowser))
    ensures w.localStorage ==
      if answer.Failure? then StorageAfterError(old(w.localStorage), inBrowser, answer.error) else old(w.localStorage)
    ensures w.navigations ==
      old(w.navigations) + if answer.Failure? then RedirectsAfterError(inBrowser, answer.error) else []
  {
    var sent := OnRequest(w, inBrowser, config);
    match answer
    case Success(res) => r := OnResponse(res);
    case Failure(err) => r := OnError(w, inBrowser, err);
  }

  /** Two 401s in a row leave storage as the first left it; only the redirect repeats. */
  lemma SecondUnauthorizedIsNoOp(storage: map<string, string>, inBrowser: bool, first: HttpError, second: HttpError)
    requires IsUnauthorized(first) && IsUnauthorized(second)
    ensures StorageAfterError(StorageAfterError(storage, inBrowser, first), inBrowser, second)
         == StorageAfterError(storage, inBrowser, first)
  {
  }

  /** Storage after a page's request with the given outcome: only a 401 removes the
      token, and nothing else is touched. */
  function StorageAfter(storage: map<string, string>, outcome: Outcome): (r: map<string, string>)
    ensures AuthTokenKey in r <==> AuthTokenKey in storage && !(outcome.Failed? && IsUnauthorized(outcome.error))
    ensures forall k :: k != AuthTokenKey ==> (k in r <==> k in storage)
    ensures forall k :: k in r ==> k in storage && r[k] == storage[k]
  {
    if outcome.Failed? then StorageAfterError(storage, true, outcome.error) else storage
  }

  /** Navigations after a page's request with the given outcome: /login exactly on a 401. */
  function RedirectsAfter(outcome: Outcome): (r: seq<string>)
    ensures r == [] || r == ["/login"]
    ensures r == ["/login"] <==> outcome.Failed? && IsUnauthorized(outcome.error)
  {
    if outcome.Failed? then RedirectsAfterError(true, outcome.error) else []
  }

  /** A page mutation's answer arriving through the interceptors in a browser: a failure
      passes the error handler first, then the page's `onSuccess`/`onError` run. */
  method Settle(w: Window, fx: Effects, outcome: Outcome, key: QueryKey, okText: string, errText: string)
    modifies w, fx
    ensures w.localStorage == StorageAfter(old(w.localStorage), outcome)
    ensures w.navigations == old(w.navigations) + RedirectsAfter(outcome)
    ensures fx.invalidated == old(fx.invalidated) + Invalidations(outcome, key)
    ensures fx.toasts == old(fx.toasts) + [Notice(outcome, okText, errText)]
  {
    if outcome.Failed? {
      var rejected := OnError<Json>(w, true, outcome.error);
    }
    fx.Settle(outcome, key, okText, errText);
  }
}
