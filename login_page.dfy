/** The login page of the Next.js front end (app/login/page.tsx): post the
    credentials, store the returned token, check admin rights with a second request,
    then toast and go to the dashboard; any failure toasts an error message. Both
    requests pass through the interceptors of lib/api.ts in a browser. */
module LoginPage {
  import opened Wrappers
  import opened Text
  import opened Http
  import opened Browser
  import opened Query
  import LibApi

  const LoginUrl := "/api/v1/admin-auth"
  const VerifyUrl := "/api/v1/admin/rate-limits/config"

  /** `error.response?.data?.detail || error.response?.data?.message || 'Login failed'` */
  function LoginErrorMessage(err: HttpError): (m: Json)
    ensures JsonTruthy(m)
    ensures var data := if err.response.Some? then Some(err.response.value.data) else None;
      if OptionalTruthy(Field(data, "detail")) then Some(m) == Field(data, "detail")
      else if OptionalTruthy(Field(data, "message")) then Some(m) == Field(data, "message")
      else m == JString("Login failed")
  {
    var data := if err.response.Some? then Some(err.response.value.data) else None;
    var detail := Field(data, "detail");
    var message := Field(data, "message");
    if OptionalTruthy(detail) then detail.value
    else if OptionalTruthy(message) then message.value
    else JString("Login failed")
  }

  function Credentials(email: string, password: string): Json {
    JObject(map["email" := JString(email), "password" := JString(password)])
  }

  /** What one login attempt leaves behind. */
  datatype Attempt = Attempt(
    storage: map<string, string>,
    navigations: seq<string>,
    toast: Toast,
    sent: seq<SentRequest>)

  /** The request as it leaves the browser: default headers plus the stored token. */
  function Outgoing(verb: string, url: string, data: Json, storage: map<string, string>): SentRequest {
    SentRequest(verb, url, data, Authorize(Some(DefaultHeaders), LibApi.VisibleToken(storage, true)))
  }

  /** `handleLogin` as written, with the two server answers as parameters
      (the login answer is the returned access_token). */
  function LoginAttempt(storage: map<string, string>, email: string, password: string,
                        login: Result<string, HttpError>, verify: Result<Json, HttpError>): (r: Attempt)
    ensures "/dashboard" in r.navigations <==> login.Success? && verify.Success?
    ensures r.toast.SuccessToast? <==> login.Success? && verify.Success?
    ensures r.toast.SuccessToast? ==> r.toast.text == "Login successful"
    ensures r.toast.ErrorToast? ==> JsonTruthy(r.toast.content)
    ensures |r.sent| == if login.Success? then 2 else 1
    ensures r.sent[0] == Outgoing("POST", LoginUrl, Credentials(email, password), storage)
    ensures login.Success? ==>
      r.sent[1] == Outgoing("GET", VerifyUrl, JNull, storage[AuthTokenKey := login.value])
    ensures login.Success? && verify.Success? ==> Lookup(r.storage, AuthTokenKey) == Some(login.value)
    ensures login.Success? && verify.Success? ==>
      r.storage == storage[AuthTokenKey := login.value] && r.navigations == ["/dashboard"]
    ensures login.Failure? ==>
      r.storage == LibApi.StorageAfterError(storage, true, login.error)
      && r.navigations == LibApi.RedirectsAfterError(true, login.error)
      && r.toast == ErrorToast(LoginErrorMessage(login.error))
    ensures login.Success? && verify.Failure? ==>
      r.storage == LibApi.StorageAfterError(storage[AuthTokenKey := login.value], true, verify.error)
      && r.navigations == LibApi.RedirectsAfterError(true, verify.error)
      && r.toast == ErrorToast(LoginErrorMessage(verify.error))
  {
    var first := Outgoing("POST", LoginUrl, Credentials(email, password), storage);
    match login
    case Failure(e) =>
      Attempt(LibApi.StorageAfterError(storage, true, e), LibApi.RedirectsAfterError(true, e),
        ErrorToast(LoginErrorMessage(e)), [first])
    case Success(token) =>
      var v := Verification(storage[AuthTokenKey := token], verify);
      v.(sent := [first] + v.sent)
  }

  /** The second half of `handleLogin`, from the storage holding the new token: the
      admin check, then the success toast and the dashboard, or the error toast. */
  function Verification(stored: map<string, string>, verify: Result<Json, HttpError>): (r: Attempt)
    ensures r.sent == [Outgoing("GET", VerifyUrl, JNull, stored)]
    ensures "/dashboard" in r.navigations <==> verify.Success?
    ensures r.toast.SuccessToast? <==> verify.Success?
    ensures verify.Success? ==> r.storage == stored && r.navigations == ["/dashboard"]
    ensures verify.Failure? ==>
      r.storage == LibApi.StorageAfterError(stored, true, verify.error)
      && r.navigations == LibApi.RedirectsAfterError(true, verify.error)
      && r.toast == ErrorToast(LoginErrorMessage(verify.error))
  {
    var second := Outgoing("GET", VerifyUrl, JNull, stored);
    match verify
    case Failure(e) =>
      Attempt(LibApi.StorageAfterError(stored, true, e), LibApi.RedirectsAfterError(true, e),
        ErrorToast(LoginErrorMessage(e)), [second])
    case Success(_) =>
      Attempt(stored, ["/dashboard"], SuccessToast("Login successful"), [second])
  }

  /** The verification request carries the token the login just returned. */
  lemma VerificationUsesNewToken(storage: map<string, string>, email: string, password: string,
                                 token: string, verify: Result<Json, HttpError>)
    requires token != ""
    ensures var r := LoginAttempt(storage, email, password, Success(token), verify);
      r.sent[1].headers.Some? && r.sent[1].headers.value[Authorization] == "Bearer " + token
  {
    var stored := storage[AuthTokenKey := token];
    assert LibApi.VisibleToken(stored, true) == Some(token);
  }

  /** As written, a verification refused with anything but 401 (a 403 for an account
      without admin rights, say) toasts an error but keeps the new token stored, which
      is all the dashboard layout checks, and stays on the login page. */
  lemma RefusedVerificationKeepsToken(storage: map<string, string>, email: string, password: string,
                                      token: string, e: HttpError)
    requires !IsUnauthorized(e)
    ensures var r := LoginAttempt(storage, email, password, Success(token), Failure(e));
      r.storage == storage[AuthTokenKey := token] && Lookup(r.storage, AuthTokenKey) == Some(token)
      && r.toast == ErrorToast(LoginErrorMessage(e)) && r.navigations == []
  {
  }

  /** The 403 a server gives an account without admin rights, with an empty body:
      the toast falls back to 'Login failed' and the token stays. */
  lemma ForbiddenVerificationKeepsToken(storage: map<string, string>, email: string, password: string, token: string)
    ensures var r := LoginAttempt(storage, email, password, Success(token),
                                  Failure(HttpError("Request failed with status code 403", Some(HttpResponse(403, JNull)))));
      Lookup(r.storage, AuthTokenKey) == Some(token) && r.toast == ErrorToast(JString("Login failed"))
      && r.navigations == []
  {
  }

  /** The attempt with the token withdrawn whenever verification fails. */
  function GuardedLoginAttempt(storage: map<string, string>, email: string, password: string,
                               login: Result<string, HttpError>, verify: Result<Json, HttpError>): (r: Attempt)
    ensures login.Success? ==> (AuthTokenKey in r.storage <==> verify.Success?)
    ensures login.Success? && verify.Success? ==> Lookup(r.storage, AuthTokenKey) == Some(login.value)
    ensures "/dashboard" in r.navigations <==> login.Success? && verify.Success?
    ensures forall k :: k != AuthTokenKey ==> (k in r.storage <==> k in storage)
  {
    var a := LoginAttempt(storage, email, password, login, verify);
    if login.Success? && verify.Failure? then a.(storage := a.storage - {AuthTokenKey}) else a
  }

  /** The guarded attempt differs from the written one only when verification is refused
      with a status other than 401. */
  lemma GuardChangesOnlyRefusedVerification(storage: map<string, string>, email: string, password: string,
                                            login: Result<string, HttpError>, verify: Result<Json, HttpError>)
    ensures GuardedLoginAttempt(storage, email, password, login, verify)
         != LoginAttempt(storage, email, password, login, verify)
      <==> login.Success? && verify.Failure? && !IsUnauthorized(verify.error)
  {
    var a := LoginAttempt(storage, email, password, login, verify);
    if login.Success? && verify.Failure? && !IsUnauthorized(verify.error) {
      assert AuthTokenKey in a.storage;
      assert AuthTokenKey !in GuardedLoginAttempt(storage, email, password, login, verify).storage;
    }
  }

  /** Both inputs are `required`: the browser fires the form's submit only when
      neither is empty. */
  predicate Filled(email: string, password: string) {
    email != "" && password != ""
  }

  class LoginPage {
    var email: string
    var password: string
    var loading: bool
    var sent: seq<SentRequest>
    const window: Window
    const effects: Effects

    constructor (w: Window, fx: Effects)
      ensures window == w && effects == fx
      ensures email == "" && password == "" && !loading && sent == []
    {
      window := w;
      effects := fx;
      email := "";
      password := "";
      loading := false;
      sent := [];
    }

    /** The submit button is disabled while a login is in flight. */
    function SubmitDisabled(): (b: bool)
      reads this
      ensures b <==> loading
    {
      loading
    }

    /** The admin check once the new token is stored. */
    method Verify(verify: Result<Json, HttpError>)
      modifies this, window, effects
      ensures loading == old(loading) && email == old(email) && password == old(password)
      ensures var v := Verification(old(window.localStorage), verify);
        window.localStorage == v.storage
        && window.navigations == old(window.navigations) + v.navigations
        && effects.toasts == old(effects.toasts) + [v.toast]
        && sent == old(sent) + v.sent
      ensures effects.invalidated == old(effects.invalidated)
    {
      ghost var stored := window.localStorage;
      var second := new Request("GET", VerifyUrl, JNull);
      var checked := LibApi.Exchange(window, true, second, verify);
      assert second.Sent() == Outgoing("GET", VerifyUrl, JNull, stored);
      sent := sent + [second.Sent()];
      if checked.Failure? {
        effects.Show(ErrorToast(LoginErrorMessage(checked.error)));
      } else {
        effects.Show(SuccessToast("Login successful"));
        window.Navigate("/dashboard");
      }
    }

    /** `handleLogin`, the two requests going through the interceptors of lib/api.ts;
        with an empty input the browser does not submit and nothing happens. */
    method HandleLogin(login: Result<string, HttpError>, verify: Result<Json, HttpError>)
      modifies this, window, effects
      ensures email == old(email) && password == old(password)
      ensures !Filled(email, password) ==>
        loading == old(loading) && sent == old(sent)
        && window.localStorage == old(window.localStorage) && window.navigations == old(window.navigations)
        && effects.toasts == old(effects.toasts)
      ensures Filled(email, password) ==> !loading
      ensures Filled(email, password) ==>
        var a := LoginAttempt(old(window.localStorage), email, password, login, verify);
        window.localStorage == a.storage
        && window.navigations == old(window.navigations) + a.navigations
        && effects.toasts == old(effects.toasts) + [a.toast]
        && sent == old(sent) + a.sent
      ensures effects.invalidated == old(effects.invalidated)
    {
      if !Filled(email, password) {
        return;
      }
      loading := true;
      ghost var storage := window.localStorage;
      var first := new Request("POST", LoginUrl, Credentials(email, password));
      var answer := LibApi.Exchange(window, true, first, login);
      assert first.Sent() == Outgoing("POST", LoginUrl, Credentials(email, password), storage);
      sent := sent + [first.Sent()];
      if answer.Failure? {
        effects.Show(ErrorToast(LoginErrorMessage(answer.error)));
      } else {
        window.SetItem(AuthTokenKey, answer.value);
        Verify(verify);
      }
      loading := false;
    }
  }
}
