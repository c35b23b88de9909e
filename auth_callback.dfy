/**
 * The route the identity provider returns to after sign-in: report the
 * provider's error, or exchange the code for a session and go on, and
 * answer with exactly one redirect, unless the exchange itself throws (the
 * server placeholder client has no `exchangeCodeForSession`,
 * `SupabaseServer.ServerPlaceholderAnswer`), in which case the route throws.
 */
module AuthCallback {
  import opened Common

  /** Where the redirect goes, relative to the request's origin. */
  datatype Target =
    | SignInWithError(message: string)  // `/auth/signin?error=<message, encoded>`
    | Continue(path: string)            // the `next` parameter
    | SignIn                            // `/auth/signin`

  /** The redirect, and the code exchanged for a session on the way, if any. */
  datatype Response = Response(exchanged: Option<string>, target: Target)

  /** Where to go after a successful exchange: `next`, or the dashboard when it is missing or empty. */
  function NextPath(query: Params): (p: string)
    ensures Truthy(Get(query, "next")) ==> p == Get(query, "next").value
    ensures !Truthy(Get(query, "next")) ==> p == "/dashboard"
  {
    var next := Get(query, "next");
    if Truthy(next) then next.value else "/dashboard"
  }

  /** `GET` of the callback; `exchangeError` is what `exchangeCodeForSession`
      reports for the code (none on success). */
  function Callback(query: Params, exchangeError: Option<string>): (r: Response)
    ensures r.exchanged.Some? <==> !Truthy(Get(query, "error")) && Truthy(Get(query, "code"))
    ensures r.exchanged.Some? ==> r.exchanged == Get(query, "code")
    ensures r.target.Continue? <==> r.exchanged.Some? && exchangeError.None?
    ensures r.target.Continue? ==> r.target.path == NextPath(query)
    ensures r.target == SignIn <==> !Truthy(Get(query, "error")) && !Truthy(Get(query, "code"))
  {
    var code := Get(query, "code");
    var error := Get(query, "error");
    var errorDescription := Get(query, "error_description");
    if Truthy(error) then
      Response(None, SignInWithError(if Truthy(errorDescription) then errorDescription.value else error.value))
    else if Truthy(code) then
      Response(Some(code.value),
        if exchangeError.None? then Continue(NextPath(query)) else SignInWithError(exchangeError.value))
    else Response(None, SignIn)
  }

  /** A provider error is reported before anything else: no code is
      exchanged, and the message is the description when there is one. */
  lemma ProviderErrorWins(query: Params, exchangeError: Option<string>)
    requires Truthy(Get(query, "error"))
    ensures Callback(query, exchangeError).exchanged.None?
    ensures Callback(query, exchangeError).target ==
      SignInWithError(if Truthy(Get(query, "error_description")) then Get(query, "error_description").value
                      else Get(query, "error").value)
  {
  }

  /** A failed exchange reports the exchange's own message. */
  lemma FailedExchangeReported(query: Params, message: string)
    requires !Truthy(Get(query, "error")) && Truthy(Get(query, "code"))
    ensures Callback(query, Some(message)).target == SignInWithError(message)
  {
  }

  /** An empty `error` counts as none, and a successful exchange without
      `next` lands on the dashboard. */
  lemma CallbackExample()
    ensures Callback([("code", "abc"), ("error", "")], None) == Response(Some("abc"), Continue("/dashboard"))
    ensures Callback([("code", "abc"), ("next", "/listings/new")], None) == Response(Some("abc"), Continue("/listings/new"))
  {
    var q1: Params := [("code", "abc"), ("error", "")];
    assert Get(q1, "code") == Some("abc");
    assert Get(q1, "error") == Some("") by { assert q1[1..] == [("error", "")]; }
    assert Get(q1, "next") == None by { assert q1[1..][1..] == []; }
    var q2: Params := [("code", "abc"), ("next", "/listings/new")];
    assert Get(q2, "error") == None by { assert q2[1..][1..] == []; }
    assert Get(q2, "next") == Some("/listings/new") by { assert q2[1..] == [("next", "/listings/new")]; }
  }
}
