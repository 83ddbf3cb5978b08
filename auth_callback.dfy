/** The OAuth callback route: where a request to `/api/auth/callback` is
    redirected, given its optional `code` and `error` query parameters. */
module AuthCallback {
  import opened Common

  /** The three places the route can send the browser. */
  datatype Redirect = SignInWithError | Home | SignIn

  /** The path of each redirect target, resolved against the request URL. */
  function Path(r: Redirect): string
  {
    match r
    case SignInWithError => "/sign-in?error=oauth_error"
    case Home => "/"
    case SignIn => "/sign-in"
  }

  /** `GET`: an error from the provider wins over a code; a code alone goes
      home; neither goes back to sign-in. A parameter that is absent or
      empty counts as missing. */
  function Callback(code: Option<string>, error: Option<string>): (r: Redirect)
    ensures r == SignInWithError <==> Truthy(error)
    ensures r == Home <==> !Truthy(error) && Truthy(code)
    ensures r == SignIn <==> !Truthy(error) && !Truthy(code)
  {
    if Truthy(error) then SignInWithError
    else if Truthy(code) then Home
    else SignIn
  }

  /** The three targets are distinct paths, so the redirect alone tells the
      three outcomes apart; an empty parameter is the same as an absent one. */
  lemma CallbackOutcomesDistinct(code: Option<string>, error: Option<string>)
    ensures Path(Callback(code, error)) == "/sign-in?error=oauth_error" <==> Truthy(error)
    ensures Path(Callback(code, error)) == "/" <==> !Truthy(error) && Truthy(code)
    ensures Callback(code, Some("")) == Callback(code, None)
    ensures Callback(Some(""), error) == Callback(None, error)
  {
  }
}
