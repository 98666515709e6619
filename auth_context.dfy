/** frontend/src/contexts/AuthContext.js: the signed-in session. The authorization-code
    exchange (section 4.1.3 of RFC 6749) and the userinfo request are performed by the
    platform; their outcomes are inputs here. */
module AuthContext {
  import opened Wrappers
  import opened ProfileService

  /** What the token endpoint did: issued an access token, or threw with a message. */
  datatype TokenOutcome = TokenIssued(accessToken: string) | TokenFailed(message: string)

  /** What the userinfo request did: answered (with the HTTP ok flag and the parsed claims),
      or threw with a message (a network error or an unparsable body). */
  datatype UserInfoOutcome = UserInfoAnswered(ok: bool, claims: User) | UserInfoFailed(message: string)

  /** The authorization response the session hook hands over: none yet, success with an
      authorization code, an error with its message ('' when absent), or another type such as
      a dismissed browser. */
  datatype AuthResponse = NoResponse | Success(code: string) | Error(message: string) | Other

  const USERINFO_ERROR: string := "Failed to fetch user info"

  /** `err.message || 'Login failed'`. */
  function FailureMessage(message: string): (r: string)
    ensures r != ""
    ensures message != "" ==> r == message
  {
    if message != "" then message else "Login failed"
  }

  /** The session an exchange ends in, as (user, access token, error). */
  function ExchangeResult(token: TokenOutcome, info: UserInfoOutcome): (r: (Option<User>, Option<string>, Option<string>))
    ensures r.2.None? <==> token.TokenIssued? && info.UserInfoAnswered? && info.ok
    ensures r.2.None? ==> r.0 == Some(info.claims) && r.1 == Some(token.accessToken)
    ensures r.2.Some? ==> r.0.None? && r.1.None? && r.2.value != ""
    ensures token.TokenIssued? && info.UserInfoAnswered? && !info.ok ==> r.2 == Some(USERINFO_ERROR)
  {
    match token
    case TokenFailed(m) => (None, None, Some(FailureMessage(m)))
    case TokenIssued(t) =>
      match info
      case UserInfoFailed(m) => (None, None, Some(FailureMessage(m)))
      case UserInfoAnswered(ok, claims) =>
        if ok then (Some(claims), Some(t), None) else (None, None, Some(USERINFO_ERROR))
  }

  class AuthProvider {
    var user: Option<User>
    var accessToken: Option<string>
    var isLoading: bool
    var error: Option<string>

    constructor()
      ensures user.None? && accessToken.None? && !isLoading && error.None?
    {
      user := None;
      accessToken := None;
      isLoading := false;
      error := None;
    }

    /** `Boolean(user && accessToken)`: an empty token string is falsy. */
    predicate IsAuthenticated()
      reads this
    {
      user.Some? && accessToken.Some? && accessToken.value != ""
    }

    /** exchangeCodeForToken: the token is stored as soon as it is issued; a userinfo
        failure, a non-ok answer or a token failure then sets the error and clears both
        user and token; loading ends in every case. */
    method ExchangeCodeForToken(token: TokenOutcome, info: UserInfoOutcome)
      modifies this
      ensures (user, accessToken, error) == ExchangeResult(token, info)
      ensures !isLoading
    {
      isLoading := true;
      error := None;
      if token.TokenFailed? {
        error := Some(FailureMessage(token.message));
        user := None;
        accessToken := None;
        isLoading := false;
        return;
      }
      accessToken := Some(token.accessToken);
      if info.UserInfoFailed? {
        error := Some(FailureMessage(info.message));
        user := None;
        accessToken := None;
      } else if !info.ok {
        error := Some(FailureMessage(USERINFO_ERROR));
        user := None;
        accessToken := None;
      } else {
        user := Some(info.claims);
      }
      isLoading := false;
    }

    /** The response effect: a success starts the exchange, an error records its message
        (or 'Authentication failed') and ends loading; anything else does nothing. */
    method HandleResponse(response: AuthResponse, token: TokenOutcome, info: UserInfoOutcome)
      modifies this
      ensures response.Success? ==> (user, accessToken, error) == ExchangeResult(token, info) && !isLoading
      ensures response.Error? ==>
        user == old(user) && accessToken == old(accessToken) && !isLoading &&
        error == Some(if response.message != "" then response.message else "Authentication failed")
      ensures response.NoResponse? || response.Other? ==>
        user == old(user) && accessToken == old(accessToken) && isLoading == old(isLoading) && error == old(error)
    {
      match response
      case Success(_) =>
        ExchangeCodeForToken(token, info);
      case Error(message) =>
        error := Some(if message != "" then message else "Authentication failed");
        isLoading := false;
      case NoResponse =>
      case Other =>
    }

    /** login: the error is cleared before the browser prompt opens. */
    method Login()
      modifies this
      ensures error.None?
      ensures user == old(user) && accessToken == old(accessToken) && isLoading == old(isLoading)
    {
      error := None;
    }

    /** logout. */
    method Logout()
      modifies this
      ensures user.None? && accessToken.None? && error.None? && !IsAuthenticated()
      ensures isLoading == old(isLoading)
    {
      user := None;
      accessToken := None;
      error := None;
    }
  }

  /** After an exchange the session is authenticated exactly when the token was issued
      non-empty and userinfo answered ok, and it then carries those claims. */
  lemma ExchangeAuthenticates(token: TokenOutcome, info: UserInfoOutcome)
    ensures var r := ExchangeResult(token, info);
      (r.0.Some? && r.1.Some? && r.1.value != "") <==>
        token.TokenIssued? && token.accessToken != "" && info.UserInfoAnswered? && info.ok
  {
  }
}
