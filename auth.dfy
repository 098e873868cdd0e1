/**
 * Model of the decision logic of services/auth.service.ts: the e-mail domain
 * check, the deep-link gate of `handleAuthRedirect`, the early exits of
 * `createSessionFromUrl` and the browser-result check of `signInWithGoogle`.
 * Supabase, the web browser, URL parsing and the platform are inputs: their
 * results are given to the functions as values.
 */
module Auth {

  import opened Common

  /** `Platform.OS`. */
  datatype Platform = Web | Ios | Android

  const AllowedDomain: string := "@cecytem.edu.mx"

  /** `email.endsWith(allowedDomain)`: exact, case-sensitive suffix test. */
  function ValidateEmailDomain(email: string): (ok: bool)
    ensures ok <==> exists local: string :: local + AllowedDomain == email
  {
    var n := |email| - |AllowedDomain|;
    if n >= 0 && email[n..] == AllowedDomain then
      assert email[..n] + AllowedDomain == email;
      true
    else
      false
  }

  /** What `QueryParams.getQueryParams(url)` yields: the query parameters and the error code. */
  datatype QueryParams = QueryParams(params: map<string, string>, errorCode: Option<string>)

  function Param(q: QueryParams, key: string): Option<string> {
    if key in q.params then Some(q.params[key]) else None
  }

  /** The tokens `supabase.auth.setSession` is called with. */
  datatype TokenPair = TokenPair(accessToken: string, refreshToken: Option<string>)

  /** What `supabase.auth.setSession` resolves to: an error, or the session (possibly null). */
  datatype SetSessionReply = SessionError(message: string) | SessionData(session: Option<string>)

  /** One run of `createSessionFromUrl`: the call to setSession it made, if any, and what it
      returned (`Ok(None)` for the bare `return`) or threw. */
  datatype SessionAttempt = SessionAttempt(call: Option<TokenPair>, result: Result<Option<string>>)

  /** `createSessionFromUrl(url)`, given the parse of url and the reply setSession would give. */
  function CreateSessionFromUrl(q: QueryParams, reply: SetSessionReply): (a: SessionAttempt)
    // an error code in the URL is thrown, and nothing else happens
    ensures Truthy(q.errorCode) ==> a == SessionAttempt(None, Thrown(q.errorCode.value))
    // without an access token it returns without setting a session
    ensures !Truthy(q.errorCode) && !Truthy(Param(q, "access_token")) ==> a == SessionAttempt(None, Ok(None))
    // otherwise setSession receives exactly the two tokens of the URL
    ensures a.call.Some? <==> !Truthy(q.errorCode) && Truthy(Param(q, "access_token"))
    ensures a.call.Some? ==>
      a.call.value == TokenPair(q.params["access_token"], Param(q, "refresh_token"))
    // a session is only ever returned from a successful setSession call
    ensures a.result.Ok? && a.result.value.Some? ==>
      a.call.Some? && reply == SessionData(a.result.value)
    ensures a.result.Thrown? && a.call.Some? ==> reply == SessionError(a.result.error)
    // once setSession is called, its error is thrown and its session returned
    ensures a.call.Some? && reply.SessionError? ==> a.result == Thrown(reply.message)
    ensures a.call.Some? && reply.SessionData? ==> a.result == Ok(reply.session)
  {
    if Truthy(q.errorCode) then SessionAttempt(None, Thrown(q.errorCode.value))
    else
      var accessToken := Param(q, "access_token");
      if !Truthy(accessToken) then SessionAttempt(None, Ok(None))
      else
        var call := TokenPair(accessToken.value, Param(q, "refresh_token"));
        match reply
        case SessionError(message) => SessionAttempt(Some(call), Thrown(message))
        case SessionData(session) => SessionAttempt(Some(call), Ok(session))
  }

  /** What `Linking.parse(url)` yields for the gate. */
  datatype DeepLink = DeepLink(hostname: Option<string>, path: Option<string>)

  /** `handleAuthRedirect(url)`: whether it starts `createSessionFromUrl(url)`. */
  function HandleAuthRedirect(os: Platform, link: DeepLink): bool
  {
    if os == Web then false
    else link.hostname == Some("auth") && link.path == Some("callback")
  }

  /** What `supabase.auth.signInWithOAuth` resolves to: an error, or the provider URL (possibly absent). */
  datatype OAuthReply = OAuthError(message: string) | OAuthData(url: Option<string>)

  /** The `type` of the result of `WebBrowser.openAuthSessionAsync`. */
  datatype BrowserResultType = Success | Cancel | Dismiss | Opened | Locked

  /** What `WebBrowser.openAuthSessionAsync` resolves to, or the error it rejects with. */
  datatype BrowserResult = BrowserResult(kind: BrowserResultType, url: string) | BrowserRejected(error: string)

  /** One run of `signInWithGoogle`: the URL it opened in the browser, the session attempt it
      made, and whether it ended by throwing. */
  datatype SignIn = SignIn(browserUrl: Option<string>, attempt: Option<SessionAttempt>, error: Option<string>)

  /** `signInWithGoogle()`, given the replies of its collaborators; `parse` is the parse of
      the URL the browser returned. */
  function SignInWithGoogle(oauth: OAuthReply, browser: BrowserResult, parse: QueryParams,
                            reply: SetSessionReply): (s: SignIn)
    // an OAuth error is rethrown before the browser opens
    ensures oauth.OAuthError? ==> s == SignIn(None, None, Some(oauth.message))
    // the browser opens the provider URL, or "" when there is none
    ensures oauth.OAuthData? ==> s.browserUrl == Some(if oauth.url.Some? then oauth.url.value else "")
    // a session is attempted only when the browser reports success
    ensures s.attempt.Some? <==> oauth.OAuthData? && browser.BrowserResult? && browser.kind == Success
    ensures s.attempt.Some? ==> s.attempt.value == CreateSessionFromUrl(parse, reply)
    // the sign-in fails exactly when OAuth fails, the browser rejects or the session attempt throws
    ensures s.error.Some? <==>
      oauth.OAuthError? || (oauth.OAuthData? && browser.BrowserRejected?)
      || (s.attempt.Some? && s.attempt.value.result.Thrown?)
    // the error rethrown is the browser's rejection or the session attempt's own error
    ensures oauth.OAuthData? && browser.BrowserRejected? ==> s.error == Some(browser.error)
    ensures s.attempt.Some? && s.attempt.value.result.Thrown? ==> s.error == Some(s.attempt.value.result.error)
    // a cancelled or dismissed browser ends the sign-in quietly, with no session
    ensures oauth.OAuthData? && browser.BrowserResult? && browser.kind != Success ==>
      s.attempt.None? && s.error.None?
  {
    match oauth
    case OAuthError(message) => SignIn(None, None, Some(message))
    case OAuthData(url) =>
      var browserUrl := Some(if url.Some? then url.value else "");
      match browser
      case BrowserRejected(error) => SignIn(browserUrl, None, Some(error))
      case BrowserResult(kind, _) =>
        if kind != Success then SignIn(browserUrl, None, None)
        else
          var attempt := CreateSessionFromUrl(parse, reply);
          SignIn(browserUrl, Some(attempt), if attempt.result.Thrown? then Some(attempt.result.error) else None)
  }

  // ---------------------------------------------------------------------------
  // Lemmas

  /** The domain test is case-sensitive: an upper-case domain is refused. */
  lemma UpperCaseDomainRefused()
    ensures !ValidateEmailDomain("ana@CECYTEM.EDU.MX")
  {
    assert "ana@CECYTEM.EDU.MX"[3..] != AllowedDomain by {
      assert "ana@CECYTEM.EDU.MX"[3..][1] == 'C';
    }
  }

  /** Any address at the domain passes; the domain alone (empty local part) passes too. */
  lemma DomainAddressesAccepted(local: string)
    ensures ValidateEmailDomain(local + AllowedDomain)
  {
  }

  /** The gate is exact: nothing starts on the web, and off the web only the link with
      hostname "auth" and path "callback" starts, compared case-sensitively and with no
      trailing slash; a link without a hostname or path never starts. */
  lemma RedirectGateIsExact(os: Platform, link: DeepLink)
    ensures !HandleAuthRedirect(Web, link)
    ensures HandleAuthRedirect(os, link) <==> os != Web && link == DeepLink(Some("auth"), Some("callback"))
    ensures link.hostname.None? || link.path.None? ==> !HandleAuthRedirect(os, link)
    ensures !HandleAuthRedirect(os, DeepLink(Some("Auth"), Some("callback")))
    ensures !HandleAuthRedirect(os, DeepLink(Some("auth"), Some("callback/")))
  {
    assert "Auth"[0] != "auth"[0];
    assert |"callback/"| != |"callback"|;
  }

  /** A deep link that starts session creation with a token and no error reaches setSession. */
  lemma {:induction false} RedirectWithTokenReachesSetSession(os: Platform, link: DeepLink, q: QueryParams,
                                                              reply: SetSessionReply)
    requires HandleAuthRedirect(os, link)
    requires !Truthy(q.errorCode) && Truthy(Param(q, "access_token"))
    ensures os != Web
    ensures CreateSessionFromUrl(q, reply).call == Some(TokenPair(q.params["access_token"], Param(q, "refresh_token")))
  {
  }
}
