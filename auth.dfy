/**
 * The token lifecycle of auth.go: validating and building authentication
 * options, the Authenticator state machine (token, expiry, endpoint), and the
 * fixed-value TokenAuthenticator.
 *
 * The identity service (gophercloud's AuthenticatedClient, tokens.Get and
 * EndpointLocator) is an IdentityOutcome handed to each authentication.
 * Times are integers in nanoseconds, the unit of Go's time.Duration; the
 * zero time.Time is 0, so an expiry of 0 means "unknown".
 */
module Auth {
  import opened Wrappers
  import opened Errors
  import opened Options

  const Second: int := 1_000_000_000
  const Minute: int := 60 * Second

  /** GetToken refreshes a token that expires in less than this. */
  const RefreshBuffer: int := 5 * Minute

  /** The zero time.Time: expiry not known. */
  const UnknownExpiry: int := 0

  // ---------------------------------------------------------------------
  // ValidateAuthOptions and BuildAuthOptions

  /** The four ways of proving an identity that ValidateAuthOptions accepts. */
  datatype AuthMethod = PasswordMethod | TokenMethod | AppCredentialIDMethod | AppCredentialNameMethod

  /** Does `o` fill in every field that method `m` needs? */
  predicate Supplies(o: AuthOptions, m: AuthMethod) {
    match m
    case PasswordMethod => o.username != "" && o.password != ""
    case TokenMethod => o.tokenID != ""
    case AppCredentialIDMethod => o.applicationCredentialID != "" && o.applicationCredentialSecret != ""
    case AppCredentialNameMethod => o.applicationCredentialName != "" && o.applicationCredentialSecret != ""
  }

  ghost predicate HasAuthMethod(o: AuthOptions) {
    exists m: AuthMethod :: Supplies(o, m)
  }

  /** A scope names a project or a domain, by id or by name. */
  predicate NamesTarget(s: Scope) {
    s.projectID != "" || s.projectName != "" || s.domainID != "" || s.domainName != ""
  }

  /** None is Go's nil error. */
  function ValidateAuthOptions(opts: Option<AuthOptions>): (err: Option<Error>) {
    if opts.None? then Some(NilOptions)
    else
      var o := opts.value;
      if o.identityEndpoint == "" then Some(MissingIdentityEndpoint)
      else
        var hasPassword := o.username != "" && o.password != "";
        var hasToken := o.tokenID != "";
        var hasAppCred := o.applicationCredentialID != "" && o.applicationCredentialSecret != "";
        var hasAppCredName := o.applicationCredentialName != "" && o.applicationCredentialSecret != "";
        if !hasPassword && !hasToken && !hasAppCred && !hasAppCredName then Some(NoAuthMethod)
        else if o.scope.Some? && o.scope.value.projectID == "" && o.scope.value.projectName == ""
             && o.scope.value.domainID == "" && o.scope.value.domainName == "" then Some(ScopeWithoutTarget)
        else None
  }

  /** The existential form of the method check agrees with the four flags
    * ValidateAuthOptions computes. */
  lemma HasAuthMethodIff(o: AuthOptions)
    ensures HasAuthMethod(o) <==>
      || (o.username != "" && o.password != "")
      || o.tokenID != ""
      || (o.applicationCredentialID != "" && o.applicationCredentialSecret != "")
      || (o.applicationCredentialName != "" && o.applicationCredentialSecret != "")
  {
    if HasAuthMethod(o) {
      var m :| Supplies(o, m);
      match m
      case PasswordMethod =>
      case TokenMethod =>
      case AppCredentialIDMethod =>
      case AppCredentialNameMethod =>
    } else {
      assert !Supplies(o, PasswordMethod) && !Supplies(o, TokenMethod);
      assert !Supplies(o, AppCredentialIDMethod) && !Supplies(o, AppCredentialNameMethod);
    }
  }

  /** Validation succeeds exactly for present options with an identity endpoint,
    * at least one complete authentication method, and a scope (if any) that
    * names a target. */
  lemma ValidateAuthOptionsCorrect(opts: Option<AuthOptions>)
    ensures ValidateAuthOptions(opts).None? <==>
      && opts.Some?
      && opts.value.identityEndpoint != ""
      && HasAuthMethod(opts.value)
      && (opts.value.scope.Some? ==> NamesTarget(opts.value.scope.value))
  {
    if opts.Some? {
      HasAuthMethodIff(opts.value);
    }
  }

  /** The checks run in order: nil, endpoint, methods, scope; the error names
    * the first one that fails. */
  lemma ValidateAuthOptionsOrder(opts: Option<AuthOptions>)
    ensures ValidateAuthOptions(opts) == Some(NilOptions) <==> opts.None?
    ensures ValidateAuthOptions(opts) == Some(MissingIdentityEndpoint) <==>
      opts.Some? && opts.value.identityEndpoint == ""
    ensures ValidateAuthOptions(opts) == Some(NoAuthMethod) <==>
      opts.Some? && opts.value.identityEndpoint != "" && !HasAuthMethod(opts.value)
    ensures ValidateAuthOptions(opts) == Some(ScopeWithoutTarget) <==>
      && opts.Some? && opts.value.identityEndpoint != "" && HasAuthMethod(opts.value)
      && opts.value.scope.Some? && !NamesTarget(opts.value.scope.value)
  {
    if opts.Some? {
      HasAuthMethodIff(opts.value);
    }
  }

  function BuildAuthOptions(c: ClientOptions): AuthOptions {
    ZeroAuthOptions.(
      identityEndpoint := c.authURL,
      username := c.username,
      password := c.password,
      domainID := c.userDomainID,
      allowReauth := true,
      scope := if c.projectName != "" || c.projectDomainID != ""
               then Some(ZeroScope.(projectName := c.projectName, domainID := c.projectDomainID))
               else None)
  }

  const ZeroScope := Scope("", "", "", "")

  /** BuildAuthOptions always allows re-authentication and sets a scope only
    * when there is a project name or project domain to put in it. */
  lemma BuildAuthOptionsShape(c: ClientOptions)
    ensures BuildAuthOptions(c).allowReauth
    ensures BuildAuthOptions(c).scope.Some? <==> c.projectName != "" || c.projectDomainID != ""
    ensures BuildAuthOptions(c).scope.Some? ==> NamesTarget(BuildAuthOptions(c).scope.value)
  {
  }

  /** Built options pass validation exactly when the auth URL, user name and
    * password are all given: they carry no token or application credential,
    * and the scope they build is never empty. */
  lemma BuildAuthOptionsValidIff(c: ClientOptions)
    ensures ValidateAuthOptions(Some(BuildAuthOptions(c))).None? <==>
      c.authURL != "" && c.username != "" && c.password != ""
  {
    ValidateAuthOptionsCorrect(Some(BuildAuthOptions(c)));
    HasAuthMethodIff(BuildAuthOptions(c));
  }

  // ---------------------------------------------------------------------
  // The identity service and the cached session

  /** What one authentication round trip learns from the identity service:
    * either the credential exchange fails, or it yields a token together
    * with the result of introspecting its expiry and of looking up the
    * "infra-optim" endpoint in the catalog (None where that step failed). */
  datatype IdentityOutcome =
    | IdentityFailed
    | IdentityOk(token: string, introspected: Option<int>, located: Option<string>)

  /** The Authenticator's mutable triple. */
  datatype Session = Session(token: string, expiry: int, endpoint: string)

  const EmptySession := Session("", UnknownExpiry, "")

  /** The new session and the error that one Authenticate call produces. */
  datatype AuthStep = AuthStep(session: Session, err: Option<Error>)

  /** Authenticate, step by step as auth.go writes it: the token is stored as
    * soon as the exchange succeeds, the expiry only when introspection
    * succeeds, and the endpoint only when the lookup succeeds. */
  function Authenticated(s: Session, identity: IdentityOutcome): AuthStep {
    match identity
    case IdentityFailed => AuthStep(s, Some(IdentityRejected))
    case IdentityOk(token, introspected, located) =>
      var expiry := if introspected.Some? then introspected.value else s.expiry;
      if located.None? then AuthStep(Session(token, expiry, s.endpoint), Some(EndpointNotFound))
      else AuthStep(Session(token, expiry, located.value), None)
  }

  /** A failed credential exchange changes nothing. */
  lemma AuthenticateIdentityFailure(s: Session)
    ensures Authenticated(s, IdentityFailed) == AuthStep(s, Some(IdentityRejected))
  {
  }

  /** A failed endpoint lookup still replaces the token (and possibly the
    * expiry) but keeps the old endpoint. */
  lemma AuthenticateLookupFailure(s: Session, token: string, introspected: Option<int>)
    ensures var r := Authenticated(s, IdentityOk(token, introspected, None));
      r.err == Some(EndpointNotFound) && r.session.token == token && r.session.endpoint == s.endpoint
  {
  }

  /** The expiry changes only through a successful introspection; a failed
    * introspection keeps the previous expiry rather than resetting it. */
  lemma AuthenticateExpiry(s: Session, identity: IdentityOutcome)
    ensures var r := Authenticated(s, identity);
      if identity.IdentityOk? && identity.introspected.Some?
      then r.session.expiry == identity.introspected.value
      else r.session.expiry == s.expiry
  {
  }

  /** Authenticate succeeds exactly when the exchange and the lookup both
    * succeed, and then the session holds the new token and endpoint. */
  lemma AuthenticateSuccess(s: Session, identity: IdentityOutcome)
    ensures var r := Authenticated(s, identity);
      r.err.None? <==> identity.IdentityOk? && identity.located.Some?
    ensures var r := Authenticated(s, identity);
      r.err.None? ==> r.session.token == identity.token && r.session.endpoint == identity.located.value
    ensures var r := Authenticated(s, identity);
      r.err.Some? ==> r.session.endpoint == s.endpoint
  {
  }

  // ---------------------------------------------------------------------
  // GetToken and expiry

  /** time.Until(expiry) < 5*time.Minute, for a known expiry. */
  predicate NeedsRefresh(expiry: int, now: int) {
    expiry != UnknownExpiry && expiry - now < RefreshBuffer
  }

  /** time.Now().After(expiry), for a known expiry. */
  predicate Expired(expiry: int, now: int) {
    expiry != UnknownExpiry && now > expiry
  }

  /** An expired token is always one that GetToken would refresh. */
  lemma ExpiredNeedsRefresh(expiry: int, now: int)
    ensures Expired(expiry, now) ==> NeedsRefresh(expiry, now)
    ensures expiry == UnknownExpiry ==> !Expired(expiry, now) && !NeedsRefresh(expiry, now)
  {
  }

  /** The new session, the result, and whether the identity service was
    * contacted, for one GetToken call. */
  datatype TokenStep = TokenStep(session: Session, result: Result<string, Error>, authenticated: bool)

  /** GetToken at time `now`; `identity` answers the Authenticate call made
    * when the token is near expiry and auto-reauth is on. */
  function TokenFetched(s: Session, autoReauth: bool, now: int, identity: IdentityOutcome): TokenStep {
    if !NeedsRefresh(s.expiry, now) then TokenStep(s, Ok(s.token), false)
    else if !autoReauth then TokenStep(s, Err(TokenExpired), false)
    else
      var a := Authenticated(s, identity);
      if a.err.Some? then TokenStep(a.session, Err(RefreshFailed(a.err.value)), true)
      else TokenStep(a.session, Ok(a.session.token), true)
  }

  /** Outside the refresh window GetToken returns the cached token and
    * changes nothing. */
  lemma GetTokenCached(s: Session, autoReauth: bool, now: int, identity: IdentityOutcome)
    requires !NeedsRefresh(s.expiry, now)
    ensures TokenFetched(s, autoReauth, now, identity) == TokenStep(s, Ok(s.token), false)
  {
  }

  /** Inside the window with auto-reauth off, GetToken fails without
    * contacting the identity service and without changing the session. */
  lemma GetTokenExpiredWithoutReauth(s: Session, now: int, identity: IdentityOutcome)
    requires NeedsRefresh(s.expiry, now)
    ensures TokenFetched(s, false, now, identity) == TokenStep(s, Err(TokenExpired), false)
  {
  }

  /** Inside the window with auto-reauth on, GetToken authenticates once and
    * returns the freshly cached token, or the wrapped failure. */
  lemma GetTokenRefreshes(s: Session, now: int, identity: IdentityOutcome)
    requires NeedsRefresh(s.expiry, now)
    ensures var r := TokenFetched(s, true, now, identity);
      var a := Authenticated(s, identity);
      && r.authenticated
      && r.session == a.session
      && (a.err.None? ==> r.result == Ok(a.session.token))
      && (a.err.Some? ==> r.result == Err(RefreshFailed(a.err.value)))
  {
  }

  /** Whatever path GetToken takes, a token it returns is the one cached
    * afterwards, and it contacts the identity service only when the token
    * is near expiry and auto-reauth is on. */
  lemma GetTokenReturnsCache(s: Session, autoReauth: bool, now: int, identity: IdentityOutcome)
    ensures var r := TokenFetched(s, autoReauth, now, identity);
      r.result.Ok? ==> r.result.value == r.session.token
    ensures TokenFetched(s, autoReauth, now, identity).authenticated <==>
      NeedsRefresh(s.expiry, now) && autoReauth
    ensures !TokenFetched(s, autoReauth, now, identity).authenticated ==>
      TokenFetched(s, autoReauth, now, identity).session == s
  {
  }

  /** A refresh that learns an expiry at least five minutes away settles:
    * the next GetToken at the same time is served from the cache. */
  lemma RefreshSettles(s: Session, now: int, token: string, expiry: int, endpoint: string,
                       next: IdentityOutcome)
    requires NeedsRefresh(s.expiry, now)
    requires expiry - now >= RefreshBuffer
    ensures var first := TokenFetched(s, true, now, IdentityOk(token, Some(expiry), Some(endpoint)));
      && first.result == Ok(token)
      && TokenFetched(first.session, true, now, next) == TokenStep(first.session, Ok(token), false)
  {
  }

  /** The example of the token lifecycle: a token with ten minutes left is
    * served from the cache; with four minutes left GetToken authenticates
    * again and returns the new token. */
  lemma TokenLifecycleExample(t0: int)
    requires t0 > 0
    ensures var s := Session("tok-1", t0 + 10 * Minute, "https://watcher.example");
      var id2 := IdentityOk("tok-2", Some(t0 + 66 * Minute), Some("https://watcher.example"));
      && TokenFetched(s, true, t0, id2) == TokenStep(s, Ok("tok-1"), false)
      && TokenFetched(s, true, t0 + 6 * Minute, id2).result == Ok("tok-2")
      && TokenFetched(s, true, t0 + 6 * Minute, id2).authenticated
  {
  }

  // ---------------------------------------------------------------------
  // Authenticator

  /** A read-only snapshot for diagnostics; TimeUntilExpiry in nanoseconds. */
  datatype AuthInfo = AuthInfo(
    username: string,
    userID: string,
    projectName: string,
    projectID: string,
    domainName: string,
    domainID: string,
    tokenExpiry: int,
    isExpired: bool,
    timeUntilExpiry: int)

  class Authenticator {
    const options: AuthOptions
    const autoReauth: bool
    var token: string
    var tokenExpiry: int
    var endpoint: string

    /** The struct literal of NewAuthenticator: options and the auto-reauth
      * flag, nothing cached yet. */
    constructor (opts: AuthOptions)
      ensures options == opts && autoReauth == opts.allowReauth
      ensures Cached() == EmptySession
    {
      options := opts;
      autoReauth := opts.allowReauth;
      token := "";
      tokenExpiry := UnknownExpiry;
      endpoint := "";
    }

    function Cached(): Session
      reads this
    {
      Session(token, tokenExpiry, endpoint)
    }

    method Authenticate(identity: IdentityOutcome) returns (err: Option<Error>)
      modifies this
      ensures AuthStep(Cached(), err) == Authenticated(old(Cached()), identity)
    {
      if identity.IdentityFailed? {
        return Some(IdentityRejected);
      }
      token := identity.token;
      var introspection := UpdateTokenExpiry(identity.introspected);
      // a failed introspection is ignored: the expiry is checked on demand
      if identity.located.None? {
        return Some(EndpointNotFound);
      }
      endpoint := identity.located.value;
      return None;
    }

    /** updateTokenExpiry: store the introspected expiry, or report that
      * introspection failed and leave the expiry as it was. */
    method UpdateTokenExpiry(introspected: Option<int>) returns (err: Option<Error>)
      modifies this`tokenExpiry
      ensures introspected.Some? ==> tokenExpiry == introspected.value && err.None?
      ensures introspected.None? ==> tokenExpiry == old(tokenExpiry) && err == Some(IntrospectionFailed)
    {
      if introspected.None? {
        return Some(IntrospectionFailed);
      }
      tokenExpiry := introspected.value;
      return None;
    }

    /** GetToken; `authenticated` tells whether it called Authenticate. */
    method GetToken(now: int, identity: IdentityOutcome) returns (r: Result<string, Error>, authenticated: bool)
      modifies this
      ensures TokenStep(Cached(), r, authenticated) == TokenFetched(old(Cached()), autoReauth, now, identity)
    {
      var cached := token;
      var expiry := tokenExpiry;
      authenticated := false;
      if expiry != UnknownExpiry && expiry - now < RefreshBuffer {
        if autoReauth {
          var err := Authenticate(identity);
          authenticated := true;
          if err.Some? {
            return Err(RefreshFailed(err.value)), authenticated;
          }
          cached := token;
        } else {
          return Err(TokenExpired), authenticated;
        }
      }
      return Ok(cached), authenticated;
    }

    /** Reauth: an unconditional Authenticate. */
    method Reauth(identity: IdentityOutcome) returns (err: Option<Error>)
      modifies this
      ensures AuthStep(Cached(), err) == Authenticated(old(Cached()), identity)
    {
      err := Authenticate(identity);
    }

    /** The Watcher endpoint of the cached session. */
    function GetEndpoint(): (e: string)
      reads this
      ensures e == Cached().endpoint
    {
      endpoint
    }

    /** The expiry of the cached session; UnknownExpiry until one is known. */
    function GetTokenExpiry(): (t: int)
      reads this
      ensures t == Cached().expiry
    {
      tokenExpiry
    }

    predicate IsTokenExpired(now: int)
      reads this
    {
      Expired(tokenExpiry, now)
    }

    function GetAuthInfo(now: int): (info: AuthInfo)
      reads this
      ensures info.isExpired == IsTokenExpired(now)
      ensures info.isExpired == Expired(tokenExpiry, now)
      ensures options.scope.None? ==> info.projectName == "" && info.projectID == ""
      ensures tokenExpiry == UnknownExpiry ==> !info.isExpired && info.timeUntilExpiry == 0
      ensures tokenExpiry != UnknownExpiry ==> now + info.timeUntilExpiry == tokenExpiry
      ensures info.tokenExpiry == tokenExpiry
      ensures info.username == options.username && info.domainID == options.domainID
    {
      var info := AuthInfo(options.username, options.userID, "", "", options.domainName, options.domainID,
                           tokenExpiry, false, 0);
      var info := if options.scope.Some?
        then info.(projectName := options.scope.value.projectName, projectID := options.scope.value.projectID)
        else info;
      if tokenExpiry != UnknownExpiry
      then info.(isExpired := now > tokenExpiry, timeUntilExpiry := tokenExpiry - now)
      else info
    }
  }

  /** NewAuthenticator: nil options and a missing identity endpoint fail
    * before any authentication; otherwise one Authenticate call decides. */
  method NewAuthenticator(opts: Option<AuthOptions>, identity: IdentityOutcome) returns (r: Result<Authenticator, Error>)
    ensures opts.None? ==> r == Err(NilOptions)
    ensures opts.Some? && opts.value.identityEndpoint == "" ==> r == Err(MissingIdentityEndpoint)
    ensures opts.Some? && opts.value.identityEndpoint != "" ==>
      var step := Authenticated(EmptySession, identity);
      && (step.err.Some? ==> r == Err(InitialAuthFailed(step.err.value)))
      && (step.err.None? ==>
            && r.Ok? && fresh(r.value)
            && r.value.Cached() == step.session
            && r.value.options == opts.value
            && r.value.autoReauth == opts.value.allowReauth)
  {
    if opts.None? {
      return Err(NilOptions);
    }
    if opts.value.identityEndpoint == "" {
      return Err(MissingIdentityEndpoint);
    }
    var auth := new Authenticator(opts.value);
    var err := auth.Authenticate(identity);
    if err.Some? {
      return Err(InitialAuthFailed(err.value));
    }
    return Ok(auth);
  }

  // ---------------------------------------------------------------------
  // TokenAuthenticator

  /** A token and endpoint fixed at construction. */
  datatype TokenAuthenticator = TokenAuthenticator(endpoint: string, token: string) {

    function GetToken(): (r: Result<string, Error>)
      ensures r.Err? <==> token == ""
      ensures r.Ok? ==> r.value == token
      ensures r.Err? ==> r.error == EmptyToken
    {
      if token == "" then Err(EmptyToken) else Ok(token)
    }

    function GetEndpoint(): string {
      endpoint
    }
  }

  function NewTokenAuthenticator(endpoint: string, token: string): TokenAuthenticator {
    TokenAuthenticator(endpoint, token)
  }

  /** A token authenticator hands back exactly what it was built with: the
    * endpoint always, the token unless it is empty. */
  lemma TokenAuthenticatorReturnsInputs(endpoint: string, token: string)
    ensures NewTokenAuthenticator(endpoint, token).GetEndpoint() == endpoint
    ensures token != "" ==> NewTokenAuthenticator(endpoint, token).GetToken() == Ok(token)
    ensures token == "" ==> NewTokenAuthenticator(endpoint, token).GetToken() == Err(EmptyToken)
  {
  }
}
