/**
 * client.go: the Client, its constructors and accessors, the request path
 * doRequest with its 401 handling, and the classification of API errors.
 *
 * The network is a script: `http` lists the replies the server gives to
 * successive requests (a transport error once it runs out), and `idp`
 * lists the outcomes of successive calls to the identity service (a failed
 * exchange once it runs out). The clock reads `now` throughout one call.
 */
module WatcherClient {
  import opened Wrappers
  import opened Errors
  import opened Options
  import opened Auth
  import Decimal
  import Utf8

  const DefaultAPIVersion: string := "v1"
  const DefaultTimeout: int := 30 * Second

  const StatusUnauthorized: int := 401
  const StatusForbidden: int := 403
  const StatusNotFound: int := 404
  const StatusConflict: int := 409

  // ---------------------------------------------------------------------
  // The script of the outside world

  /** The server's reply to one request: a status and body, or a transport failure. */
  datatype Reply = Answered(status: int, body: string) | TransportFailure

  /** The response doRequest hands back on success. */
  datatype Response = Response(status: int, body: string)

  /** The request doRequest sends: method, URL and the headers that vary. */
  datatype Outbound = Outbound(httpMethod: string, url: string, token: string, versionHeader: string)

  /** What doRequest did, in order: a token refresh inside GetToken, a request
    * with its reply, and a Reauth after a 401. */
  datatype Event =
    | Refreshed(ok: bool)
    | Sent(request: Outbound, reply: Reply)
    | Reauthenticated(ok: bool)

  /** The next identity outcome, and the script after it. */
  function Next(idp: seq<IdentityOutcome>): IdentityOutcome {
    if idp == [] then IdentityFailed else idp[0]
  }

  function Rest(idp: seq<IdentityOutcome>): seq<IdentityOutcome> {
    if idp == [] then [] else idp[1..]
  }

  // ---------------------------------------------------------------------
  // The authenticator behind a client

  /** A Client's authenticator: a TokenAuthenticator or a full Authenticator,
    * the two implementations the package provides. */
  datatype Provider = Fixed(t: TokenAuthenticator) | Refreshing(a: Authenticator)

  function Footprint(p: Provider): set<object> {
    if p.Refreshing? then {p.a} else {}
  }

  function ProviderEndpoint(p: Provider): string
    reads Footprint(p)
  {
    match p
    case Fixed(t) => t.GetEndpoint()
    case Refreshing(a) => a.GetEndpoint()
  }

  /** The authenticator's state as a value: what doRequest depends on. */
  datatype ProviderView = FixedView(t: TokenAuthenticator) | RefreshingView(session: Session, autoReauth: bool)

  /** Does a 401 lead to Reauth and a retry? Only for an auto-reauth Authenticator. */
  predicate Retries(v: ProviderView) {
    v.RefreshingView? && v.autoReauth
  }

  /** One GetToken call through the interface, with the events it caused and
    * what is left of the identity script. */
  datatype Fetch = Fetch(view: ProviderView, result: Result<string, Error>, events: seq<Event>,
                         rest: seq<IdentityOutcome>)

  function FetchToken(v: ProviderView, now: int, idp: seq<IdentityOutcome>): Fetch {
    match v
    case FixedView(t) => Fetch(v, t.GetToken(), [], idp)
    case RefreshingView(s, auto) =>
      var step := TokenFetched(s, auto, now, Next(idp));
      if step.authenticated
      then Fetch(RefreshingView(step.session, auto), step.result, [Refreshed(step.result.Ok?)], Rest(idp))
      else Fetch(RefreshingView(step.session, auto), step.result, [], idp)
  }

  // ---------------------------------------------------------------------
  // doRequest as a function of the script

  /** The fixed part of one doRequest call: method, full URL and the
    * OpenStack-API-Version header. */
  datatype Call = Call(httpMethod: string, url: string, versionHeader: string)

  datatype Exchanged = Exchanged(result: Result<Response, Error>, view: ProviderView, trace: seq<Event>)

  /** doRequest: get a token (failure ends the call before any request);
    * send; on a transport error stop; on 401 either Reauth and start over
    * (auto-reauth Authenticator) or fail; on any other non-2xx status
    * return an APIError; otherwise return the response. */
  function Exchange(v: ProviderView, c: Call, now: int, http: seq<Reply>, idp: seq<IdentityOutcome>): Exchanged
    decreases |http|
  {
    var f := FetchToken(v, now, idp);
    if f.result.Err? then Exchanged(Err(TokenUnavailable(f.result.error)), f.view, f.events)
    else
      var reply := if http == [] then TransportFailure else http[0];
      var sent := f.events + [Sent(Outbound(c.httpMethod, c.url, f.result.value, c.versionHeader), reply)];
      if reply.TransportFailure? then Exchanged(Err(RequestFailed), f.view, sent)
      else if reply.status == StatusUnauthorized then
        if Retries(f.view) then
          var a := Authenticated(f.view.session, Next(f.rest));
          var v' := RefreshingView(a.session, true);
          if a.err.Some? then Exchanged(Err(ReauthFailed(a.err.value)), v', sent + [Reauthenticated(false)])
          else
            var more := Exchange(v', c, now, http[1..], Rest(f.rest));
            Exchanged(more.result, more.view, sent + [Reauthenticated(true)] + more.trace)
        else Exchanged(Err(Unauthorized), f.view, sent)
      else if reply.status < 200 || reply.status >= 300 then
        Exchanged(Err(APIError(reply.status, reply.body, c.url, c.httpMethod)), f.view, sent)
      else Exchanged(Ok(Response(reply.status, reply.body)), f.view, sent)
  }

  function Last(t: seq<Event>): Event
    requires t != []
  {
    t[|t| - 1]
  }

  /** The events of one GetToken are at most one refresh, and never a request. */
  lemma FetchEvents(v: ProviderView, now: int, idp: seq<IdentityOutcome>)
    ensures var f := FetchToken(v, now, idp);
      && |f.events| <= 1
      && (forall e :: e in f.events ==> e.Refreshed? && e.ok == f.result.Ok?)
      && (v.FixedView? ==> f.view == v && f.events == [])
      && (v.RefreshingView? ==> f.view.RefreshingView? && f.view.autoReauth == v.autoReauth)
      && (v.RefreshingView? && !v.autoReauth ==> f.view == v && f.events == [])
  {
  }

  /** Each outcome of doRequest is explained by the last thing that happened:
    * a response and an APIError come from the last reply (an APIError never
    * from a 2xx or a 401, and it names the call's method and URL), a 401
    * failure from a 401 reply, a transport failure from the exhausted
    * script, a failed Reauth from the Reauth itself, and a token failure
    * from GetToken; no other error occurs. */
  predicate Explained(x: Exchanged, c: Call) {
    && (x.result.Ok? ==>
          && x.trace != [] && Last(x.trace).Sent?
          && Last(x.trace).reply == Answered(x.result.value.status, x.result.value.body)
          && 200 <= x.result.value.status < 300)
    && (x.result.Err? && x.result.error.APIError? ==>
          && x.trace != [] && Last(x.trace).Sent?
          && Last(x.trace).reply == Answered(x.result.error.statusCode, x.result.error.message)
          && !(200 <= x.result.error.statusCode < 300)
          && x.result.error.statusCode != StatusUnauthorized
          && x.result.error.url == c.url && x.result.error.httpMethod == c.httpMethod)
    && (x.result == Err(Unauthorized) ==>
          x.trace != [] && Last(x.trace).Sent? && Last(x.trace).reply.Answered?
          && Last(x.trace).reply.status == StatusUnauthorized)
    && (x.result == Err(RequestFailed) ==>
          x.trace != [] && Last(x.trace).Sent? && Last(x.trace).reply.TransportFailure?)
    && (x.result.Err? && x.result.error.ReauthFailed? ==>
          x.trace != [] && Last(x.trace) == Reauthenticated(false))
    && (x.result.Err? && x.result.error.TokenUnavailable? ==>
          x.trace == [] || Last(x.trace) == Refreshed(false))
    && (x.result.Err? ==>
          x.result.error.APIError? || x.result.error == Unauthorized || x.result.error == RequestFailed
          || x.result.error.ReauthFailed? || x.result.error.TokenUnavailable?)
  }

  /** Events before a non-empty trace do not change what explains its outcome. */
  lemma ExplainedAfterPrefix(prefix: seq<Event>, more: Exchanged, c: Call)
    requires Explained(more, c) && more.trace != []
    ensures Explained(Exchanged(more.result, more.view, prefix + more.trace), c)
  {
    assert Last(prefix + more.trace) == Last(more.trace);
  }

  /** A retry starts from an auto-reauth Authenticator, so its trace is never
    * empty: either GetToken refreshed or a request was sent. */
  lemma RetryTraceNonEmpty(s: Session, c: Call, now: int, http: seq<Reply>, idp: seq<IdentityOutcome>)
    ensures Exchange(RefreshingView(s, true), c, now, http, idp).trace != []
  {
    var f := FetchToken(RefreshingView(s, true), now, idp);
    if f.result.Err? {
      assert f.events != [];
    }
  }

  lemma {:induction false} OutcomeMatchesLastEvent(v: ProviderView, c: Call, now: int, http: seq<Reply>,
                                                   idp: seq<IdentityOutcome>)
    ensures Explained(Exchange(v, c, now, http, idp), c)
    decreases |http|
  {
    var f := FetchToken(v, now, idp);
    FetchEvents(v, now, idp);
    if f.result.Ok? && http != [] && http[0].Answered? && http[0].status == StatusUnauthorized && Retries(f.view) {
      var a := Authenticated(f.view.session, Next(f.rest));
      if a.err.None? {
        var v' := RefreshingView(a.session, true);
        OutcomeMatchesLastEvent(v', c, now, http[1..], Rest(f.rest));
        RetryTraceNonEmpty(a.session, c, now, http[1..], Rest(f.rest));
        var more := Exchange(v', c, now, http[1..], Rest(f.rest));
        var sent := f.events + [Sent(Outbound(c.httpMethod, c.url, f.result.value, c.versionHeader), http[0])];
        ExplainedAfterPrefix(sent + [Reauthenticated(true)], more, c);
      }
    } else if f.result.Err? && f.events != [] {
      assert f.events[0] in f.events;
    }
  }

  /** One 401 answered by a successful Reauth: the call is the request, the
    * Reauth, then a whole new call from the re-authenticated state. */
  lemma RetryUnfolds(v: ProviderView, c: Call, now: int, http: seq<Reply>, idp: seq<IdentityOutcome>)
    requires FetchToken(v, now, idp).result.Ok? && Retries(FetchToken(v, now, idp).view)
    requires http != [] && http[0].Answered? && http[0].status == StatusUnauthorized
    requires Authenticated(FetchToken(v, now, idp).view.session, Next(FetchToken(v, now, idp).rest)).err.None?
    ensures var f := FetchToken(v, now, idp);
      var a := Authenticated(f.view.session, Next(f.rest));
      var more := Exchange(RefreshingView(a.session, true), c, now, http[1..], Rest(f.rest));
      Exchange(v, c, now, http, idp)
        == Exchanged(more.result, more.view,
                     f.events + [Sent(Outbound(c.httpMethod, c.url, f.result.value, c.versionHeader), http[0]),
                                 Reauthenticated(true)] + more.trace)
  {
  }

  /** A failed Reauth, if there is one, is the last event and the only
    * failed Reauth, and the call returns its error. */
  predicate EndsAtFailedReauth(x: Exchanged) {
    Reauthenticated(false) in x.trace ==>
      && x.result.Err? && x.result.error.ReauthFailed?
      && Last(x.trace) == Reauthenticated(false)
      && Reauthenticated(false) !in x.trace[..|x.trace| - 1]
  }

  /** A failed Reauth ends the call: it is the last event, it happens at most
    * once, and the call returns the Reauth error, so no request follows it. */
  lemma {:induction false} ReauthFailureEnds(v: ProviderView, c: Call, now: int, http: seq<Reply>,
                                             idp: seq<IdentityOutcome>)
    ensures EndsAtFailedReauth(Exchange(v, c, now, http, idp))
    decreases |http|
  {
    var f := FetchToken(v, now, idp);
    if f.result.Ok? && http != [] && http[0].Answered? && http[0].status == StatusUnauthorized && Retries(f.view)
       && Authenticated(f.view.session, Next(f.rest)).err.None?
    {
      var a := Authenticated(f.view.session, Next(f.rest));
      var more := Exchange(RefreshingView(a.session, true), c, now, http[1..], Rest(f.rest));
      ReauthFailureEnds(RefreshingView(a.session, true), c, now, http[1..], Rest(f.rest));
      RetryUnfolds(v, c, now, http, idp);
      FetchEvents(v, now, idp);
      var p := f.events + [Sent(Outbound(c.httpMethod, c.url, f.result.value, c.versionHeader), http[0]),
                           Reauthenticated(true)];
      assert Reauthenticated(false) !in p;
      EndsAtFailedReauthAfterPrefix(p, more);
    } else {
      ReauthFailureEndsStep(v, c, now, http, idp);
    }
  }

  /** Events without a failed Reauth in front of a trace keep it ending there. */
  lemma EndsAtFailedReauthAfterPrefix(p: seq<Event>, more: Exchanged)
    requires Reauthenticated(false) !in p && EndsAtFailedReauth(more)
    ensures EndsAtFailedReauth(Exchanged(more.result, more.view, p + more.trace))
  {
    var t := p + more.trace;
    if Reauthenticated(false) in t {
      assert Reauthenticated(false) in more.trace;
      assert t[..|t| - 1] == p + more.trace[..|more.trace| - 1];
    }
  }

  /** Without a retry the trace is GetToken's refresh events, then at most a
    * request and a failed Reauth. */
  lemma ReauthFailureEndsStep(v: ProviderView, c: Call, now: int, http: seq<Reply>, idp: seq<IdentityOutcome>)
    requires var f := FetchToken(v, now, idp);
      !(f.result.Ok? && http != [] && http[0].Answered? && http[0].status == StatusUnauthorized && Retries(f.view)
        && Authenticated(f.view.session, Next(f.rest)).err.None?)
    ensures EndsAtFailedReauth(Exchange(v, c, now, http, idp))
  {
    var f := FetchToken(v, now, idp);
    FetchEvents(v, now, idp);
    if f.result.Ok? {
      var reply := if http == [] then TransportFailure else http[0];
      var sent := f.events + [Sent(Outbound(c.httpMethod, c.url, f.result.value, c.versionHeader), reply)];
      assert Reauthenticated(false) !in sent;
      var x := Exchange(v, c, now, http, idp);
      if x.trace != sent {
        assert x.trace[..|x.trace| - 1] == sent;
      }
    }
  }

  /** Because a 401 is handled before the status check, doRequest never
    * returns an APIError with status 401, so IsUnauthorized (below) is
    * false for everything doRequest returns. */
  lemma NeverUnauthorizedAPIError(v: ProviderView, c: Call, now: int, http: seq<Reply>, idp: seq<IdentityOutcome>)
    ensures var x := Exchange(v, c, now, http, idp);
      x.result.Err? ==> !(x.result.error.APIError? && x.result.error.statusCode == StatusUnauthorized)
    ensures var x := Exchange(v, c, now, http, idp);
      !IsUnauthorized(if x.result.Err? then Some(x.result.error) else None)
  {
    OutcomeMatchesLastEvent(v, c, now, http, idp);
  }

  /** If getting the token fails, doRequest sends nothing and wraps the error. */
  lemma TokenFailureSendsNothing(v: ProviderView, c: Call, now: int, http: seq<Reply>, idp: seq<IdentityOutcome>)
    requires FetchToken(v, now, idp).result.Err?
    ensures var x := Exchange(v, c, now, http, idp);
      && x.result == Err(TokenUnavailable(FetchToken(v, now, idp).result.error))
      && Count(x.trace, IsSent) == 0
  {
    var f := FetchToken(v, now, idp);
    FetchEvents(v, now, idp);
    if f.events != [] {
      assert f.events == [f.events[0]] && f.events[0] in f.events;
    }
  }

  /** Every request doRequest sends, first or retried, carries the call's
    * method, URL and version header. */
  lemma {:induction false} RequestsMatchCall(v: ProviderView, c: Call, now: int, http: seq<Reply>,
                                             idp: seq<IdentityOutcome>)
    ensures var x := Exchange(v, c, now, http, idp);
      forall e :: e in x.trace && e.Sent? ==>
        e.request.httpMethod == c.httpMethod && e.request.url == c.url && e.request.versionHeader == c.versionHeader
    decreases |http|
  {
    var f := FetchToken(v, now, idp);
    FetchEvents(v, now, idp);
    if f.result.Ok? && http != [] && http[0].Answered? && http[0].status == StatusUnauthorized && Retries(f.view) {
      var a := Authenticated(f.view.session, Next(f.rest));
      if a.err.None? {
        RequestsMatchCall(RefreshingView(a.session, true), c, now, http[1..], Rest(f.rest));
      }
    }
  }

  // ---------------------------------------------------------------------
  // Counting events

  function Count(t: seq<Event>, p: Event -> bool): nat {
    if t == [] then 0 else (if p(t[0]) then 1 else 0) + Count(t[1..], p)
  }

  lemma {:induction false} CountAppend(a: seq<Event>, b: seq<Event>, p: Event -> bool)
    ensures Count(a + b, p) == Count(a, p) + Count(b, p)
  {
    if a != [] {
      assert (a + b)[0] == a[0];
      assert (a + b)[1..] == a[1..] + b;
      CountAppend(a[1..], b, p);
    } else {
      assert a + b == b;
    }
  }

  lemma CountPair(d: Event, e: Event, p: Event -> bool)
    ensures Count([d, e], p) == (if p(d) then 1 else 0) + (if p(e) then 1 else 0)
  {
    assert [d, e][1..] == [e];
    assert [e][1..] == [];
    assert Count([e], p) == (if p(e) then 1 else 0) + Count([], p);
  }

  predicate IsSent(e: Event) {
    e.Sent?
  }

  predicate IsReauth(e: Event) {
    e.Reauthenticated?
  }

  /** A request that was answered 401. */
  predicate Is401(e: Event) {
    e.Sent? && e.reply.Answered? && e.reply.status == StatusUnauthorized
  }

  lemma CountFetchEvents(v: ProviderView, now: int, idp: seq<IdentityOutcome>, p: Event -> bool)
    requires forall e: Event :: e.Refreshed? ==> !p(e)
    ensures Count(FetchToken(v, now, idp).events, p) == 0
  {
    FetchEvents(v, now, idp);
    var f := FetchToken(v, now, idp);
    if f.events != [] {
      assert f.events == [f.events[0]] && f.events[0] in f.events;
    }
  }

  /** With an auto-reauth Authenticator, doRequest calls Reauth exactly once
    * for every 401 it receives: the trace holds as many Reauth events as
    * 401 replies, whatever else happens. */
  lemma {:induction false} ReauthOncePer401(v: ProviderView, c: Call, now: int, http: seq<Reply>,
                                            idp: seq<IdentityOutcome>)
    requires Retries(v)
    ensures var x := Exchange(v, c, now, http, idp);
      Count(x.trace, IsReauth) == Count(x.trace, Is401)
    decreases |http|
  {
    var f := FetchToken(v, now, idp);
    if f.result.Ok? && http != [] && http[0].Answered? && http[0].status == StatusUnauthorized && Retries(f.view)
       && Authenticated(f.view.session, Next(f.rest)).err.None?
    {
      var a := Authenticated(f.view.session, Next(f.rest));
      var v' := RefreshingView(a.session, true);
      ReauthOncePer401(v', c, now, http[1..], Rest(f.rest));
      var more := Exchange(v', c, now, http[1..], Rest(f.rest));
      RetryUnfolds(v, c, now, http, idp);
      var p := f.events + [Sent(Outbound(c.httpMethod, c.url, f.result.value, c.versionHeader), http[0]),
                           Reauthenticated(true)];
      CountFetchEvents(v, now, idp, IsReauth);
      CountFetchEvents(v, now, idp, Is401);
      var q := [Sent(Outbound(c.httpMethod, c.url, f.result.value, c.versionHeader), http[0]), Reauthenticated(true)];
      assert p == f.events + q;
      CountAppend(f.events, q, IsReauth);
      CountAppend(f.events, q, Is401);
      CountPair(q[0], q[1], IsReauth);
      CountPair(q[0], q[1], Is401);
      CountAppend(p, more.trace, IsReauth);
      CountAppend(p, more.trace, Is401);
    } else {
      ReauthOncePer401Step(v, c, now, http, idp);
    }
  }

  /** Without a retry the trace is GetToken's refresh events, then at most a
    * request and, after a 401, a failed Reauth: one of each or none. */
  lemma ReauthOncePer401Step(v: ProviderView, c: Call, now: int, http: seq<Reply>, idp: seq<IdentityOutcome>)
    requires Retries(v)
    requires var f := FetchToken(v, now, idp);
      !(f.result.Ok? && http != [] && http[0].Answered? && http[0].status == StatusUnauthorized && Retries(f.view)
        && Authenticated(f.view.session, Next(f.rest)).err.None?)
    ensures var x := Exchange(v, c, now, http, idp);
      Count(x.trace, IsReauth) == Count(x.trace, Is401)
  {
    var f := FetchToken(v, now, idp);
    FetchEvents(v, now, idp);
    CountFetchEvents(v, now, idp, IsReauth);
    CountFetchEvents(v, now, idp, Is401);
    if f.result.Ok? {
      var reply := if http == [] then TransportFailure else http[0];
      var s := Sent(Outbound(c.httpMethod, c.url, f.result.value, c.versionHeader), reply);
      var sent := f.events + [s];
      CountAppend(f.events, [s], IsReauth);
      CountAppend(f.events, [s], Is401);
      if reply.Answered? && reply.status == StatusUnauthorized {
        CountAppend(sent, [Reauthenticated(false)], IsReauth);
        CountAppend(sent, [Reauthenticated(false)], Is401);
      }
    }
  }

  /** With a TokenAuthenticator, or an Authenticator whose auto-reauth is
    * off, doRequest sends at most one request, never calls Reauth or
    * refreshes, and leaves the authenticator as it was. */
  lemma NoRetryWithoutAutoReauth(v: ProviderView, c: Call, now: int, http: seq<Reply>, idp: seq<IdentityOutcome>)
    requires !Retries(v)
    ensures var x := Exchange(v, c, now, http, idp);
      && |x.trace| <= 1
      && (forall e :: e in x.trace ==> e.Sent?)
      && x.view == v
  {
    FetchEvents(v, now, idp);
  }

  /** The source retries on every 401 without a bound: n 401 replies followed
    * by a 2xx, with the identity service answering each Reauth, give the
    * response after exactly n Reauth calls and n + 1 requests. */
  lemma {:induction false} RepeatedUnauthorizedRetries(s: Session, c: Call, now: int, n: nat, body: string,
                                                       token: string, endpoint: string)
    requires s.expiry == UnknownExpiry
    ensures var x := Exchange(RefreshingView(s, true), c, now,
                              Repeat(Answered(StatusUnauthorized, ""), n) + [Answered(200, body)],
                              RepeatIdentity(IdentityOk(token, None, Some(endpoint)), n));
      && x.result == Ok(Response(200, body))
      && Count(x.trace, IsReauth) == n
      && Count(x.trace, IsSent) == n + 1
    decreases n
  {
    var http := Repeat(Answered(StatusUnauthorized, ""), n) + [Answered(200, body)];
    var idp := RepeatIdentity(IdentityOk(token, None, Some(endpoint)), n);
    RepeatScripts(n, body, IdentityOk(token, None, Some(endpoint)));
    if n == 0 {
      UnknownExpirySuccess(s, c, now, body, idp);
    } else {
      var s1 := Session(token, UnknownExpiry, endpoint);
      RepeatedUnauthorizedRetries(s1, c, now, n - 1, body, token, endpoint);
      var more := Exchange(RefreshingView(s1, true), c, now, http[1..], idp[1..]);
      UnknownExpiryRetry(s, c, now, http, idp);
      CountRetryPrefix(Sent(Outbound(c.httpMethod, c.url, s.token, c.versionHeader), http[0]), more.trace);
    }
  }

  /** The shape of the scripts: n 401 replies, then the 2xx, and n identity
    * outcomes. */
  lemma RepeatScripts(n: nat, body: string, o: IdentityOutcome)
    ensures var http := Repeat(Answered(StatusUnauthorized, ""), n) + [Answered(200, body)];
      var idp := RepeatIdentity(o, n);
      && (n == 0 ==> http == [Answered(200, body)])
      && (n > 0 ==> && http[0] == Answered(StatusUnauthorized, "")
                    && http[1..] == Repeat(Answered(StatusUnauthorized, ""), n - 1) + [Answered(200, body)]
                    && idp != [] && idp[0] == o && idp[1..] == RepeatIdentity(o, n - 1))
  {
    if n > 0 {
      var http := Repeat(Answered(StatusUnauthorized, ""), n) + [Answered(200, body)];
      assert http == [Answered(StatusUnauthorized, "")] + (Repeat(Answered(StatusUnauthorized, ""), n - 1) + [Answered(200, body)]);
    }
  }

  /** With an unknown expiry and a 2xx reply, the call is one request. */
  lemma UnknownExpirySuccess(s: Session, c: Call, now: int, body: string, idp: seq<IdentityOutcome>)
    requires s.expiry == UnknownExpiry
    ensures var x := Exchange(RefreshingView(s, true), c, now, [Answered(200, body)], idp);
      && x.result == Ok(Response(200, body))
      && x.trace == [Sent(Outbound(c.httpMethod, c.url, s.token, c.versionHeader), Answered(200, body))]
  {
    var f := FetchToken(RefreshingView(s, true), now, idp);
    assert f == Fetch(RefreshingView(s, true), Ok(s.token), [], idp);
  }

  /** With an unknown expiry GetToken returns the cached token untouched, so a
    * 401 followed by a successful Reauth is one request, the Reauth and a new
    * call from the session the identity service returned. */
  lemma UnknownExpiryRetry(s: Session, c: Call, now: int, http: seq<Reply>, idp: seq<IdentityOutcome>)
    requires s.expiry == UnknownExpiry
    requires http != [] && http[0] == Answered(StatusUnauthorized, "")
    requires idp != [] && idp[0].IdentityOk? && idp[0].introspected.None? && idp[0].located.Some?
    ensures var more := Exchange(RefreshingView(Session(idp[0].token, UnknownExpiry, idp[0].located.value), true),
                                 c, now, http[1..], idp[1..]);
      Exchange(RefreshingView(s, true), c, now, http, idp)
        == Exchanged(more.result, more.view,
                     [Sent(Outbound(c.httpMethod, c.url, s.token, c.versionHeader), http[0]),
                      Reauthenticated(true)] + more.trace)
  {
    var v := RefreshingView(s, true);
    var f := FetchToken(v, now, idp);
    assert f == Fetch(v, Ok(s.token), [], idp);
    assert Authenticated(s, Next(idp)) == AuthStep(Session(idp[0].token, UnknownExpiry, idp[0].located.value), None);
    RetryUnfolds(v, c, now, http, idp);
  }

  /** A request and a Reauth in front of a trace add one to each count. */
  lemma CountRetryPrefix(sent: Event, t: seq<Event>)
    requires sent.Sent?
    ensures Count([sent, Reauthenticated(true)] + t, IsReauth) == 1 + Count(t, IsReauth)
    ensures Count([sent, Reauthenticated(true)] + t, IsSent) == 1 + Count(t, IsSent)
  {
    CountAppend([sent, Reauthenticated(true)], t, IsReauth);
    CountAppend([sent, Reauthenticated(true)], t, IsSent);
    assert Count([sent, Reauthenticated(true)], IsReauth) == 1;
    assert Count([sent, Reauthenticated(true)], IsSent) == 1;
  }

  function Repeat(r: Reply, n: nat): seq<Reply> {
    if n == 0 then [] else [r] + Repeat(r, n - 1)
  }

  function RepeatIdentity(o: IdentityOutcome, n: nat): seq<IdentityOutcome> {
    if n == 0 then [] else [o] + RepeatIdentity(o, n - 1)
  }

  /** The example of a retry: tok-1 is refused, Reauth obtains tok-2, and the
    * repeated request carries tok-2 and succeeds. */
  lemma RetryUsesFreshToken(c: Call, now: int)
    ensures var s := Session("tok-1", UnknownExpiry, "https://watcher.example");
      var x := Exchange(RefreshingView(s, true), c, now,
                        [Answered(StatusUnauthorized, "expired"), Answered(200, "{}")],
                        [IdentityOk("tok-2", None, Some("https://watcher.example"))]);
      && x.result == Ok(Response(200, "{}"))
      && x.trace == [Sent(Outbound(c.httpMethod, c.url, "tok-1", c.versionHeader), Answered(StatusUnauthorized, "expired")),
                     Reauthenticated(true),
                     Sent(Outbound(c.httpMethod, c.url, "tok-2", c.versionHeader), Answered(200, "{}"))]
      && x.view == RefreshingView(Session("tok-2", UnknownExpiry, "https://watcher.example"), true)
  {
    var s := Session("tok-1", UnknownExpiry, "https://watcher.example");
    var http := [Answered(StatusUnauthorized, "expired"), Answered(200, "{}")];
    assert http[1..] == [Answered(200, "{}")];
  }

  /** After a 401 and a successful Reauth, doRequest starts over: the Reauth
    * is the event after the refused request, more events follow, and unless
    * the new token is itself inside the refresh window the next event is the
    * re-issued request, carrying the token Reauth obtained and meeting the
    * next reply. */
  lemma RetryCarriesReauthToken(v: ProviderView, c: Call, now: int, http: seq<Reply>, idp: seq<IdentityOutcome>)
    requires Retries(v)
    requires FetchToken(v, now, idp).result.Ok?
    requires http != [] && http[0].Answered? && http[0].status == StatusUnauthorized
    requires Authenticated(FetchToken(v, now, idp).view.session, Next(FetchToken(v, now, idp).rest)).err.None?
    ensures var f := FetchToken(v, now, idp);
      var a := Authenticated(f.view.session, Next(f.rest));
      var x := Exchange(v, c, now, http, idp);
      && |x.trace| > |f.events| + 2
      && x.trace[|f.events| + 1] == Reauthenticated(true)
      && (!NeedsRefresh(a.session.expiry, now) ==>
            x.trace[|f.events| + 2] ==
              Sent(Outbound(c.httpMethod, c.url, a.session.token, c.versionHeader),
                   if |http| > 1 then http[1] else TransportFailure))
  {
    var f := FetchToken(v, now, idp);
    var a := Authenticated(f.view.session, Next(f.rest));
    var v' := RefreshingView(a.session, true);
    var more := Exchange(v', c, now, http[1..], Rest(f.rest));
    var g := FetchToken(v', now, Rest(f.rest));
    assert more.trace != [] by {
      if g.result.Ok? {
        assert |more.trace| >= |g.events| + 1;
      } else {
        assert more.trace == g.events && g.events != [];
      }
    }
    if !NeedsRefresh(a.session.expiry, now) {
      assert g.events == [] && g.result == Ok(a.session.token);
    }
  }

  // ---------------------------------------------------------------------
  // API errors

  predicate IsNotFound(err: Option<Error>) {
    err.Some? && err.value.APIError? && err.value.statusCode == StatusNotFound
  }

  predicate IsConflict(err: Option<Error>) {
    err.Some? && err.value.APIError? && err.value.statusCode == StatusConflict
  }

  predicate IsUnauthorized(err: Option<Error>) {
    err.Some? && err.value.APIError? && err.value.statusCode == StatusUnauthorized
  }

  predicate IsForbidden(err: Option<Error>) {
    err.Some? && err.value.APIError? && err.value.statusCode == StatusForbidden
  }

  /** The four checks recognise only API errors, each a single status, so at
    * most one holds; a nil error or any other kind of error matches none. */
  lemma StatusPredicatesExclusive(err: Option<Error>)
    ensures (err.None? || !err.value.APIError?) ==>
      !IsNotFound(err) && !IsConflict(err) && !IsUnauthorized(err) && !IsForbidden(err)
    ensures (if IsNotFound(err) then 1 else 0) + (if IsConflict(err) then 1 else 0)
          + (if IsUnauthorized(err) then 1 else 0) + (if IsForbidden(err) then 1 else 0) <= 1
    ensures !IsUnauthorized(Some(Unauthorized))
  {
  }

  /** APIError.Error(): "API error: <method> <url> returned <status>: <message>". */
  function APIErrorText(e: Error): string
    requires e.APIError?
  {
    "API error: " + e.httpMethod + " " + e.url + " returned " + Decimal.FromInt(e.statusCode) + ": " + e.message
  }

  /** The status is part of the text: two API errors that differ only in
    * their status read differently. */
  lemma APIErrorTextShowsStatus(m: string, url: string, msg: string, a: int, b: int)
    ensures APIErrorText(APIError(a, msg, url, m)) == APIErrorText(APIError(b, msg, url, m)) <==> a == b
  {
    var p := "API error: " + m + " " + url + " returned ";
    var q := ": " + msg;
    var sa := Decimal.FromInt(a);
    var sb := Decimal.FromInt(b);
    assert APIErrorText(APIError(a, msg, url, m)) == p + sa + q;
    assert APIErrorText(APIError(b, msg, url, m)) == p + sb + q;
    if p + sa + q == p + sb + q {
      assert |sa| == |sb|;
      assert sa == (p + sa + q)[|p|..|p| + |sa|];
      assert sb == (p + sb + q)[|p|..|p| + |sb|];
      Decimal.FromIntInjective(a, b);
    }
  }

  // ---------------------------------------------------------------------
  // GetVersion's base URL

  /** GetVersion as written: cut len("/" + apiVersion) bytes off the
    * endpoint. Go's len counts UTF-8 bytes, so the cut is made on the
    * encoded endpoint. None stands for the slice panic when the endpoint is
    * shorter. */
  function VersionBaseAsWritten(endpoint: string, apiVersion: string): Option<seq<Utf8.byte>> {
    var e := Utf8.Encode(endpoint);
    var n := |Utf8.Encode("/" + apiVersion)|;
    if n <= |e| then Some(e[..|e| - n]) else None
  }

  /** len("/" + v) is one more than len(v). */
  lemma SlashVersionLength(apiVersion: string)
    ensures |Utf8.Encode("/" + apiVersion)| == 1 + |Utf8.Encode(apiVersion)|
  {
    Utf8.EncodeAppend("/", apiVersion);
  }

  /** The bytes of an endpoint the constructors build: the base's, then the
    * three of "/v1". */
  lemma EndpointBytes(base: string)
    ensures Utf8.Encode(base + "/" + DefaultAPIVersion) == Utf8.Encode(base) + Utf8.Encode("/" + DefaultAPIVersion)
    ensures |Utf8.Encode("/" + DefaultAPIVersion)| == 3 && |Utf8.Encode(DefaultAPIVersion)| == 2
  {
    assert base + "/" + DefaultAPIVersion == base + ("/" + DefaultAPIVersion);
    Utf8.EncodeAppend(base, "/" + DefaultAPIVersion);
  }

  /** The endpoint always ends in "/v1" (the constructors append the default
    * version, and SetAPIVersion does not touch it), so cutting by the current
    * version's byte length is right only while that length is that of "v1". */
  lemma VersionBaseAsWrittenIff(base: string, apiVersion: string)
    ensures VersionBaseAsWritten(base + "/" + DefaultAPIVersion, apiVersion) == Some(Utf8.Encode(base))
      <==> |Utf8.Encode(apiVersion)| == 2
  {
    EndpointBytes(base);
    SlashVersionLength(apiVersion);
    var e := Utf8.Encode(base + "/" + DefaultAPIVersion);
    var n := |Utf8.Encode("/" + apiVersion)|;
    if |Utf8.Encode(apiVersion)| == 2 {
      assert e[..|e| - n] == Utf8.Encode(base);
    } else if n <= |e| {
      assert |e[..|e| - n]| != |Utf8.Encode(base)|;
    }
  }

  /** The cut removes exactly a tail of the same byte length as "/" + v. */
  lemma VersionBaseAsWrittenCut(head: string, tail: string, apiVersion: string)
    requires |Utf8.Encode("/" + apiVersion)| == |Utf8.Encode(tail)|
    ensures VersionBaseAsWritten(head + tail, apiVersion) == Some(Utf8.Encode(head))
  {
    Utf8.EncodeAppend(head, tail);
    var e := Utf8.Encode(head + tail);
    assert e[..|e| - |Utf8.Encode(tail)|] == Utf8.Encode(head);
  }

  /** After SetAPIVersion("1.4") the base URL loses its last character, for
    * instance the last digit of the port of "http://watcher:9322". */
  lemma VersionBaseAsWrittenExample(host: string)
    ensures VersionBaseAsWritten(host + "2" + "/" + DefaultAPIVersion, "1.4") == Some(Utf8.Encode(host))
  {
    assert host + "2" + "/" + DefaultAPIVersion == host + "2/v1";
    assert "/" + "1.4" == "/1.4";
    assert Utf8.IsAscii("/1.4") && Utf8.IsAscii("2/v1");
    Utf8.AsciiLength("/1.4");
    Utf8.AsciiLength("2/v1");
    VersionBaseAsWrittenCut(host, "2/v1", "1.4");
  }

  /** With the one-character but two-byte version "\U{e9}" the cut happens to
    * be right, since it is the bytes that count. */
  lemma VersionBaseAsWrittenTwoByteExample(host: string)
    ensures VersionBaseAsWritten(host + "/" + DefaultAPIVersion, "\U{e9}") == Some(Utf8.Encode(host))
  {
    assert |Utf8.Encode("\U{e9}")| == 2;
    VersionBaseAsWrittenIff(host, "\U{e9}");
  }

  /** The intended base URL: the endpoint without the "/v1" the constructors
    * appended (an endpoint without it is left alone). */
  function VersionBase(endpoint: string): string {
    var suffix := "/" + DefaultAPIVersion;
    if |suffix| <= |endpoint| && endpoint[|endpoint| - |suffix|..] == suffix
    then endpoint[..|endpoint| - |suffix|]
    else endpoint
  }

  /** The corrected base URL undoes what the constructors append, whatever
    * the API version is set to. */
  lemma VersionBaseRestoresBase(base: string)
    ensures VersionBase(base + "/" + DefaultAPIVersion) == base
  {
    var e := base + "/" + DefaultAPIVersion;
    assert e[|e| - 3..] == "/" + DefaultAPIVersion;
    assert e[..|e| - 3] == base;
  }

  /** Every endpoint the constructors build ends in "/" + DefaultAPIVersion. */
  predicate EndsInDefaultVersion(endpoint: string) {
    var suffix := "/" + DefaultAPIVersion;
    |suffix| <= |endpoint| && endpoint[|endpoint| - |suffix|..] == suffix
  }

  /** On such an endpoint the corrected base plus "/" and the version give
    * back the endpoint, and the as-written cut yields the bytes of that base
    * exactly when the version has the byte length of "v1". */
  lemma VersionURLsAgree(endpoint: string, apiVersion: string)
    ensures EndsInDefaultVersion(endpoint) ==> VersionBase(endpoint) + "/" + DefaultAPIVersion == endpoint
    ensures EndsInDefaultVersion(endpoint) ==>
      (VersionBaseAsWritten(endpoint, apiVersion) == Some(Utf8.Encode(VersionBase(endpoint))) <==>
         |Utf8.Encode(apiVersion)| == |Utf8.Encode(DefaultAPIVersion)|)
  {
    if EndsInDefaultVersion(endpoint) {
      var base := endpoint[..|endpoint| - 3];
      assert endpoint == base + "/" + DefaultAPIVersion;
      VersionBaseRestoresBase(base);
      VersionBaseAsWrittenIff(base, apiVersion);
      EndpointBytes(base);
    }
  }

  // ---------------------------------------------------------------------
  // Client

  class Client {
    const endpoint: string
    const authenticator: Provider
    var timeout: int
    var apiVersion: string

    /** The struct literal shared by the three constructors. */
    constructor (base: string, auth: Provider, timeout: int)
      ensures GetEndpoint() == base + "/" + DefaultAPIVersion
      ensures authenticator == auth && GetTimeout() == timeout && GetAPIVersion() == DefaultAPIVersion
    {
      endpoint := base + "/" + DefaultAPIVersion;
      authenticator := auth;
      this.timeout := timeout;
      apiVersion := DefaultAPIVersion;
    }

    function View(): ProviderView
      reads this, Footprint(authenticator)
    {
      match authenticator
      case Fixed(t) => FixedView(t)
      case Refreshing(a) => RefreshingView(a.Cached(), a.autoReauth)
    }

    /** The OpenStack-API-Version header. */
    function VersionHeader(): string
      reads this
    {
      "infra-optim " + apiVersion
    }

    /** doRequest(method, path, body). The body is left out, and with it the
      * marshalling failure of a caller's value JSON cannot encode. */
    method DoRequest(verb: string, path: string, now: int, http: seq<Reply>, idp: seq<IdentityOutcome>)
      returns (r: Result<Response, Error>, trace: seq<Event>)
      modifies Footprint(authenticator)
      ensures var x := Exchange(old(View()), Call(verb, endpoint + path, VersionHeader()), now, http, idp);
        r == x.result && trace == x.trace && View() == x.view
      decreases |http|
    {
      ghost var v := View();
      var token: Result<string, Error>;
      var events: seq<Event> := [];
      var rest := idp;
      match authenticator {
        case Fixed(t) =>
          token := t.GetToken();
        case Refreshing(a) =>
          var authenticated;
          token, authenticated := a.GetToken(now, Next(idp));
          if authenticated {
            events := [Refreshed(token.Ok?)];
            rest := Rest(idp);
          }
      }
      assert FetchToken(v, now, idp) == Fetch(View(), token, events, rest);
      if token.Err? {
        return Err(TokenUnavailable(token.error)), events;
      }
      var reply := if http == [] then TransportFailure else http[0];
      trace := events + [Sent(Outbound(verb, endpoint + path, token.value, VersionHeader()), reply)];
      if reply.TransportFailure? {
        return Err(RequestFailed), trace;
      }
      if reply.status == StatusUnauthorized {
        if authenticator.Refreshing? && authenticator.a.autoReauth {
          var err := authenticator.a.Reauth(Next(rest));
          if err.Some? {
            return Err(ReauthFailed(err.value)), trace + [Reauthenticated(false)];
          }
          var more;
          r, more := DoRequest(verb, path, now, http[1..], Rest(rest));
          return r, trace + [Reauthenticated(true)] + more;
        }
        return Err(Unauthorized), trace;
      }
      if reply.status < 200 || reply.status >= 300 {
        return Err(APIError(reply.status, reply.body, endpoint + path, verb)), trace;
      }
      return Ok(Response(reply.status, reply.body)), trace;
    }

    /** Ping: a GET of "/", its error wrapped. */
    method Ping(now: int, http: seq<Reply>, idp: seq<IdentityOutcome>) returns (err: Option<Error>)
      modifies Footprint(authenticator)
      ensures var x := Exchange(old(View()), Call("GET", endpoint + "/", VersionHeader()), now, http, idp);
        && (x.result.Err? ==> err == Some(PingFailed(x.result.error)))
        && (x.result.Ok? ==> err.None?)
        && View() == x.view
    {
      var r, trace := DoRequest("GET", "/", now, http, idp);
      if r.Err? {
        return Some(PingFailed(r.error));
      }
      return None;
    }

    method SetTimeout(t: int)
      modifies this
      ensures GetTimeout() == t && GetAPIVersion() == old(GetAPIVersion())
      ensures View() == old(View()) && VersionURL() == old(VersionURL())
    {
      timeout := t;
    }

    /** The HTTP client's timeout, as the constructors or SetTimeout set it. */
    function GetTimeout(): (t: int)
      reads this
      ensures t == timeout
    {
      timeout
    }

    /** The endpoint, fixed at construction (base + "/v1"). */
    function GetEndpoint(): (e: string)
      ensures e == endpoint
    {
      endpoint
    }

    /** The API version, "v1" until SetAPIVersion changes it. */
    function GetAPIVersion(): (v: string)
      reads this
      ensures v == apiVersion
    {
      apiVersion
    }

    /** The version header follows; the endpoint, a constant, does not. */
    method SetAPIVersion(version: string)
      modifies this
      ensures GetAPIVersion() == version && GetTimeout() == old(GetTimeout())
      ensures VersionHeader() == "infra-optim " + version
      ensures View() == old(View()) && VersionURL() == old(VersionURL())
      ensures var e := Utf8.Encode(endpoint);
        VersionURLAsWritten() == (if |e| < |Utf8.Encode(version)| + 1 then None
                                  else Some(e[..|e| - |Utf8.Encode(version)| - 1] + Utf8.Encode("/")))
    {
      apiVersion := version;
    }

    /** Auth info is available only from a full Authenticator. */
    function GetAuthInfo(now: int): (r: Result<AuthInfo, Error>)
      reads this, Footprint(authenticator)
      ensures authenticator.Fixed? <==> r == Err(AuthInfoUnavailable)
      ensures authenticator.Refreshing? ==> r == Ok(authenticator.a.GetAuthInfo(now))
    {
      match authenticator
      case Fixed(_) => Err(AuthInfoUnavailable)
      case Refreshing(a) => Ok(a.GetAuthInfo(now))
    }

    /** The URL GetVersion queries as written, in bytes: the endpoint cut by
      * len("/" + apiVersion), then "/". None stands for the slice panic. */
    function VersionURLAsWritten(): (u: Option<seq<Utf8.byte>>)
      reads this
      ensures u.None? <==> |Utf8.Encode(endpoint)| < |Utf8.Encode(apiVersion)| + 1
      ensures u.Some? ==>
        u.value == Utf8.Encode(endpoint)[..|Utf8.Encode(endpoint)| - |Utf8.Encode(apiVersion)| - 1] + Utf8.Encode("/")
    {
      SlashVersionLength(apiVersion);
      var base := VersionBaseAsWritten(endpoint, apiVersion);
      if base.Some? then Some(base.value + Utf8.Encode("/")) else None
    }

    /** The URL GetVersion is meant to query: the corrected base (the endpoint
      * without its "/v1") and "/". Its bytes are the as-written URL exactly
      * while the API version has the byte length of "v1". */
    function VersionURL(): (u: string)
      reads this
      ensures EndsInDefaultVersion(endpoint) ==> u + DefaultAPIVersion == endpoint
      ensures EndsInDefaultVersion(endpoint) ==>
        (VersionURLAsWritten() == Some(Utf8.Encode(u)) <==> |Utf8.Encode(apiVersion)| == 2)
    {
      var u := VersionBase(endpoint) + "/";
      VersionURLsAgree(endpoint, apiVersion);
      Utf8.EncodeAppend(VersionBase(endpoint), "/");
      EndpointBytes("");
      var base := VersionBaseAsWritten(endpoint, apiVersion);
      if base.Some? then Utf8.AppendCancel(base.value, Utf8.Encode(VersionBase(endpoint)), Utf8.Encode("/")); u
      else u
    }
  }

  // ---------------------------------------------------------------------
  // Constructors

  /** The AuthOptions NewClient builds: like BuildAuthOptions except that the
    * scope is always present and the auto-reauth flag is the caller's. */
  function ClientAuthOptions(c: ClientOptions): AuthOptions {
    ZeroAuthOptions.(
      identityEndpoint := c.authURL,
      username := c.username,
      password := c.password,
      domainID := c.userDomainID,
      allowReauth := c.allowReauth,
      scope := Some(Scope("", c.projectName, c.projectDomainID, "")))
  }

  /** Because NewClient always builds a scope, its options pass validation
    * exactly when the URL, user name and password are given and a project
    * name or project domain is set. */
  lemma ClientAuthOptionsValidIff(c: ClientOptions)
    ensures ValidateAuthOptions(Some(ClientAuthOptions(c))).None? <==>
      c.authURL != "" && c.username != "" && c.password != "" && (c.projectName != "" || c.projectDomainID != "")
  {
    ValidateAuthOptionsCorrect(Some(ClientAuthOptions(c)));
    HasAuthMethodIff(ClientAuthOptions(c));
  }

  /** Leaving out both project name and project domain is fatal to NewClient
    * though BuildAuthOptions would accept the same options. */
  lemma ClientScopeAlwaysChecked(c: ClientOptions)
    requires c.authURL != "" && c.username != "" && c.password != ""
    requires c.projectName == "" && c.projectDomainID == ""
    ensures ValidateAuthOptions(Some(ClientAuthOptions(c))) == Some(ScopeWithoutTarget)
    ensures ValidateAuthOptions(Some(BuildAuthOptions(c))).None?
  {
    BuildAuthOptionsValidIff(c);
  }

  /** NewClient; `identity` answers the initial authentication. */
  method NewClient(opts: ClientOptions, identity: IdentityOutcome) returns (r: Result<Client, Error>)
    ensures var invalid := ValidateAuthOptions(Some(ClientAuthOptions(opts)));
      invalid.Some? ==> r == Err(InvalidAuthOptions(invalid.value))
    ensures var step := Authenticated(EmptySession, identity);
      ValidateAuthOptions(Some(ClientAuthOptions(opts))).None? && step.err.Some? ==>
        r == Err(AuthenticatorFailed(InitialAuthFailed(step.err.value)))
    ensures var step := Authenticated(EmptySession, identity);
      ValidateAuthOptions(Some(ClientAuthOptions(opts))).None? && step.err.None? ==>
        && r.Ok? && fresh(r.value) && r.value.authenticator.Refreshing? && fresh(r.value.authenticator.a)
        && r.value.GetEndpoint() == step.session.endpoint + "/" + DefaultAPIVersion
        && r.value.GetAPIVersion() == DefaultAPIVersion
        && r.value.GetTimeout() == (if opts.timeout == 0 then DefaultTimeout else opts.timeout)
        && r.value.View() == RefreshingView(step.session, opts.allowReauth)
        && r.value.authenticator.a.options == ClientAuthOptions(opts)
  {
    var timeout := if opts.timeout == 0 then DefaultTimeout else opts.timeout;
    var authOpts := ClientAuthOptions(opts);
    var invalid := ValidateAuthOptions(Some(authOpts));
    if invalid.Some? {
      return Err(InvalidAuthOptions(invalid.value));
    }
    var auth := NewAuthenticator(Some(authOpts), identity);
    if auth.Err? {
      return Err(AuthenticatorFailed(auth.error));
    }
    var client := new Client(auth.value.GetEndpoint(), Refreshing(auth.value), timeout);
    return Ok(client);
  }

  method NewClientWithToken(endpoint: string, token: string) returns (c: Client)
    ensures fresh(c)
    ensures c.GetEndpoint() == endpoint + "/" + DefaultAPIVersion && c.GetAPIVersion() == DefaultAPIVersion
    ensures c.authenticator == Fixed(NewTokenAuthenticator(endpoint, token))
    ensures c.GetTimeout() == DefaultTimeout
    ensures c.VersionURL() == endpoint + "/" && c.VersionURLAsWritten() == Some(Utf8.Encode(endpoint + "/"))
  {
    c := new Client(endpoint, Fixed(NewTokenAuthenticator(endpoint, token)), DefaultTimeout);
    VersionBaseRestoresBase(endpoint);
    EndpointBytes(endpoint);
    VersionBaseAsWrittenIff(endpoint, DefaultAPIVersion);
    Utf8.EncodeAppend(endpoint, "/");
  }

  method NewClientWithAuthenticator(auth: Provider) returns (c: Client)
    ensures fresh(c)
    ensures c.GetEndpoint() == ProviderEndpoint(auth) + "/" + DefaultAPIVersion && c.GetAPIVersion() == DefaultAPIVersion
    ensures c.authenticator == auth && c.GetTimeout() == DefaultTimeout
  {
    c := new Client(ProviderEndpoint(auth), auth, DefaultTimeout);
  }

  /** NewClientWithConfig: NewClient, then a positive configured timeout
    * replaces the client's. The other settings of ClientConfig are unused. */
  method NewClientWithConfig(opts: ClientOptions, configTimeout: int, identity: IdentityOutcome)
    returns (r: Result<Client, Error>)
    ensures var step := Authenticated(EmptySession, identity);
      var invalid := ValidateAuthOptions(Some(ClientAuthOptions(opts)));
      && (invalid.Some? ==> r == Err(InvalidAuthOptions(invalid.value)))
      && (invalid.None? && step.err.Some? ==> r == Err(AuthenticatorFailed(InitialAuthFailed(step.err.value))))
      && (invalid.None? && step.err.None? ==>
            && r.Ok? && fresh(r.value) && r.value.authenticator.Refreshing? && fresh(r.value.authenticator.a)
            && r.value.GetEndpoint() == step.session.endpoint + "/" + DefaultAPIVersion
            && r.value.GetAPIVersion() == DefaultAPIVersion
            && r.value.GetTimeout() == (if configTimeout > 0 then configTimeout
                                        else if opts.timeout == 0 then DefaultTimeout else opts.timeout)
            && r.value.View() == RefreshingView(step.session, opts.allowReauth)
            && r.value.authenticator.a.options == ClientAuthOptions(opts))
  {
    r := NewClient(opts, identity);
    if r.Err? {
      return r;
    }
    if configTimeout > 0 {
      r.value.SetTimeout(configTimeout);
    }
  }
}
