/** The per-request id-token validation of `ValidateIdToken.process_request`: the eligibility
    gate, the expiry check, the renewal call and the logout paths. */
module Middleware {
  import opened Wrappers
  import opened Text
  import opened Renewal
  import opened Oracle

  /** The configuration values the core reads. */
  datatype Settings = Settings(
    callbackPath: string,            // path of AUTH0_CALLBACK_URL
    idTokenDomains: seq<string>,     // AUTH0_ID_TOKEN_DOMAINS
    idTokenExpiry: int,              // AUTH0_ID_TOKEN_EXPIRY, in seconds
    signinView: string)              // AUTH0_SIGNIN_VIEW

  /** `request.user`: the anonymous user after logout, or an account. */
  datatype User = Anonymous | Account(id: UserId, isActive: bool, email: string)

  /** The parts of the request the gate reads that never change. */
  datatype Incoming = Incoming(httpMethod: string, isAjax: bool, path: string)

  /** Everything the middleware can change: the request's user and error messages, the
      `IdToken` table and the shared cache. */
  datatype World = World(user: User, messages: seq<string>,
                         tokens: map<UserId, IdToken>, cache: map<string, CacheEntry>)

  /** What `process_request` does with the request: returns `None`, returns a redirect, or raises. */
  datatype Outcome = Continue | Redirect(view: string) | Raise(error: Error)

  datatype Step = Step(outcome: Outcome, world: World)

  const WrongProviderMessage :=
    "You can't log in with that email address using the provider you used. "
    + "Please log in with the Mozilla LDAP provider."
  const NetworkProblemMessage :=
    "Unable to validate your authentication with Auth0. This can happen when "
    + "there is temporary network problem. Please sign in again."
  const ExpiredSessionMessage :=
    "Unable to validate your authentication with Auth0. This is most likely due "
    + "to an expired authentication session. Please sign in again."

  /** `exception_paths`: only the callback path, so that the login handshake cannot loop. */
  function ExceptionPaths(settings: Settings): (r: seq<string>)
    ensures forall p :: p in r <==> p == settings.callbackPath
  {
    [settings.callbackPath]
  }

  /** The first condition of `process_request`. */
  predicate Eligible(settings: Settings, inc: Incoming, user: User)
    ensures Eligible(settings, inc, user) ==> user.Account? && user.isActive && |user.email| > 0
    ensures inc.httpMethod == "POST" || inc.isAjax || inc.path == settings.callbackPath ==>
      !Eligible(settings, inc, user)
  {
    inc.httpMethod != "POST" && !inc.isAjax && user.Account? && user.isActive
    && user.email != "" && inc.path !in ExceptionPaths(settings)
  }

  /** `request.user.email.lower().split('@', 1)[1]`. */
  function EmailDomain(email: string): (r: Option<string>)
    ensures r.None? <==> '@' !in email
    ensures r.Some? ==> r.value == Lower(AfterFirst(email, '@').value)
  {
    AfterFirstAtOfLower(email);
    AfterFirst(Lower(email), '@')
  }

  /** The request passes the gate and the user's domain is one the check applies to. */
  predicate SubjectToCheck(settings: Settings, inc: Incoming, user: User)
    ensures SubjectToCheck(settings, inc, user) ==>
      Eligible(settings, inc, user) && '@' in user.email
      && Lower(AfterFirst(user.email, '@').value) in settings.idTokenDomains
  {
    Eligible(settings, inc, user) && EmailDomain(user.email).Some?
    && EmailDomain(user.email).value in settings.idTokenDomains
  }

  /** `messages.error(...)` followed by `logout(request)`. */
  function ForceLogout(w: World, message: string): (r: World)
    ensures r.user == Anonymous && r.messages == w.messages + [message]
    ensures r.tokens == w.tokens && r.cache == w.cache
  {
    w.(user := Anonymous, messages := w.messages + [message])
  }

  /** One run of `process_request` on the state `w`. `now` is the clock when the expiry is
      checked, `later` the clock when a renewed token is saved, `t` the renewal call's result. */
  function Process(strategy: Strategy, settings: Settings, inc: Incoming, w: World,
                   now: int, later: int, t: Transport): (r: Step)
    // records are never created or deleted
    ensures r.world.tokens.Keys == w.tokens.Keys
    // an exception leaves everything as it was
    ensures r.outcome.Raise? ==> r.world == w
    // the user is logged out exactly when a redirect to sign-in is returned, with one new message
    ensures r.world.user != w.user <==> r.outcome.Redirect?
    ensures r.outcome.Redirect? ==>
      r.outcome.view == settings.signinView && r.world.user == Anonymous
      && |r.world.messages| == |w.messages| + 1 && r.world.messages[..|w.messages|] == w.messages
      && r.world.tokens == w.tokens && r.world.cache == w.cache
    ensures !r.outcome.Redirect? ==> r.world.messages == w.messages
    // the store and the cache are written only on a successful renewal, for this user only
    ensures r.world.tokens != w.tokens || r.world.cache != w.cache ==>
      r.outcome == Continue && SubjectToCheck(settings, inc, w.user)
      && forall v :: v in w.tokens && v != w.user.id ==> r.world.tokens[v] == w.tokens[v]
    // IndexError escapes exactly for an eligible request whose email has no '@'
    ensures r.outcome == Raise(IndexError) <==> Eligible(settings, inc, w.user) && '@' !in w.user.email
  {
    if !Eligible(settings, inc, w.user) then Step(Continue, w)
    else if EmailDomain(w.user.email).None? then Step(Raise(IndexError), w)
    else if EmailDomain(w.user.email).value !in settings.idTokenDomains then Step(Continue, w)
    else if !IsExpired(strategy, w.tokens, w.cache, w.user.id, now) then Step(Continue, w)
    else RenewalStep(strategy, settings, w, later, t)
  }

  /** What `process_request` does once the user's token is reported expired: load the record,
      call the provider, then save the renewed token or log the user out. */
  function RenewalStep(strategy: Strategy, settings: Settings, w: World, later: int, t: Transport): (r: Step)
    requires w.user.Account?
    ensures r.world.tokens.Keys == w.tokens.Keys
    // an escaping exception is a client failure or a non-object answer, and changes nothing
    ensures r.outcome.Raise? ==> r.world == w && r.outcome.error in {RequestError, AttributeError}
    // every other outcome but a successful renewal is a logout with exactly one new message
    ensures r.outcome.Redirect? <==> r.world.user == Anonymous
    ensures r.outcome.Redirect? ==>
      r.outcome.view == settings.signinView
      && |r.world.messages| == |w.messages| + 1 && r.world.messages[..|w.messages|] == w.messages
      && r.world.tokens == w.tokens && r.world.cache == w.cache
    ensures !r.outcome.Redirect? ==> r.world.user == w.user && r.world.messages == w.messages
    // only a successful renewal writes, and only this user's record
    ensures r.world.tokens != w.tokens || r.world.cache != w.cache ==>
      r.outcome == Continue && w.user.id in w.tokens
      && forall v :: v in w.tokens && v != w.user.id ==> r.world.tokens[v] == w.tokens[v]
  {
    if w.user.id !in w.tokens then
      Step(Redirect(settings.signinView), ForceLogout(w, WrongProviderMessage))
    else
      match RenewIdToken(t)
      case Err(Timeout) => Step(Redirect(settings.signinView), ForceLogout(w, NetworkProblemMessage))
      case Err(Raised(e)) => Step(Raise(e), w)
      case Ok(token) =>
        if Truthy(token) then
          var id := w.user.id;
          var renewed := IdToken(token.value, later + settings.idTokenExpiry);
          Step(Continue, w.(tokens := w.tokens[id := renewed],
                            cache := UpdatedCache(strategy, w.cache, id, later, settings.idTokenExpiry)))
        else
          Step(Redirect(settings.signinView), ForceLogout(w, ExpiredSessionMessage))
  }

  /** The persistent `IdToken` table and the shared cache. */
  class Stores {
    var tokens: map<UserId, IdToken>
    var cache: map<string, CacheEntry>

    constructor (tokens: map<UserId, IdToken>, cache: map<string, CacheEntry>)
      ensures this.tokens == tokens && this.cache == cache
    {
      this.tokens := tokens;
      this.cache := cache;
    }
  }

  /** The request: fixed method, AJAX flag and path; a user that logout replaces; the error
      messages queued for display. */
  class Request {
    const httpMethod: string
    const isAjax: bool
    const path: string
    var user: User
    var messages: seq<string>

    constructor (httpMethod: string, isAjax: bool, path: string, user: User)
      ensures this.httpMethod == httpMethod && this.isAjax == isAjax && this.path == path
      ensures this.user == user && messages == []
    {
      this.httpMethod := httpMethod;
      this.isAjax := isAjax;
      this.path := path;
      this.user := user;
      messages := [];
    }

    function Line(): Incoming
    {
      Incoming(httpMethod, isAjax, path)
    }

    /** `messages.error(request, message)`. */
    method Error(message: string)
      modifies this
      ensures user == old(user) && messages == old(messages) + [message]
    {
      messages := messages + [message];
    }

    /** `logout(request)`. */
    method Logout()
      modifies this
      ensures user == Anonymous && messages == old(messages)
    {
      user := Anonymous;
    }
  }

  function Snapshot(req: Request, db: Stores): World
    reads req, db
  {
    World(req.user, req.messages, db.tokens, db.cache)
  }

  /** The middleware; `strategy` tells `ValidateIdToken` from `ValidateIdTokenUsingCache`. */
  class ValidateIdToken {
    const strategy: Strategy
    const settings: Settings

    constructor (strategy: Strategy, settings: Settings)
      ensures this.strategy == strategy && this.settings == settings
    {
      this.strategy := strategy;
      this.settings := settings;
    }

    /** `update_expiration`: a no-op for the direct strategy; the cached strategy stores `True`
        under the user's key for AUTH0_ID_TOKEN_EXPIRY seconds. */
    method UpdateExpiration(id: UserId, db: Stores, now: int)
      modifies db
      ensures db.tokens == old(db.tokens)
      ensures db.cache == UpdatedCache(strategy, old(db.cache), id, now, settings.idTokenExpiry)
    {
      if strategy == Cached {
        db.cache := db.cache[CacheKey(id) := CacheEntry(true, now + settings.idTokenExpiry)];
      }
    }

    /** The three failure paths: queue the error message, log out, redirect to sign-in. */
    method LogoutAndRedirect(req: Request, message: string) returns (r: Outcome)
      modifies req
      ensures r == Outcome.Redirect(settings.signinView)
      ensures req.user == Anonymous && req.messages == old(req.messages) + [message]
    {
      req.Error(message);
      req.Logout();
      r := Outcome.Redirect(settings.signinView);
    }

    /** Lines 149-153: the record gets the new token and an expiry `AUTH0_ID_TOKEN_EXPIRY` seconds
        after `now`, is saved, and `update_expiration` runs. */
    method SaveRenewal(id: UserId, db: Stores, newIdToken: string, now: int)
      requires id in db.tokens
      modifies db
      ensures db.tokens == old(db.tokens)[id := IdToken(newIdToken, now + settings.idTokenExpiry)]
      ensures db.cache == UpdatedCache(strategy, old(db.cache), id, now, settings.idTokenExpiry)
    {
      var token := db.tokens[id];
      token := token.(idToken := newIdToken);
      token := token.(expire := now + settings.idTokenExpiry);
      db.tokens := db.tokens[id := token];
      UpdateExpiration(id, db, now);
    }

    /** `process_request`: the new request and store state and the outcome are those of `Process`. */
    method ProcessRequest(req: Request, db: Stores, now: int, later: int, t: Transport)
      returns (r: Outcome)
      modifies req, db
      ensures Step(r, Snapshot(req, db))
        == Process(strategy, settings, req.Line(), old(Snapshot(req, db)), now, later, t)
    {
      ghost var w := Snapshot(req, db);
      ghost var step := Process(strategy, settings, req.Line(), w, now, later, t);
      if !Eligible(settings, req.Line(), req.user) {
        assert step == Step(Continue, w);
        return Continue;
      }
      var domain := EmailDomain(req.user.email);
      if domain.None? {
        assert step == Step(Raise(IndexError), w);
        return Raise(IndexError);
      }
      if domain.value !in settings.idTokenDomains {
        assert step == Step(Continue, w);
        return Continue;
      }
      if !IsExpired(strategy, db.tokens, db.cache, req.user.id, now) {
        assert step == Step(Continue, w);
        return Continue;
      }
      r := RenewExpired(req, db, later, t);
    }

    /** Lines 116-166 of `process_request`: the outcome and new state are those of `RenewalStep`. */
    method RenewExpired(req: Request, db: Stores, later: int, t: Transport) returns (r: Outcome)
      requires req.user.Account?
      modifies req, db
      ensures Step(r, Snapshot(req, db))
        == RenewalStep(strategy, settings, old(Snapshot(req, db)), later, t)
    {
      var id := req.user.id;
      if id !in db.tokens {
        r := LogoutAndRedirect(req, WrongProviderMessage);
        return;
      }
      var newIdToken := RenewIdToken(t);
      match newIdToken {
        case Err(Timeout) =>
          r := LogoutAndRedirect(req, NetworkProblemMessage);
        case Err(Raised(e)) =>
          r := Raise(e);
        case Ok(value) =>
          if Truthy(value) {
            SaveRenewal(id, db, value.value, later);
            r := Continue;
          } else {
            r := LogoutAndRedirect(req, ExpiredSessionMessage);
          }
      }
    }
  }
}
