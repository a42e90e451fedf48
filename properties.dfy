/** What one request, and two requests in a row, do to the session, the `IdToken` table and
    the cache, branch by branch. */
module Properties {
  import opened Wrappers
  import opened Text
  import opened Renewal
  import opened Oracle
  import opened Middleware

  /** A POST, an AJAX request, a user who is anonymous, inactive or without an email, or the
      callback path: the request passes through and nothing changes. */
  lemma GateClosedPassesThrough(strategy: Strategy, settings: Settings, inc: Incoming, w: World,
                                now: int, later: int, t: Transport)
    requires inc.httpMethod == "POST" || inc.isAjax || !w.user.Account? || !w.user.isActive
          || w.user.email == "" || inc.path == settings.callbackPath
    ensures Process(strategy, settings, inc, w, now, later, t) == Step(Continue, w)
  {
  }

  /** A user whose email has no '@' makes the middleware raise IndexError, changing nothing. */
  lemma EmailWithoutAtRaises(strategy: Strategy, settings: Settings, inc: Incoming, w: World,
                             now: int, later: int, t: Transport)
    requires Eligible(settings, inc, w.user) && '@' !in w.user.email
    ensures Process(strategy, settings, inc, w, now, later, t) == Step(Raise(IndexError), w)
  {
  }

  /** A domain outside AUTH0_ID_TOKEN_DOMAINS is exempt: pass through, nothing changes. */
  lemma OtherDomainPassesThrough(strategy: Strategy, settings: Settings, inc: Incoming, w: World,
                                 now: int, later: int, t: Transport)
    requires Eligible(settings, inc, w.user) && '@' in w.user.email
    requires Lower(AfterFirst(w.user.email, '@').value) !in settings.idTokenDomains
    ensures Process(strategy, settings, inc, w, now, later, t) == Step(Continue, w)
  {
  }

  /** A token the oracle reports as not expired: pass through, nothing changes. */
  lemma NotExpiredPassesThrough(strategy: Strategy, settings: Settings, inc: Incoming, w: World,
                                now: int, later: int, t: Transport)
    requires SubjectToCheck(settings, inc, w.user)
    requires !IsExpired(strategy, w.tokens, w.cache, w.user.id, now)
    ensures Process(strategy, settings, inc, w, now, later, t) == Step(Continue, w)
  {
  }

  /** Reported expired but no `IdToken` record: logout with the wrong-provider message. */
  lemma MissingRecordLogsOut(strategy: Strategy, settings: Settings, inc: Incoming, w: World,
                             now: int, later: int, t: Transport)
    requires SubjectToCheck(settings, inc, w.user)
    requires IsExpired(strategy, w.tokens, w.cache, w.user.id, now) && w.user.id !in w.tokens
    ensures Process(strategy, settings, inc, w, now, later, t)
         == Step(Redirect(settings.signinView), ForceLogout(w, WrongProviderMessage))
  {
  }

  /** With the direct oracle a missing record always counts as expired, so such a user is always
      logged out, whatever the clock and the provider say. */
  lemma DirectMissingRecordLogsOut(settings: Settings, inc: Incoming, w: World,
                                   now: int, later: int, t: Transport)
    requires SubjectToCheck(settings, inc, w.user) && w.user.id !in w.tokens
    ensures Process(Direct, settings, inc, w, now, later, t)
         == Step(Redirect(settings.signinView), ForceLogout(w, WrongProviderMessage))
  {
    DirectExpiry(w.tokens, w.user.id, now);
  }

  /** A renewal call that times out: logout with the network-problem message. */
  lemma TimeoutLogsOut(strategy: Strategy, settings: Settings, inc: Incoming, w: World,
                       now: int, later: int)
    requires SubjectToCheck(settings, inc, w.user)
    requires IsExpired(strategy, w.tokens, w.cache, w.user.id, now) && w.user.id in w.tokens
    ensures Process(strategy, settings, inc, w, now, later, TimedOut)
         == Step(Redirect(settings.signinView), ForceLogout(w, NetworkProblemMessage))
  {
  }

  /** Any other failure of the renewal call, and a JSON answer that is not an object, escape as
      exceptions and change nothing. */
  lemma UncaughtFailuresRaise(strategy: Strategy, settings: Settings, inc: Incoming, w: World,
                              now: int, later: int)
    requires SubjectToCheck(settings, inc, w.user)
    requires IsExpired(strategy, w.tokens, w.cache, w.user.id, now) && w.user.id in w.tokens
    ensures Process(strategy, settings, inc, w, now, later, Failed) == Step(Raise(RequestError), w)
    ensures Process(strategy, settings, inc, w, now, later, Answered(JsonOther))
         == Step(Raise(AttributeError), w)
  {
  }

  /** A non-empty `id_token` in the answer replaces this user's token and expiry, informs the
      oracle, and lets the request through with the user still logged in. */
  lemma RenewalUpdatesRecord(strategy: Strategy, settings: Settings, inc: Incoming, w: World,
                             now: int, later: int, fields: map<string, string>)
    requires SubjectToCheck(settings, inc, w.user)
    requires IsExpired(strategy, w.tokens, w.cache, w.user.id, now) && w.user.id in w.tokens
    requires IdTokenField in fields && fields[IdTokenField] != ""
    ensures var r := Process(strategy, settings, inc, w, now, later, Answered(JsonObject(fields)));
      && r.outcome == Continue
      && r.world.user == w.user && r.world.messages == w.messages
      && r.world.tokens == w.tokens[w.user.id := IdToken(fields[IdTokenField], later + settings.idTokenExpiry)]
      && r.world.cache == UpdatedCache(strategy, w.cache, w.user.id, later, settings.idTokenExpiry)
  {
  }

  /** A body that is not JSON, a JSON object without `id_token`, or an empty `id_token`: logout
      with the expired-session message. */
  lemma RejectionLogsOut(strategy: Strategy, settings: Settings, inc: Incoming, w: World,
                         now: int, later: int, t: Transport)
    requires SubjectToCheck(settings, inc, w.user)
    requires IsExpired(strategy, w.tokens, w.cache, w.user.id, now) && w.user.id in w.tokens
    requires t == Answered(NotJson)
          || (t.Answered? && t.body.JsonObject?
              && (IdTokenField !in t.body.fields || t.body.fields[IdTokenField] == ""))
    ensures Process(strategy, settings, inc, w, now, later, t)
         == Step(Redirect(settings.signinView), ForceLogout(w, ExpiredSessionMessage))
  {
  }

  /** The callback path never triggers renewal, whatever the token and cache hold. */
  lemma CallbackPathNeverRenews(strategy: Strategy, settings: Settings, inc: Incoming, w: World,
                                now: int, later: int, t: Transport)
    requires inc.path == settings.callbackPath
    ensures Process(strategy, settings, inc, w, now, later, t) == Step(Continue, w)
  {
  }

  /** Direct oracle: once renewed at `later`, a following request at any time up to the new
      expiry passes through untouched, whatever the provider would answer. */
  lemma DirectRenewalSettles(settings: Settings, inc: Incoming, w: World, now: int, later: int,
                             fields: map<string, string>, now2: int, later2: int, t2: Transport)
    requires SubjectToCheck(settings, inc, w.user)
    requires IsExpired(Direct, w.tokens, w.cache, w.user.id, now) && w.user.id in w.tokens
    requires IdTokenField in fields && fields[IdTokenField] != ""
    requires now2 <= later + settings.idTokenExpiry
    ensures var r1 := Process(Direct, settings, inc, w, now, later, Answered(JsonObject(fields)));
      Process(Direct, settings, inc, r1.world, now2, later2, t2) == Step(Continue, r1.world)
  {
    RenewalUpdatesRecord(Direct, settings, inc, w, now, later, fields);
    var r1 := Process(Direct, settings, inc, w, now, later, Answered(JsonObject(fields)));
    RenewedRecordValid(w.tokens, w.user.id, fields[IdTokenField], later, settings.idTokenExpiry, now2);
    NotExpiredPassesThrough(Direct, settings, inc, r1.world, now2, later2, t2);
  }

  /** Cached oracle, as written: after a renewal the user is reported expired again on every
      request until the entry's time-to-live runs out, so the next request calls the provider
      again (and, should that time out, logs the user out). */
  lemma CachedRenewalRepeats(settings: Settings, inc: Incoming, w: World, now: int, later: int,
                             fields: map<string, string>, now2: int, later2: int)
    requires SubjectToCheck(settings, inc, w.user)
    requires IsExpired(Cached, w.tokens, w.cache, w.user.id, now) && w.user.id in w.tokens
    requires IdTokenField in fields && fields[IdTokenField] != ""
    requires now2 < later + settings.idTokenExpiry
    ensures var r1 := Process(Cached, settings, inc, w, now, later, Answered(JsonObject(fields)));
      && IsExpired(Cached, r1.world.tokens, r1.world.cache, w.user.id, now2)
      && Process(Cached, settings, inc, r1.world, now2, later2, TimedOut)
         == Step(Redirect(settings.signinView), ForceLogout(r1.world, NetworkProblemMessage))
  {
    RenewalUpdatesRecord(Cached, settings, inc, w, now, later, fields);
    var r1 := Process(Cached, settings, inc, w, now, later, Answered(JsonObject(fields)));
    UpdateExpirationEffect(Cached, w.cache, w.user.id, later, settings.idTokenExpiry, now2);
    TimeoutLogsOut(Cached, settings, inc, r1.world, now2, later2);
  }

  /** Cached oracle, as written: with no entry under the user's key the request always passes
      through, even for a user who has no `IdToken` record at all. */
  lemma CachedWithoutEntryNeverRenews(settings: Settings, inc: Incoming, w: World,
                                      now: int, later: int, t: Transport)
    requires SubjectToCheck(settings, inc, w.user) && CacheKey(w.user.id) !in w.cache
    ensures Process(Cached, settings, inc, w, now, later, t) == Step(Continue, w)
  {
    CachedExpiry(w.cache, w.user.id, now);
  }

  /** Cached oracle: one user's renewal does not change whether any other user is reported expired. */
  lemma CachedRenewalIsolated(settings: Settings, inc: Incoming, w: World, now: int, later: int,
                              t: Transport, other: UserId, now2: int)
    requires SubjectToCheck(settings, inc, w.user) && other != w.user.id
    ensures var r := Process(Cached, settings, inc, w, now, later, t);
      IsExpired(Cached, r.world.tokens, r.world.cache, other, now2)
      == IsExpired(Cached, w.tokens, w.cache, other, now2)
  {
    UpdateExpirationIsolated(Cached, w.cache, w.user.id, later, settings.idTokenExpiry, other, now2);
  }
}
