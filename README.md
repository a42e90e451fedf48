# Id-token validation middleware, modelled in Dafny

This project models the request middleware of the standup application that keeps a user's
Auth0 id token fresh (`standup/auth0/middleware.py`). On every request the middleware decides
whether the request is subject to the check at all (the eligibility gate), asks an expiry
oracle whether the user's id token has expired, and if so exchanges it at Auth0's delegation
endpoint for a new one. A renewed token is saved in the user's `IdToken` record. Otherwise the
user is logged out with an error message and redirected to the sign-in view.

Two oracles exist:

- `ValidateIdToken` reads the `IdToken` record. The user is expired when there is no record or
  when its expiry lies strictly in the past.
- `ValidateIdTokenUsingCache` reads the cache key `auth0:renew_id_token:<user id>`. After a
  renewal it stores `True` there for `AUTH0_ID_TOKEN_EXPIRY` seconds.

Python subclassing is modelled by a `Strategy` value (`Direct` or `Cached`) held by the
middleware object.

Files and modules:

- `wrappers.dfy` (`Wrappers`): `Option` and `Result`.
- `text.dfy` (`Text`): `str.lower()`, `split('@', 1)[1]` and decimal formatting of a user id.
  `ParseDecimal` reads the rendering back (`ParseDecimalOfDecimal`); this is how the project proves that cache keys never collide.
- `renewal.dfy` (`Renewal`): how `renew_id_token` interprets the provider's answer.
- `oracle.dfy` (`Oracle`): the `IdToken` table (`map<UserId, IdToken>`), the cache
  (`map<string, CacheEntry>`), both `is_expired` variants and the effect of `update_expiration`.
- `middleware.dfy` (`Middleware`):
  - `Process`, the pure specification of one `process_request` run over a `World`. A `World` holds
    the request's user, its error messages, the token table and the cache. The part after the
    token is reported expired (lines 116-166) is the function `RenewalStep`.
  - The imperative model: classes `Stores`, `Request` and `ValidateIdToken`.
    `ValidateIdToken.ProcessRequest` mutates the request and the stores, and its postcondition
    ties the result to `Process`. It hands lines 116-166 to `ValidateIdToken.RenewExpired`, which
    is tied to `RenewalStep` in the same way.
- `properties.dfy` (`Properties`): the outcome of each branch, and lemmas about two requests in a row.

Behaviour kept as the code has it, where it differs from the intent stated in its docstrings:

- The cached `is_expired` returns `bool(cache.get(key))`. So it reports "expired" exactly when a
  live truthy entry exists, and `update_expiration` creates such an entry. After a renewal the
  user is therefore renewed again on every request until the entry's time-to-live runs out
  (`CachedRenewalRepeats`). A user without an entry is never renewed and never logged out
  (`CachedWithoutEntryNeverRenews`). This is the reverse of the docstring at
  standup/auth0/middleware.py:65-75.
- Only `ConnectTimeout` and `ReadTimeout` are caught. The model represents three other
  exceptions, each raised before anything is written, so they escape `process_request` with
  nothing changed: any other failure of the HTTP client, `.get` on a JSON answer that is not an
  object, and `IndexError` for an email without '@'. These are modelled as the `Raise` outcome,
  not as a logout. Failures of the other calls are not modelled (see "Left out").

## Model

| member | source | states |
|---|---|---|
| Text.Lower | standup/auth0/middleware.py:108 | lower-casing keeps the length, leaves no upper-case ASCII letter and keeps every '@' in place |
| Text.AfterFirst | standup/auth0/middleware.py:108 | `split(sep, 1)[1]` is absent exactly when `sep` does not occur; otherwise it is the suffix after a `sep` that has no `sep` before it |
| Text.AfterFirstAtOfLower | standup/auth0/middleware.py:108 | lower-casing and then splitting at the first '@' gives the lower-cased suffix after the first '@' of the original email |
| Text.Decimal | standup/auth0/middleware.py:172 | the `%s` rendering of a user id is a non-empty string of decimal digits |
| Text.ParseDecimalOfDecimal | standup/auth0/middleware.py:172 | reading the rendered id back gives the id (round trip) |
| Text.DecimalInjective | standup/auth0/middleware.py:179 | distinct ids render as distinct strings |
| Renewal.Truthy | standup/auth0/middleware.py:147 | `if new_id_token:`: `None` and the empty string are false; a true value is a non-empty token |
| Renewal.RenewIdToken | standup/auth0/middleware.py:27-50 | a timeout or any other client failure is raised; a non-JSON body gives None; a JSON object gives its `id_token`, or None when the field is missing; a non-object JSON value raises on `.get` |
| Oracle.CacheKey | standup/auth0/middleware.py:172 | `'auth0:renew_id_token:%s' % user.id` (also line 179): the key starts with the prefix, and the rest reads back as the user's id |
| Oracle.DirectIsExpired | standup/auth0/middleware.py:77-84 | `ValidateIdToken.is_expired`: a user without a record is expired; a record whose expiry is now or later is not expired |
| Oracle.CachedIsExpired | standup/auth0/middleware.py:171-176 | `ValidateIdTokenUsingCache.is_expired`, `bool(cache.get(key))`: never expired when the user's key is absent; expired only with a truthy, still-live entry under that key |
| Oracle.IsExpired | standup/auth0/middleware.py:65-176 | the oracle chosen by the strategy; with nothing recorded for the user, the direct oracle says expired and the cached one says not expired |
| Oracle.UpdatedCache | standup/auth0/middleware.py:86-181 | the cache after either `update_expiration`: unchanged for direct (lines 86-95); for cached, a truthy entry under the user's key that lives `AUTH0_ID_TOKEN_EXPIRY` seconds (lines 178-181); no other key is touched |
| Oracle.CacheKeyInjective | standup/auth0/middleware.py:172 | two users never share the key `auth0:renew_id_token:<id>` |
| Oracle.DirectExpiry | standup/auth0/middleware.py:77-84 | expired exactly when there is no `IdToken` or `expire < now`, so a token expiring exactly now is valid |
| Oracle.CachedExpiry | standup/auth0/middleware.py:171-176 | `bool(cache.get(key))`: the cached oracle reports expired exactly when a truthy entry is stored under the user's key and its time-to-live has not run out |
| Oracle.UpdateExpirationEffect | standup/auth0/middleware.py:86-181 | direct `update_expiration` leaves the cache alone; the cached one makes the user read as expired from then until the TTL of `AUTH0_ID_TOKEN_EXPIRY` runs out |
| Oracle.UpdateExpirationIsolated | standup/auth0/middleware.py:178-181 | writing one user's cache entry does not change the cached answer for any other user |
| Oracle.RenewedRecordValid | standup/auth0/middleware.py:149-151 | a record renewed at time t is not expired for the direct oracle at any time up to t plus the expiry |
| Middleware.ExceptionPaths | standup/auth0/middleware.py:60-63 | `exception_paths` holds exactly the callback path |
| Middleware.Eligible | standup/auth0/middleware.py:98-105 | the gate: an eligible request comes from an active user with a non-empty email; a POST, an AJAX request or the callback path is never eligible |
| Middleware.EmailDomain | standup/auth0/middleware.py:108 | `email.lower().split('@', 1)[1]`: absent exactly when the email has no '@' (Python raises IndexError); otherwise the lower-cased text after the first '@' |
| Middleware.SubjectToCheck | standup/auth0/middleware.py:98-110 | a checked request passes the gate, its email has an '@', and the lower-cased text after the first '@' is in `AUTH0_ID_TOKEN_DOMAINS` |
| Middleware.ForceLogout | standup/auth0/middleware.py:122-129 | `messages.error` then `logout` (also lines 138-144 and 159-165): the user becomes anonymous, exactly the given message is appended, and the stores are unchanged |
| Middleware.Process | standup/auth0/middleware.py:97-166 | one request never creates or deletes a record; it logs out exactly when it redirects to the sign-in view, adding one message and leaving the stores alone; a raise changes nothing; IndexError escapes exactly for an eligible request whose email has no '@'; stores and cache change only on a passed-through renewal, and only for that user's record |
| Middleware.RenewalStep | standup/auth0/middleware.py:116-166 | after an expired answer: records are kept; an exception is a client failure or a non-object answer and changes nothing; a redirect comes exactly with logout, one new message and unchanged stores; only a renewal of an existing record writes, and only that user's record |
| Middleware.Request.Error | standup/auth0/middleware.py:122-128 | `messages.error` appends the message and leaves the user as it is |
| Middleware.Request.Logout | standup/auth0/middleware.py:129 | `logout` makes the request's user anonymous |
| Middleware.ValidateIdToken.UpdateExpiration | standup/auth0/middleware.py:86-181 | leaves the `IdToken` table alone; sets the cache to `UpdatedCache` (unchanged for direct; `True` under the user's key with TTL `AUTH0_ID_TOKEN_EXPIRY` for cached) |
| Middleware.ValidateIdToken.LogoutAndRedirect | standup/auth0/middleware.py:157-166 | adds the message, logs out and returns a redirect to `AUTH0_SIGNIN_VIEW` |
| Middleware.ValidateIdToken.SaveRenewal | standup/auth0/middleware.py:149-153 | this user's record becomes the new token with expiry `AUTH0_ID_TOKEN_EXPIRY` seconds after the given time; the cache becomes what `update_expiration` leaves |
| Middleware.ValidateIdToken.RenewExpired | standup/auth0/middleware.py:116-166 | the returned outcome and the new request, table and cache state are those of `RenewalStep` on the old state |
| Middleware.ValidateIdToken.ProcessRequest | standup/auth0/middleware.py:97-166 | the returned outcome and the new request, table and cache state are those of `Process` on the old state |
| Properties.GateClosedPassesThrough | standup/auth0/middleware.py:98-106 | a POST, an AJAX request, an anonymous, inactive or email-less user, or the callback path: returns None, nothing changes |
| Properties.EmailWithoutAtRaises | standup/auth0/middleware.py:108 | an eligible user whose email has no '@' makes the middleware raise IndexError, changing nothing |
| Properties.OtherDomainPassesThrough | standup/auth0/middleware.py:109-110 | a domain outside `AUTH0_ID_TOKEN_DOMAINS` returns None, nothing changes |
| Properties.NotExpiredPassesThrough | standup/auth0/middleware.py:112-113 | not expired: returns None with no write, no logout, no message |
| Properties.MissingRecordLogsOut | standup/auth0/middleware.py:116-130 | expired without an `IdToken`: logout, exactly one wrong-provider message, redirect, stores unchanged |
| Properties.DirectMissingRecordLogsOut | standup/auth0/middleware.py:77-81 | with the direct oracle every checked user without a record is logged out with the wrong-provider message |
| Properties.TimeoutLogsOut | standup/auth0/middleware.py:132-145 | a renewal timeout: logout, the network-problem message, redirect, record untouched |
| Properties.UncaughtFailuresRaise | standup/auth0/middleware.py:132-135 | another client failure, or a non-object JSON answer, escapes as an exception with nothing changed |
| Properties.RenewalUpdatesRecord | standup/auth0/middleware.py:147-155 | a non-empty `id_token` replaces this user's token and sets expire to the current time plus `AUTH0_ID_TOKEN_EXPIRY`, updates the cache as `update_expiration` does, keeps the user logged in and returns None |
| Properties.RejectionLogsOut | standup/auth0/middleware.py:157-166 | non-JSON body, missing or empty `id_token`: logout, the expired-session message, redirect, record untouched |
| Properties.CallbackPathNeverRenews | standup/auth0/middleware.py:60-63 | a request to the callback path never triggers renewal, whatever the token state |
| Properties.DirectRenewalSettles | standup/auth0/middleware.py:84 | direct oracle: after a renewal, the next request before the new expiry passes through untouched |
| Properties.CachedRenewalRepeats | standup/auth0/middleware.py:176 | cached oracle as written: after a renewal the next request within the TTL is seen as expired and calls the provider again |
| Properties.CachedWithoutEntryNeverRenews | standup/auth0/middleware.py:171-176 | cached oracle as written: with no cache entry the request always passes through, even without an `IdToken` |
| Properties.CachedRenewalIsolated | standup/auth0/middleware.py:179-181 | one user's request never changes whether another user is reported expired by the cached oracle |

## Left out

- The HTTP POST to `https://<AUTH0_DOMAIN>/delegation` (lines 35-41), with its body and timeout. It is network I/O. Its result arrives as a `Transport` value: timed out, failed otherwise, or answered with a body.
- JSON decoding (line 44). The body is given already decoded: not JSON, a JSON object, or another JSON value. Object field values are modelled as strings only. A JSON `null` or non-string `id_token` is not represented.
- `str.lower()` is modelled for ASCII letters only. Unicode case mapping is not modelled.
- Django plumbing: `reverse` (the redirect carries the view name), `HttpResponseRedirect`, and the session internals of `logout` (modelled as the request's user becoming anonymous). Also `messages.error` (modelled as appending to the request's message list; all messages are errors), `request.is_ajax()` (an input flag), the ORM's `get`/`save` (a map read and write), and `urlparse` of the callback URL (the setting holds its path).
- The clock is modelled as two integer inputs. `now` is read by both `is_expired` variants. `later` is the time of the save at line 150 and of `cache.set`. The cache's own eviction is modelled as a stored deadline: an entry is returned while `now < deadline`.
- Failures of the ORM's `get`/`save`, of `cache.get`/`cache.set`, of `logout` and of `reverse` are not modelled: these calls are treated as always succeeding. Some such failures would escape after a change. A `NoReverseMatch` from `reverse` (lines 130, 145, 166) comes after the message is queued and the user is logged out. A failing `cache.set` (line 181) comes after `token.save()` (line 151) has written the new token.
- The cache may hold values other code wrote. Only their truthiness is modelled.
- `logger.debug` (line 154) and the unused `Auth0LookupError` class.
- Requests running concurrently on the same user's record or cache key. The code has no concurrency logic of its own.
