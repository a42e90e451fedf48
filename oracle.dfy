/** The two interchangeable answers to "is this user's id token expired?": one reads the
    persistent `IdToken` record, the other a key in the shared cache. */
module Oracle {
  import opened Text

  type UserId = nat

  /** The `IdToken` row of one user. */
  datatype IdToken = IdToken(idToken: string, expire: int)

  /** A cache entry: whether the stored value is truthy, and the instant it stops being returned. */
  datatype CacheEntry = CacheEntry(truthy: bool, deadline: int)

  /** `ValidateIdToken` reads the record; `ValidateIdTokenUsingCache` reads the cache. */
  datatype Strategy = Direct | Cached

  const CacheKeyPrefix := "auth0:renew_id_token:"

  /** `'auth0:renew_id_token:%s' % user.id`. */
  function CacheKey(id: UserId): (r: string)
    ensures |r| > |CacheKeyPrefix| && r[..|CacheKeyPrefix|] == CacheKeyPrefix
    ensures ParseDecimal(r[|CacheKeyPrefix|..]) == id
  {
    var digits := Decimal(id);
    ParseDecimalOfDecimal(id);
    assert (CacheKeyPrefix + digits)[|CacheKeyPrefix|..] == digits;
    CacheKeyPrefix + digits
  }

  /** Two users never share a cache key. */
  lemma CacheKeyInjective(a: UserId, b: UserId)
    ensures CacheKey(a) == CacheKey(b) ==> a == b
  {
    if CacheKey(a) == CacheKey(b) {
      assert Decimal(a) == CacheKey(a)[|CacheKeyPrefix|..];
      assert Decimal(b) == CacheKey(b)[|CacheKeyPrefix|..];
      DecimalInjective(a, b);
    }
  }

  /** `cache.get(key)` is truthy: a truthy value is stored and its time-to-live has not run out. */
  predicate CacheHit(cache: map<string, CacheEntry>, key: string, now: int)
  {
    key in cache && now < cache[key].deadline && cache[key].truthy
  }

  /** `ValidateIdToken.is_expired`: no record, or a record whose expiry lies strictly in the past. */
  predicate DirectIsExpired(tokens: map<UserId, IdToken>, id: UserId, now: int)
    ensures id !in tokens ==> DirectIsExpired(tokens, id, now)
    ensures id in tokens && now <= tokens[id].expire ==> !DirectIsExpired(tokens, id, now)
  {
    id !in tokens || tokens[id].expire < now
  }

  /** `ValidateIdTokenUsingCache.is_expired`: `bool(cache.get(key))`. */
  predicate CachedIsExpired(cache: map<string, CacheEntry>, id: UserId, now: int)
    ensures CacheKey(id) !in cache ==> !CachedIsExpired(cache, id, now)
    ensures CachedIsExpired(cache, id, now) ==>
      CacheKey(id) in cache && cache[CacheKey(id)].truthy && now < cache[CacheKey(id)].deadline
  {
    CacheHit(cache, CacheKey(id), now)
  }

  predicate IsExpired(strategy: Strategy, tokens: map<UserId, IdToken>,
                      cache: map<string, CacheEntry>, id: UserId, now: int)
    // with nothing recorded for the user the two oracles disagree: direct says expired,
    // cached says not expired
    ensures strategy == Direct && id !in tokens ==> IsExpired(strategy, tokens, cache, id, now)
    ensures strategy == Cached && CacheKey(id) !in cache ==> !IsExpired(strategy, tokens, cache, id, now)
  {
    match strategy
    case Direct => DirectIsExpired(tokens, id, now)
    case Cached => CachedIsExpired(cache, id, now)
  }

  /** The cache after `update_expiration`: unchanged for the direct strategy; for the cached
      one, `True` stored under the user's key for `ttl` seconds from `now`. */
  function UpdatedCache(strategy: Strategy, cache: map<string, CacheEntry>, id: UserId,
                        now: int, ttl: int): (r: map<string, CacheEntry>)
    ensures strategy == Direct ==> r == cache
    ensures strategy == Cached ==>
      CacheKey(id) in r && r[CacheKey(id)].truthy && r[CacheKey(id)].deadline == now + ttl
    // no other key is touched
    ensures r.Keys - {CacheKey(id)} == cache.Keys - {CacheKey(id)}
    ensures forall k :: k in cache && k != CacheKey(id) ==> k in r && r[k] == cache[k]
  {
    match strategy
    case Direct => cache
    case Cached => cache[CacheKey(id) := CacheEntry(true, now + ttl)]
  }

  /** The direct oracle reports "expired" exactly when the user has no `IdToken` or its expiry
      lies strictly in the past, so a token expiring exactly now is still valid. */
  lemma DirectExpiry(tokens: map<UserId, IdToken>, id: UserId, now: int)
    ensures DirectIsExpired(tokens, id, now) <==> id !in tokens || tokens[id].expire < now
    ensures id in tokens && tokens[id].expire == now ==> !DirectIsExpired(tokens, id, now)
  {
  }

  /** The cached oracle reports "expired" exactly when a live truthy entry exists, so with no
      entry under the user's key it never reports "expired". */
  lemma CachedExpiry(cache: map<string, CacheEntry>, id: UserId, now: int)
    ensures CachedIsExpired(cache, id, now) <==>
      CacheKey(id) in cache && cache[CacheKey(id)].truthy && now < cache[CacheKey(id)].deadline
  {
  }

  /** `update_expiration` changes nothing for the direct strategy; for the cached strategy the
      user is reported expired from then on until the time-to-live runs out. */
  lemma UpdateExpirationEffect(strategy: Strategy, cache: map<string, CacheEntry>, id: UserId,
                               at: int, ttl: int, now: int)
    ensures strategy == Direct ==> UpdatedCache(strategy, cache, id, at, ttl) == cache
    ensures strategy == Cached ==>
      (CachedIsExpired(UpdatedCache(strategy, cache, id, at, ttl), id, now) <==> now < at + ttl)
  {
  }

  /** Renewing one user's cache entry does not change what the cached oracle says of any other user. */
  lemma UpdateExpirationIsolated(strategy: Strategy, cache: map<string, CacheEntry>, id: UserId,
                                 at: int, ttl: int, other: UserId, now: int)
    requires other != id
    ensures CachedIsExpired(UpdatedCache(strategy, cache, id, at, ttl), other, now)
        == CachedIsExpired(cache, other, now)
  {
    CacheKeyInjective(id, other);
  }

  /** A record renewed at `at` for `ttl >= 0` seconds is not expired for the direct oracle at any
      time up to and including `at + ttl`. */
  lemma RenewedRecordValid(tokens: map<UserId, IdToken>, id: UserId, token: string,
                           at: int, ttl: int, now: int)
    requires now <= at + ttl
    ensures !DirectIsExpired(tokens[id := IdToken(token, at + ttl)], id, now)
  {
  }
}
