# Cache-backed session persistence, modelled in Dafny

This project models `CacheSessionPersistence` from zend-expressive-session-cache.
The adapter keeps web-session data in a PSR-6 cache pool. A cookie carries the
session identifier to the client. The adapter also adds HTTP caching headers
that follow PHP's `session.cache_limiter` modes.

- **Read path.** `initializeSessionFromRequest` takes the identifier from the
  `Cookie` header when that header is non-empty, and otherwise from the
  server's parsed cookie parameters. It then loads the data from the cache.
- **Write path.** `persistSession` runs these steps in order:
  1. it returns at once for a new session with nothing to store;
  2. it rotates the identifier when needed, deleting the old cache entry;
  3. it writes the data through to the cache with TTL `cacheExpire`;
  4. it sets the session cookie, with an expiry only for a positive
     persistence duration;
  5. unless the response already has a cache header, it adds the
     cache-limiter headers as in the table below.
- **Construction.** An empty cookie name is rejected. An unknown cache
  limiter silently becomes `nocache`.

| limiter | Expires | Cache-Control | Pragma | Last-Modified |
|---|---|---|---|---|
| nocache | `Thu, 19 Nov 1981 08:52:00 GMT` | `no-store, no-cache, must-revalidate` | `no-cache` | — |
| public | now + cacheExpire | `public, max-age=N` | — | configured |
| private | `Thu, 19 Nov 1981 08:52:00 GMT` | `private, max-age=N` | — | configured |
| private_no_expire | — | `private, max-age=N` | — | configured |

Layout:

- `wrappers.dfy`: `Option` and `Result`.
- `encoding.dfy`: `bin2hex` and `%d`, each with its inverse and a round-trip lemma.
- `sessions.dfy`: PHP values, PHP truthiness, and the session handle.
- `http.dfy`: immutable requests and responses. Header names compare
  case-insensitively, as in PSR-7.
- `cache.dfy`: the cache pool. It is a class whose `items` map the methods update.
- `persistence.dfy`: the configuration and the pure functions of both paths.
  It also holds the `CacheSessionPersistence` class, whose methods take the
  source's steps against the store. Each method is proved equal to a pure
  function (`InitialSession`, `Persist`).
- `properties.dfy`: what the adapter promises, proved over those functions.

PHP's truthiness rules, as the code applies them, give these edge cases:

- `empty($cookieName)` rejects the name `"0"` as well as `""`.
- `$id ? … : []` treats the identifier `"0"` as absent. No cache lookup is
  made, but the identifier is kept.
- `$lastModified ? … : …` treats the timestamp `0` as "not given". The
  discovered modification time is used instead.
- An identifier is rotated because it is `""`, not because it is falsy.
  Likewise, the old entry is deleted only when the old identifier is not `""`.
  A cache entry stored under `""` therefore survives rotation.
- If the cache holds a truthy value that is not an array, the read path
  fails (`TypeError`). PHP raises this because of the `: array` return type.

## Model

| member | source | states |
|---|---|---|
| `Encoding.Bin2Hex` | src/CacheSessionPersistence.php:233 | two characters per byte, all lower-case hexadecimal |
| `Encoding.HexRoundTrip` | src/CacheSessionPersistence.php:233 | `hex2bin(bin2hex(b)) == b`: the encoding loses no byte |
| `Encoding.Bin2HexInjective` | src/CacheSessionPersistence.php:233 | distinct byte strings give distinct hex strings |
| `Encoding.NatToDecimal` | src/CacheSessionPersistence.php:255 | `%d` of a natural number is all digits, with no leading zero |
| `Encoding.IntToDecimal` | src/CacheSessionPersistence.php:264 | `%d` of an integer starts with `-` exactly when it is negative |
| `Encoding.NatDecimalRoundTrip` | src/CacheSessionPersistence.php:271 | parsing the printed digits gives the number back |
| `Encoding.IntDecimalRoundTrip` | src/CacheSessionPersistence.php:255 | the `max-age` text determines `cacheExpire` exactly, negative values included |
| `Sessions.SessionLifetime` | src/CacheSessionPersistence.php:355 | an integer stored under the lifetime key is the lifetime; any other value reads as 0 |
| `Http.WithHeader` | src/CacheSessionPersistence.php:206 | the header is set to the value, other spellings of its name are removed, all other headers and cookies are kept |
| `Http.WithCookie` | src/CacheSessionPersistence.php:198 | the cookie replaces any cookie of the same name; other cookies and all headers are kept |
| `Http.ApplyHeadersSetsEach` | src/CacheSessionPersistence.php:204-208 | applying distinct headers in order leaves each one set to its value |
| `Http.ApplyHeadersKeepsOthers` | src/CacheSessionPersistence.php:204-208 | headers the list does not name, and all cookies, are unchanged |
| `Http.ApplyHeadersPresence` | src/CacheSessionPersistence.php:204-208 | afterwards a header is present iff the list names it or it was present before |
| `SessionCache.LimiterName` | src/CacheSessionPersistence.php:53-58 | every limiter's name is one of the four supported names |
| `SessionCache.ParseCacheLimiter` | src/CacheSessionPersistence.php:143-145 | a supported name is kept verbatim; any other string becomes `nocache` |
| `SessionCache.NewConfig` | src/CacheSessionPersistence.php:116-154 | fails with an invalid-argument error iff the cookie name is falsy; otherwise the cookie settings, expiry and persistence flag are stored unchanged, the limiter is normalised, and Last-Modified is the given truthy timestamp or else the discovered one |
| `SessionCache.NewDefaultConfig` | src/CacheSessionPersistence.php:116-127 | defaults: no domain, path `/`, not secure, not http-only, `nocache`, 10800 seconds, not persistent |
| `SessionCache.GenerateSessionId` | src/CacheSessionPersistence.php:231-234 | the identifier is 32 lower-case hex characters, and decoding it gives back the 16 random bytes |
| `SessionCache.PersistenceDuration` | src/CacheSessionPersistence.php:349-358 | the cookie lifetime is never negative |
| `SessionCache.GenerateCacheHeaders` | src/CacheSessionPersistence.php:240-274 | the generated headers have distinct names, all among Expires, Last-Modified, Cache-Control and Pragma |
| `SessionCache.HasCacheHeaders` | src/CacheSessionPersistence.php:339-347 | true iff some header of the response is a spelling, in any case, of Expires, Last-Modified, Cache-Control or Pragma |
| `SessionCache.CookieFromRequest` | src/CacheSessionPersistence.php:310-317 | with a non-empty Cookie header the id is that header's cookie, otherwise the cookie parameter; a non-empty id always comes from the source that is consulted |
| `SessionCache.CachedData` | src/CacheSessionPersistence.php:319-326 | fails iff the cached value is truthy and not an array; cached array entries are returned as they are; non-empty data only ever comes from a cached array |
| `SessionCache.InitialSession` | src/CacheSessionPersistence.php:156-161 | the session carries the request's id and is neither changed nor regenerated; non-empty data means a truthy id whose cached data it is; it fails iff the id is truthy and its cached data is a type error |
| `SessionCache.Persist` | src/CacheSessionPersistence.php:163-211 | a no-op session leaves response and store as they were; otherwise the store maps the final id to the session data with TTL `cacheExpire`, and the response's session cookie carries that id |
| `SessionCache.WithHeaders` | src/CacheSessionPersistence.php:204-208 | the loop's result is `withHeader` applied to each entry in order |
| `SessionCache.CacheSessionPersistence.constructor` | src/CacheSessionPersistence.php:128-153 | the adapter keeps the given pool and the validated configuration |
| `SessionCache.CacheSessionPersistence.Create` | src/CacheSessionPersistence.php:116-154 | construction fails iff the cookie name is falsy; otherwise a new adapter holds the pool and the configuration `NewConfig` gives |
| `SessionCache.CacheSessionPersistence.GetSessionDataFromCache` | src/CacheSessionPersistence.php:319-326 | a miss or a falsy value gives empty data, an array gives its entries, any other value is a type error |
| `SessionCache.CacheSessionPersistence.InitializeSessionFromRequest` | src/CacheSessionPersistence.php:156-161 | returns the session with the request's identifier and the cached data; the session is neither changed nor regenerated |
| `SessionCache.CacheSessionPersistence.RegenerateSession` | src/CacheSessionPersistence.php:220-226 | deletes the old entry iff the old id is non-empty and present, and returns the freshly generated id |
| `SessionCache.CacheSessionPersistence.PersistSessionDataToCache` | src/CacheSessionPersistence.php:328-334 | the store afterwards maps the id to exactly the data, with TTL `cacheExpire`, and nothing else changes |
| `SessionCache.CacheSessionPersistence.PersistSession` | src/CacheSessionPersistence.php:163-211 | the returned response and the new store are those of `Persist` on the old store; the properties below hold of them |
| `SessionCacheProperties.LimiterRoundTrip` | src/CacheSessionPersistence.php:53-58 | each limiter survives a round trip through its name |
| `SessionCacheProperties.UnknownLimiterIsNoCache` | src/CacheSessionPersistence.php:143-145 | for every choice of the other arguments, an unsupported limiter string configures exactly what `nocache` does |
| `SessionCacheProperties.CookieHeaderTakesPrecedence` | src/CacheSessionPersistence.php:312-313 | with a non-empty Cookie header the id is that header's cookie (or `''`), whatever the cookie parameters hold |
| `SessionCacheProperties.CookieParamsFallback` | src/CacheSessionPersistence.php:316 | without a Cookie header the id is the cookie parameter (or `''`) |
| `SessionCacheProperties.InitialSessionCases` | src/CacheSessionPersistence.php:156-161 | every case of the read path: falsy id gives empty data; for a truthy id, a miss or falsy value gives empty data, a hit on an array gives that array, and any other value is the only failure |
| `SessionCacheProperties.FalsyIdentifierIgnoresCache` | src/CacheSessionPersistence.php:159 | for a falsy id the result does not depend on the cache at all |
| `SessionCacheProperties.NoOpChangesNothing` | src/CacheSessionPersistence.php:168-172 | a session with no id and empty or unchanged data returns the response identical and leaves the cache untouched |
| `SessionCacheProperties.RotationRule` | src/CacheSessionPersistence.php:178-180 | the cookie carries a freshly generated id exactly when the id is empty, regeneration was requested or the data changed; otherwise the existing id |
| `SessionCacheProperties.RotatedIdentifierIsWellFormed` | src/CacheSessionPersistence.php:220-234 | a rotated id is 32 lower-case hex characters, and it differs from an old id of any other shape |
| `SessionCacheProperties.DistinctEntropyDistinctIds` | src/CacheSessionPersistence.php:233 | distinct random bytes give distinct identifiers |
| `SessionCacheProperties.PersistedCookie` | src/CacheSessionPersistence.php:184-198 | the cookie has the configured name, domain, path, secure and http-only values, carries the final id, and expires at now + duration only for a positive duration; other cookies are kept |
| `SessionCacheProperties.WriteThrough` | src/CacheSessionPersistence.php:182 | the id in the cookie maps in the cache to exactly the session data with TTL `cacheExpire` |
| `SessionCacheProperties.OnlyOldAndNewKeysChange` | src/CacheSessionPersistence.php:178-182 | only the final id and, on rotation, the old id change in the cache; a non-empty old id that was rotated away is gone; without rotation the data is simply rewritten under the same id |
| `SessionCacheProperties.UnchangedSessionIsIdempotent` | src/CacheSessionPersistence.php:178-182 | persisting an unchanged session that has an id keeps that id, and doing it twice leaves the same cache as once |
| `SessionCacheProperties.PersistThenRead` | src/CacheSessionPersistence.php:156-189 | when the final id is truthy (it was rotated, or the kept id is not `"0"`), a request that carries back the issued cookie reads exactly the persisted data |
| `SessionCacheProperties.PersistThenReadUnrotatedZero` | src/CacheSessionPersistence.php:156-182 | an unrotated id `"0"` is written to the cache with the session data, but a request carrying it back reads empty data |
| `SessionCacheProperties.LifetimeKeyOverridesPersistentFlag` | src/CacheSessionPersistence.php:351-357 | a lifetime stored in the session decides the duration whatever the persistence flag says; a positive lifetime is used as is, zero or a negative one gives 0 |
| `SessionCacheProperties.DurationWithoutLifetimeKey` | src/CacheSessionPersistence.php:351-357 | without a stored lifetime the duration is `cacheExpire` (clamped at 0) when persistent and 0 otherwise |
| `SessionCacheProperties.CookieExpiry` | src/CacheSessionPersistence.php:191-196 | the cookie has an expiry iff the duration is positive, and that expiry is now + duration |
| `SessionCacheProperties.ExistingCacheHeadersKept` | src/CacheSessionPersistence.php:200-202 | a response with any of the four cache headers keeps exactly its headers |
| `SessionCacheProperties.CacheHeadersFollowLimiter` | src/CacheSessionPersistence.php:200-208 | otherwise the response gains exactly the limiter's row of the table above: the listed values, the listed absences, no cache-header key other than the listed names, and no other header changes |
| `SessionCacheProperties.LimiterTable` | src/CacheSessionPersistence.php:240-274 | the table, applied to any response without cache headers; the only cache-header keys afterwards are the listed names |
| `SessionCacheProperties.CacheHeaderKeysListed` | src/CacheSessionPersistence.php:204-208 | after the table on a response without cache headers, a key is a cache-header spelling iff it is one of the names the limiter's row lists |
| `Http.ApplyHeadersAddsOnlyListed` | src/CacheSessionPersistence.php:204-208 | applying a list of headers adds no key other than the names it lists |
| `SessionCacheProperties.UnrelatedHeadersKept` | src/CacheSessionPersistence.php:204-208 | headers that are not spellings of the four cache headers are kept |
| `SessionCacheProperties.NoCacheTable` | src/CacheSessionPersistence.php:243-249 | `nocache`: the past Expires date, `no-store, no-cache, must-revalidate`, Pragma `no-cache`, and no Last-Modified |
| `SessionCacheProperties.PublicTable` | src/CacheSessionPersistence.php:252-258 | `public`: Expires at now + cacheExpire, `public, max-age=N`, Last-Modified, and no Pragma |
| `SessionCacheProperties.PrivateTable` | src/CacheSessionPersistence.php:261-267 | `private`: the past Expires date, `private, max-age=N`, Last-Modified, and no Pragma |
| `SessionCacheProperties.PrivateNoExpireTable` | src/CacheSessionPersistence.php:270-273 | `private_no_expire`: `private, max-age=N` and Last-Modified only, with no Expires and no Pragma |

## Left out

- `determineLastModifiedValue` (filesystem I/O through `getcwd`, `file_exists` and `filemtime`) is not executed. The modification time it would find is a parameter of `NewConfig`.
- `random_bytes(16)`: its 16 bytes are a parameter of `PersistSession`. `bin2hex` itself is modelled.
- Clocks and date formatting are not modelled. `time()` and `new DateTimeImmutable()` become one `now` parameter. A `gmdate` HTTP-date (section 7.1.1.1 of RFC 7231) is kept as `Date(timestamp)`, and the cookie's Expires attribute (section 4.1.2.1 of RFC 6265) as a timestamp. The text rendering is not modelled.
- Cookie parsing and rendering by FigCookies are not modelled. A request carries the cookies already parsed from its `Cookie` line. A response keeps its Set-Cookie entries in a map by cookie name, apart from its other headers.
- PSR-7 header values are single values here, not lists of strings.
- `SessionCache.GenerateCacheHeaders`: the `false !== $value` filter is not modelled. A header value is never `false` here, because date rendering cannot fail in the model.
- The sibling `Session` class is not part of this model. The handle is a value `{id, data, changed, regenerated}`, and how `hasChanged` is computed is left to that class.
- `Sessions.SessionLifetime`: a lifetime value that is neither an integer nor absent would be a type error in the sibling class. The lifetime key `__SESSION_TTL__` is that package's constant.
- `SessionCacheProperties.RotatedIdentifierIsWellFormed`: the new id is proved to differ from the old one only when the old id is not 32 lower-case hex characters. Otherwise only the randomness keeps them apart, and the code does not check.
- Cache pool behaviour is not modelled: entries expiring over time, PSR-6 key validation, and failures of the pool. The result of `save` is ignored, as in the code.
- Integers are unbounded. PHP's 64-bit overflow of `time() + cacheExpire` is not modelled.
- Concurrent requests sharing one identifier are not modelled. That is a property of the cache pool.
- The DI factory (`src/CacheSessionPersistenceFactory.php`) and the exception marker classes are not part of this model. Errors are values of `SessionCache.Error`.
- `SessionCache.PersistenceDuration`: every session is treated as a `SessionCookiePersistenceInterface`. The `instanceof` test is dropped, so a session that does not implement that interface would still have its `__SESSION_TTL__` entry read here, where the code ignores it.
- PHP floats and objects are not values of `Sessions.Value`. So `$item->get() ?: []` on a cached `0.0` (falsy, read as empty data) or on a cached object (a `TypeError`) cannot be expressed. Only null, booleans, integers, strings and arrays are modelled.
