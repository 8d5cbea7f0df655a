/**
 * CacheSessionPersistence: session persistence over a cache pool. The read
 * path resolves the session identifier from the request and loads its data;
 * the write path decides identifier rotation, writes the data through to the
 * cache and adds the session cookie and the cache-limiter headers.
 *
 * Each operation is a pure function of the configuration and its inputs;
 * the class methods perform the same steps against the mutable store and
 * are proved equal to those functions.
 */
module SessionCache {

  import opened Wrappers
  import opened Encoding
  import opened Sessions
  import opened Http
  import opened Cache

  datatype Error = InvalidArgument(message: string) | TypeError(message: string)

  // ---------------------------------------------------------------------
  // Configuration
  // ---------------------------------------------------------------------

  /** The four cache limiters of PHP's `session.cache_limiter`. */
  datatype CacheLimiter = NoCache | Public | Private | PrivateNoExpire

  const SupportedCacheLimiters: seq<string> := ["nocache", "public", "private", "private_no_expire"]

  function LimiterName(l: CacheLimiter): (s: string)
    ensures s in SupportedCacheLimiters
  {
    match l
    case NoCache => "nocache"
    case Public => "public"
    case Private => "private"
    case PrivateNoExpire => "private_no_expire"
  }

  /** A supported limiter name is kept; any other string becomes `nocache`. */
  function ParseCacheLimiter(s: string): (l: CacheLimiter)
    ensures s in SupportedCacheLimiters ==> LimiterName(l) == s
    ensures s !in SupportedCacheLimiters ==> l == NoCache
  {
    if s == "public" then Public
    else if s == "private" then Private
    else if s == "private_no_expire" then PrivateNoExpire
    else NoCache
  }

  /** The validated, normalised settings of one persistence adapter. */
  datatype Config = Config(
    cookieName: string,
    cookieDomain: Option<string>,
    cookiePath: string,
    cookieSecure: bool,
    cookieHttpOnly: bool,
    cacheLimiter: CacheLimiter,
    cacheExpire: int,
    lastModified: HeaderValue,
    persistent: bool)

  const DefaultCacheExpire: int := 10800

  const CachePastDate: string := "Thu, 19 Nov 1981 08:52:00 GMT"

  /**
   * The constructor's validation and normalisation. `discoveredLastModified`
   * is the modification time the adapter looks up on the filesystem when no
   * (truthy) `lastModified` timestamp is given.
   */
  function NewConfig(
    cookieName: string,
    cookieDomain: Option<string>,
    cookiePath: string,
    cookieSecure: bool,
    cookieHttpOnly: bool,
    cacheLimiter: string,
    cacheExpire: int,
    lastModified: Option<int>,
    discoveredLastModified: int,
    persistent: bool): (r: Result<Config, Error>)
    ensures r.Failure? <==> !TruthyString(cookieName)
    ensures r.Failure? ==> r.error.InvalidArgument?
    ensures r.Success? ==>
      && r.value.cookieName == cookieName
      && r.value.cookieDomain == cookieDomain
      && r.value.cookiePath == cookiePath
      && r.value.cookieSecure == cookieSecure
      && r.value.cookieHttpOnly == cookieHttpOnly
      && r.value.cacheExpire == cacheExpire
      && r.value.persistent == persistent
    ensures r.Success? && cacheLimiter in SupportedCacheLimiters ==> LimiterName(r.value.cacheLimiter) == cacheLimiter
    ensures r.Success? && cacheLimiter !in SupportedCacheLimiters ==> r.value.cacheLimiter == NoCache
    ensures r.Success? && lastModified.Some? && lastModified.value != 0 ==> r.value.lastModified == Date(lastModified.value)
    ensures r.Success? && (lastModified.None? || lastModified.value == 0) ==> r.value.lastModified == Date(discoveredLastModified)
  {
    if !TruthyString(cookieName) then
      Failure(InvalidArgument("Session cookie name must not be empty"))
    else
      Success(Config(
        cookieName, cookieDomain, cookiePath, cookieSecure, cookieHttpOnly,
        ParseCacheLimiter(cacheLimiter),
        cacheExpire,
        Date(if lastModified.Some? && lastModified.value != 0 then lastModified.value else discoveredLastModified),
        persistent))
  }

  /** The constructor called with only a cookie name. */
  function NewDefaultConfig(cookieName: string, discoveredLastModified: int): (r: Result<Config, Error>)
    ensures r.Success? <==> TruthyString(cookieName)
    ensures r.Success? ==> r.value == Config(cookieName, None, "/", false, false, NoCache,
                                             DefaultCacheExpire, Date(discoveredLastModified), false)
  {
    NewConfig(cookieName, None, "/", false, false, "nocache", DefaultCacheExpire, None, discoveredLastModified, false)
  }

  // ---------------------------------------------------------------------
  // Read path
  // ---------------------------------------------------------------------

  /**
   * `getCookieFromRequest`: the cookie parsed from a non-empty `Cookie`
   * header, otherwise the pre-parsed cookie parameter; "" when absent.
   */
  function CookieFromRequest(name: string, req: Request): (id: string)
    ensures req.cookieLine != "" && name in req.headerCookies ==> id == req.headerCookies[name]
    ensures req.cookieLine == "" && name in req.cookieParams ==> id == req.cookieParams[name]
    ensures id != "" ==>
      || (req.cookieLine != "" && name in req.headerCookies && req.headerCookies[name] == id)
      || (req.cookieLine == "" && name in req.cookieParams && req.cookieParams[name] == id)
  {
    if req.cookieLine != "" then
      if name in req.headerCookies then req.headerCookies[name] else ""
    else
      if name in req.cookieParams then req.cookieParams[name] else ""
  }

  /**
   * `getSessionDataFromCache`: a miss or a falsy value gives empty data; a
   * truthy value that is not an array cannot be returned as session data.
   */
  function CachedData(items: map<string, Entry>, id: string): (r: Result<Data, Error>)
    ensures r.Failure? <==> id in items && Truthy(items[id].value) && !items[id].value.Arr?
    ensures r.Success? && r.value != map[] ==> id in items && items[id].value == Arr(r.value)
    ensures id in items && items[id].value.Arr? ==> r == Success(items[id].value.entries)
  {
    if id !in items || !Truthy(items[id].value) then Success(map[])
    else if items[id].value.Arr? then Success(items[id].value.entries)
    else Failure(TypeError("cached session data is not an array"))
  }

  /** `initializeSessionFromRequest`: a fresh, unchanged, not regenerated session. */
  function InitialSession(name: string, items: map<string, Entry>, req: Request): (r: Result<Session, Error>)
    ensures r.Success? ==>
      r.value.id == CookieFromRequest(name, req) && !r.value.changed && !r.value.regenerated
    ensures r.Success? && r.value.data != map[] ==>
      TruthyString(r.value.id) && CachedData(items, r.value.id) == Success(r.value.data)
    ensures r.Failure? <==> TruthyString(CookieFromRequest(name, req)) && CachedData(items, CookieFromRequest(name, req)).Failure?
  {
    var id := CookieFromRequest(name, req);
    if !TruthyString(id) then Success(Session(id, map[], false, false))
    else
      match CachedData(items, id)
      case Success(data) => Success(Session(id, data, false, false))
      case Failure(e) => Failure(e)
  }

  // ---------------------------------------------------------------------
  // Write path
  // ---------------------------------------------------------------------

  /** A new session that holds nothing worth storing. */
  predicate IsNoOp(s: Session) {
    s.id == "" && (s.data == map[] || !s.changed)
  }

  /** The identifier is replaced when there is none, on request, or when the data changed. */
  predicate MustRotate(s: Session) {
    s.id == "" || s.regenerated || s.changed
  }

  /** The shape of an identifier the adapter issues. */
  predicate IsSessionId(s: string) {
    |s| == 32 && IsLowerHex(s)
  }

  /** `generateSessionId`, over the 16 bytes `random_bytes(16)` returned. */
  function GenerateSessionId(entropy: seq<byte>): (id: string)
    requires |entropy| == 16
    ensures IsSessionId(id)
    ensures Hex2Bin(id) == entropy
  {
    HexRoundTrip(entropy);
    Bin2Hex(entropy)
  }

  /** The identifier the write path ends up with (when it is not a no-op). */
  function FinalId(s: Session, entropy: seq<byte>): string
    requires |entropy| == 16
  {
    if MustRotate(s) then GenerateSessionId(entropy) else s.id
  }

  /** The store after `regenerateSession(oldId)`: the old entry is gone if there was one. */
  function StoreAfterRegenerate(items: map<string, Entry>, oldId: string): map<string, Entry> {
    if oldId != "" && oldId in items then items - {oldId} else items
  }

  /** `getPersistenceDuration`: the cookie lifetime in seconds, never negative. */
  function PersistenceDuration(c: Config, s: Session): (d: int)
    ensures d >= 0
  {
    var duration := if SessionLifetimeKey in s.data then SessionLifetime(s.data)
                    else if c.persistent then c.cacheExpire else 0;
    if duration < 0 then 0 else duration
  }

  /** The session cookie; it carries an expiry only for a non-zero duration. */
  function SessionCookie(c: Config, id: string, duration: int, now: int): SetCookie {
    SetCookie(c.cookieName, id, c.cookieDomain, c.cookiePath, c.cookieSecure, c.cookieHttpOnly,
              if duration != 0 then Some(now + duration) else None)
  }

  predicate IsCacheHeaderName(n: string) {
    n == "Expires" || n == "Last-Modified" || n == "Cache-Control" || n == "Pragma"
  }

  /** Any spelling of one of the four cache headers. */
  predicate IsCacheHeaderSpelling(k: string) {
    SameName(k, "Expires") || SameName(k, "Last-Modified") || SameName(k, "Cache-Control") || SameName(k, "Pragma")
  }

  /** `responseAlreadyHasCacheHeaders`: some header is a spelling of one of the four. */
  predicate HasCacheHeaders(r: Response): (b: bool)
    ensures b <==> exists k :: k in r.headers && IsCacheHeaderSpelling(k)
  {
    HasHeader(r, "Expires") || HasHeader(r, "Last-Modified") || HasHeader(r, "Cache-Control") || HasHeader(r, "Pragma")
  }

  lemma CacheHeaderNamesDiffer()
    ensures !SameName("Expires", "Last-Modified") && !SameName("Expires", "Cache-Control")
    ensures !SameName("Expires", "Pragma") && !SameName("Last-Modified", "Cache-Control")
    ensures !SameName("Last-Modified", "Pragma") && !SameName("Cache-Control", "Pragma")
  {
    assert Lower("Last-Modified")[0] == 'l' && Lower("Cache-Control")[0] == 'c';
  }

  /**
   * `generateCacheHeaders`: the headers of the configured cache limiter
   * (Cache-Control directives as in section 5.2 of RFC 7234).
   */
  function GenerateCacheHeaders(c: Config, now: int): (hs: seq<(string, HeaderValue)>)
    ensures DistinctNames(hs)
    ensures forall j :: 0 <= j < |hs| ==> IsCacheHeaderName(hs[j].0)
  {
    CacheHeaderNamesDiffer();
    var maxAge := IntToDecimal(c.cacheExpire);
    match c.cacheLimiter
    case NoCache =>
      [("Expires", Text(CachePastDate)),
       ("Cache-Control", Text("no-store, no-cache, must-revalidate")),
       ("Pragma", Text("no-cache"))]
    case Public =>
      [("Expires", Date(now + c.cacheExpire)),
       ("Cache-Control", Text("public, max-age=" + maxAge)),
       ("Last-Modified", c.lastModified)]
    case Private =>
      [("Expires", Text(CachePastDate)),
       ("Cache-Control", Text("private, max-age=" + maxAge)),
       ("Last-Modified", c.lastModified)]
    case PrivateNoExpire =>
      [("Cache-Control", Text("private, max-age=" + maxAge)),
       ("Last-Modified", c.lastModified)]
  }

  /** The cache after a persist that is not a no-op. */
  function PersistedStore(c: Config, items: map<string, Entry>, s: Session, id: string): map<string, Entry> {
    (if MustRotate(s) then StoreAfterRegenerate(items, s.id) else items)[id := Entry(Arr(s.data), c.cacheExpire)]
  }

  /** The response after a persist that is not a no-op. */
  function PersistedResponse(c: Config, s: Session, response: Response, id: string, now: int): (r: Response)
    ensures r.cookies == response.cookies[c.cookieName := SessionCookie(c, id, PersistenceDuration(c, s), now)]
  {
    var withCookie := WithCookie(response, SessionCookie(c, id, PersistenceDuration(c, s), now));
    ApplyHeadersKeepsOthers(withCookie, GenerateCacheHeaders(c, now));
    if HasCacheHeaders(withCookie) then withCookie else ApplyHeaders(withCookie, GenerateCacheHeaders(c, now))
  }

  datatype Outcome = Outcome(response: Response, store: map<string, Entry>)

  /** `persistSession`: the response it returns and the cache it leaves. */
  function Persist(c: Config, items: map<string, Entry>, s: Session, response: Response,
                   entropy: seq<byte>, now: int): (o: Outcome)
    requires |entropy| == 16
    ensures IsNoOp(s) ==> o == Outcome(response, items)
    ensures !IsNoOp(s) ==>
      && FinalId(s, entropy) in o.store
      && o.store[FinalId(s, entropy)] == Entry(Arr(s.data), c.cacheExpire)
      && c.cookieName in o.response.cookies
      && o.response.cookies[c.cookieName].value == FinalId(s, entropy)
  {
    if IsNoOp(s) then Outcome(response, items)
    else
      var id := FinalId(s, entropy);
      Outcome(PersistedResponse(c, s, response, id, now), PersistedStore(c, items, s, id))
  }

  // ---------------------------------------------------------------------
  // The adapter
  // ---------------------------------------------------------------------

  class CacheSessionPersistence {
    const cache: CacheStore
    const config: Config

    /** Stores an already validated configuration; see Create. */
    constructor (cache: CacheStore, config: Config)
      requires TruthyString(config.cookieName)
      ensures this.cache == cache && this.config == config
    {
      this.cache := cache;
      this.config := config;
    }

    /** The PHP constructor: fails on an empty cookie name. */
    static method Create(
      cache: CacheStore,
      cookieName: string,
      cookieDomain: Option<string>,
      cookiePath: string,
      cookieSecure: bool,
      cookieHttpOnly: bool,
      cacheLimiter: string,
      cacheExpire: int,
      lastModified: Option<int>,
      discoveredLastModified: int,
      persistent: bool) returns (r: Result<CacheSessionPersistence, Error>)
      ensures r.Failure? <==> !TruthyString(cookieName)
      ensures r.Failure? ==> r.error.InvalidArgument?
      ensures r.Success? ==> fresh(r.value) && r.value.cache == cache
      ensures r.Success? ==> Success(r.value.config) == NewConfig(
        cookieName, cookieDomain, cookiePath, cookieSecure, cookieHttpOnly,
        cacheLimiter, cacheExpire, lastModified, discoveredLastModified, persistent)
    {
      var c := NewConfig(cookieName, cookieDomain, cookiePath, cookieSecure, cookieHttpOnly,
                         cacheLimiter, cacheExpire, lastModified, discoveredLastModified, persistent);
      match c
      case Failure(e) =>
        r := Failure(e);
      case Success(config) =>
        var p := new CacheSessionPersistence(cache, config);
        r := Success(p);
    }

    /** `getSessionDataFromCache`. */
    method GetSessionDataFromCache(id: string) returns (r: Result<Data, Error>)
      ensures r == CachedData(cache.items, id)
      ensures id !in cache.items ==> r == Success(map[])
    {
      var item := cache.GetItem(id);
      if item.None? {
        return Success(map[]);
      }
      var v := item.value;
      if !Truthy(v) {
        r := Success(map[]);
      } else if v.Arr? {
        r := Success(v.entries);
      } else {
        r := Failure(TypeError("cached session data is not an array"));
      }
    }

    /** `initializeSessionFromRequest`. */
    method InitializeSessionFromRequest(request: Request) returns (r: Result<Session, Error>)
      ensures r == InitialSession(config.cookieName, cache.items, request)
      ensures r.Success? ==> r.value.id == CookieFromRequest(config.cookieName, request)
      ensures r.Success? ==> !r.value.changed && !r.value.regenerated
    {
      var id := CookieFromRequest(config.cookieName, request);
      var data: Data := map[];
      if TruthyString(id) {
        var loaded := GetSessionDataFromCache(id);
        if loaded.Failure? {
          return Failure(loaded.error);
        }
        data := loaded.value;
      }
      r := Success(Session(id, data, false, false));
    }

    /** `regenerateSession`: drops the old entry if there is one and issues a new identifier. */
    method RegenerateSession(id: string, entropy: seq<byte>) returns (newId: string)
      requires |entropy| == 16
      modifies cache
      ensures newId == GenerateSessionId(entropy)
      ensures cache.items == StoreAfterRegenerate(old(cache.items), id)
    {
      if id != "" {
        var present := cache.HasItem(id);
        if present {
          cache.DeleteItem(id);
        }
      }
      newId := GenerateSessionId(entropy);
    }

    /** `persistSessionDataToCache`: saves the data with the configured TTL. */
    method PersistSessionDataToCache(id: string, data: Data)
      modifies cache
      ensures cache.items == old(cache.items)[id := Entry(Arr(data), config.cacheExpire)]
    {
      cache.Save(id, Arr(data), config.cacheExpire);
    }

    /**
     * `persistSession`. `entropy` is what `random_bytes(16)` returns and `now`
     * is the clock reading used for every expiry.
     */
    method PersistSession(session: Session, response: Response, entropy: seq<byte>, now: int)
      returns (result: Response)
      requires |entropy| == 16
      modifies cache
      ensures Outcome(result, cache.items) == Persist(config, old(cache.items), session, response, entropy, now)
    {
      ghost var before := cache.items;
      var id := session.id;
      if id == "" && (session.data == map[] || !session.changed) {
        return response;
      }
      if id == "" || session.regenerated || session.changed {
        id := RegenerateSession(id, entropy);
      }
      assert id == FinalId(session, entropy);
      ghost var rotated := cache.items;
      PersistSessionDataToCache(id, session.data);
      assert cache.items == PersistedStore(config, before, session, id) by {
        assert rotated == if MustRotate(session) then StoreAfterRegenerate(before, session.id) else before;
      }

      var cookie := SetCookie(config.cookieName, id, config.cookieDomain, config.cookiePath,
                              config.cookieSecure, config.cookieHttpOnly, None);
      var duration := PersistenceDuration(config, session);
      if duration != 0 {
        cookie := cookie.(expires := Some(now + duration));
      }
      assert cookie == SessionCookie(config, id, duration, now);
      result := WithCookie(response, cookie);

      if HasCacheHeaders(result) {
        return;
      }
      var headers := GenerateCacheHeaders(config, now);
      result := WithHeaders(result, headers);
    }
  }

  /** The header loop of `persistSession`: `withHeader` for each entry, in order. */
  method WithHeaders(response: Response, headers: seq<(string, HeaderValue)>) returns (result: Response)
    ensures result == ApplyHeaders(response, headers)
  {
    result := response;
    for i := 0 to |headers|
      invariant result == ApplyHeaders(response, headers[..i])
    {
      assert headers[..i + 1][..i] == headers[..i];
      result := WithHeader(result, headers[i].0, headers[i].1);
    }
    assert headers[..|headers|] == headers;
  }
}
