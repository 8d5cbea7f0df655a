/**
 * What the adapter promises, stated over the pure model of its read and
 * write paths. The class methods are proved equal to these functions, so
 * every property here holds of them too.
 */
module SessionCacheProperties {

  import opened Wrappers
  import opened Encoding
  import opened Sessions
  import opened Http
  import opened Cache
  import opened SessionCache

  predicate HasHeaderValue(r: Response, name: string, v: HeaderValue) {
    name in r.headers && r.headers[name] == v
  }

  // ---------------------------------------------------------------------
  // Construction
  // ---------------------------------------------------------------------

  /** Every limiter survives a round trip through its name. */
  lemma LimiterRoundTrip(l: CacheLimiter)
    ensures ParseCacheLimiter(LimiterName(l)) == l
  {
  }

  /** An unknown limiter configures exactly what `nocache` does, whatever the other arguments. */
  lemma UnknownLimiterIsNoCache(
    cookieName: string, cookieDomain: Option<string>, cookiePath: string, cookieSecure: bool,
    cookieHttpOnly: bool, limiter: string, cacheExpire: int, lastModified: Option<int>,
    discovered: int, persistent: bool)
    requires limiter !in SupportedCacheLimiters
    ensures NewConfig(cookieName, cookieDomain, cookiePath, cookieSecure, cookieHttpOnly, limiter,
                      cacheExpire, lastModified, discovered, persistent)
         == NewConfig(cookieName, cookieDomain, cookiePath, cookieSecure, cookieHttpOnly, "nocache",
                      cacheExpire, lastModified, discovered, persistent)
  {
  }

  // ---------------------------------------------------------------------
  // Read path
  // ---------------------------------------------------------------------

  /** A non-empty Cookie header decides the identifier; cookie parameters are not consulted. */
  lemma CookieHeaderTakesPrecedence(name: string, req: Request, params: map<string, string>)
    requires req.cookieLine != ""
    ensures CookieFromRequest(name, req.(cookieParams := params)) == CookieFromRequest(name, req)
    ensures name in req.headerCookies ==> CookieFromRequest(name, req) == req.headerCookies[name]
    ensures name !in req.headerCookies ==> CookieFromRequest(name, req) == ""
  {
  }

  /** Without a Cookie header the identifier comes from the cookie parameters, or is "". */
  lemma CookieParamsFallback(name: string, req: Request, parsed: map<string, string>)
    requires req.cookieLine == ""
    ensures CookieFromRequest(name, req.(headerCookies := parsed)) == CookieFromRequest(name, req)
    ensures name in req.cookieParams ==> CookieFromRequest(name, req) == req.cookieParams[name]
    ensures name !in req.cookieParams ==> CookieFromRequest(name, req) == ""
  {
  }

  /** The cases of the read path. */
  lemma InitialSessionCases(name: string, items: map<string, Entry>, req: Request)
    ensures var id := CookieFromRequest(name, req);
      var r := InitialSession(name, items, req);
      && (r.Success? ==> r.value.id == id && !r.value.changed && !r.value.regenerated)
      && (!TruthyString(id) ==> r == Success(Session(id, map[], false, false)))
      && (TruthyString(id) && (id !in items || !Truthy(items[id].value)) ==> r == Success(Session(id, map[], false, false)))
      && (TruthyString(id) && id in items && items[id].value.Arr? ==> r == Success(Session(id, items[id].value.entries, false, false)))
      && (r.Failure? <==> TruthyString(id) && id in items && Truthy(items[id].value) && !items[id].value.Arr?)
  {
  }

  /** A falsy identifier is answered without looking at the cache. */
  lemma FalsyIdentifierIgnoresCache(name: string, items1: map<string, Entry>, items2: map<string, Entry>, req: Request)
    requires !TruthyString(CookieFromRequest(name, req))
    ensures InitialSession(name, items1, req) == InitialSession(name, items2, req)
  {
  }

  // ---------------------------------------------------------------------
  // Write path
  // ---------------------------------------------------------------------

  /** A new session with nothing to store leaves response and cache exactly as they were. */
  lemma NoOpChangesNothing(c: Config, items: map<string, Entry>, s: Session, r: Response, e: seq<byte>, now: int)
    requires |e| == 16
    requires IsNoOp(s)
    ensures Persist(c, items, s, r, e, now) == Outcome(r, items)
  {
  }

  /** The identifier is rotated exactly when there is none, rotation was requested, or data changed. */
  lemma RotationRule(c: Config, items: map<string, Entry>, s: Session, r: Response, e: seq<byte>, now: int)
    requires |e| == 16
    requires !IsNoOp(s)
    ensures var o := Persist(c, items, s, r, e, now);
      && c.cookieName in o.response.cookies
      && (MustRotate(s) ==> o.response.cookies[c.cookieName].value == Bin2Hex(e))
      && (!MustRotate(s) ==> o.response.cookies[c.cookieName].value == s.id)
  {
    PersistedCookie(c, items, s, r, e, now);
  }

  /**
   * A rotated identifier is 32 lower-case hex characters. It differs from the
   * old one whenever the old one is not of that shape; for an old identifier
   * of that shape only the randomness keeps them apart.
   */
  lemma RotatedIdentifierIsWellFormed(s: Session, e: seq<byte>)
    requires |e| == 16
    requires MustRotate(s)
    ensures IsSessionId(FinalId(s, e))
    ensures !IsSessionId(s.id) ==> FinalId(s, e) != s.id
  {
  }

  /** Distinct random bytes give distinct identifiers. */
  lemma DistinctEntropyDistinctIds(e1: seq<byte>, e2: seq<byte>)
    requires |e1| == 16 && |e2| == 16
    requires e1 != e2
    ensures GenerateSessionId(e1) != GenerateSessionId(e2)
  {
    Bin2HexInjective(e1, e2);
  }

  /** The session cookie carries the final identifier and the configured attributes. */
  lemma PersistedCookie(c: Config, items: map<string, Entry>, s: Session, r: Response, e: seq<byte>, now: int)
    requires |e| == 16
    requires !IsNoOp(s)
    ensures var o := Persist(c, items, s, r, e, now);
      && c.cookieName in o.response.cookies
      && o.response.cookies[c.cookieName].name == c.cookieName
      && o.response.cookies[c.cookieName].value == FinalId(s, e)
      && o.response.cookies[c.cookieName].domain == c.cookieDomain
      && o.response.cookies[c.cookieName].path == c.cookiePath
      && o.response.cookies[c.cookieName].secure == c.cookieSecure
      && o.response.cookies[c.cookieName].httpOnly == c.cookieHttpOnly
      && o.response.cookies[c.cookieName].expires
         == (if PersistenceDuration(c, s) > 0 then Some(now + PersistenceDuration(c, s)) else None)
      && (forall n :: n != c.cookieName ==>
            (n in o.response.cookies <==> n in r.cookies)
            && (n in r.cookies ==> o.response.cookies[n] == r.cookies[n]))
  {
    var withCookie := WithCookie(r, SessionCookie(c, FinalId(s, e), PersistenceDuration(c, s), now));
    if !HasCacheHeaders(withCookie) {
      ApplyHeadersKeepsOthers(withCookie, GenerateCacheHeaders(c, now));
    }
  }

  /**
   * Write-through: the cookie's identifier maps in the cache to exactly the
   * session data, with the configured TTL.
   */
  lemma WriteThrough(c: Config, items: map<string, Entry>, s: Session, r: Response, e: seq<byte>, now: int)
    requires |e| == 16
    requires !IsNoOp(s)
    ensures var o := Persist(c, items, s, r, e, now);
      && c.cookieName in o.response.cookies
      && o.response.cookies[c.cookieName].value in o.store
      && o.store[o.response.cookies[c.cookieName].value] == Entry(Arr(s.data), c.cacheExpire)
  {
    PersistedCookie(c, items, s, r, e, now);
  }

  /**
   * The cache changes only at the final identifier and, on rotation, at the
   * old one, which is then gone.
   */
  lemma OnlyOldAndNewKeysChange(c: Config, items: map<string, Entry>, s: Session, r: Response, e: seq<byte>, now: int)
    requires |e| == 16
    requires !IsNoOp(s)
    ensures var o := Persist(c, items, s, r, e, now);
      var id := FinalId(s, e);
      && (forall k :: k != id && k != s.id ==> (k in o.store <==> k in items) && (k in items ==> o.store[k] == items[k]))
      && (MustRotate(s) && s.id != "" && s.id != id ==> s.id !in o.store)
      && (!MustRotate(s) ==> o.store == items[id := Entry(Arr(s.data), c.cacheExpire)])
  {
  }

  /** Persisting an unchanged session with an identifier again changes nothing in the cache. */
  lemma UnchangedSessionIsIdempotent(c: Config, items: map<string, Entry>, s: Session,
                                     r1: Response, r2: Response, e1: seq<byte>, e2: seq<byte>, now1: int, now2: int)
    requires |e1| == 16 && |e2| == 16
    requires s.id != "" && !s.changed && !s.regenerated
    ensures var o1 := Persist(c, items, s, r1, e1, now1);
      var o2 := Persist(c, o1.store, s, r2, e2, now2);
      && o2.store == o1.store
      && c.cookieName in o1.response.cookies && o1.response.cookies[c.cookieName].value == s.id
      && c.cookieName in o2.response.cookies && o2.response.cookies[c.cookieName].value == s.id
  {
    PersistedCookie(c, items, s, r1, e1, now1);
    var o1 := Persist(c, items, s, r1, e1, now1);
    PersistedCookie(c, o1.store, s, r2, e2, now2);
  }

  /**
   * Reading back with the issued cookie yields the persisted data: a request
   * whose cookie names the identifier the response's cookie carries reads
   * exactly the data that was stored.
   */
  lemma PersistThenRead(c: Config, items: map<string, Entry>, s: Session, r: Response, e: seq<byte>, now: int, req: Request)
    requires |e| == 16
    requires !IsNoOp(s)
    requires MustRotate(s) || TruthyString(s.id)
    requires CookieFromRequest(c.cookieName, req) == FinalId(s, e)
    ensures var o := Persist(c, items, s, r, e, now);
      && c.cookieName in o.response.cookies
      && o.response.cookies[c.cookieName].value == CookieFromRequest(c.cookieName, req)
      && InitialSession(c.cookieName, o.store, req) == Success(Session(FinalId(s, e), s.data, false, false))
  {
    var o := Persist(c, items, s, r, e, now);
    var id := FinalId(s, e);
    PersistedCookie(c, items, s, r, e, now);
    assert TruthyString(id) by {
      if MustRotate(s) {
        assert |id| == 32;
      }
    }
    assert o.store[id] == Entry(Arr(s.data), c.cacheExpire);
    if s.data == map[] {
      assert !Truthy(o.store[id].value);
    }
  }

  /**
   * The one exception: an unrotated id "0" is written to the cache, but a
   * request carrying it back reads empty data, since "0" is falsy.
   */
  lemma PersistThenReadUnrotatedZero(c: Config, items: map<string, Entry>, s: Session, r: Response, e: seq<byte>, now: int, req: Request)
    requires |e| == 16
    requires !MustRotate(s) && s.id == "0"
    requires CookieFromRequest(c.cookieName, req) == "0"
    ensures var o := Persist(c, items, s, r, e, now);
      && "0" in o.store && o.store["0"] == Entry(Arr(s.data), c.cacheExpire)
      && InitialSession(c.cookieName, o.store, req) == Success(Session("0", map[], false, false))
  {
  }

  // ---------------------------------------------------------------------
  // Cookie lifetime
  // ---------------------------------------------------------------------

  /** A lifetime stored in the session overrides the global persistence flag. */
  lemma LifetimeKeyOverridesPersistentFlag(c: Config, s: Session)
    requires SessionLifetimeKey in s.data
    ensures PersistenceDuration(c, s) == PersistenceDuration(c.(persistent := !c.persistent), s)
    ensures s.data[SessionLifetimeKey].Int? && s.data[SessionLifetimeKey].i > 0 ==>
      PersistenceDuration(c, s) == s.data[SessionLifetimeKey].i
    ensures s.data[SessionLifetimeKey].Int? && s.data[SessionLifetimeKey].i <= 0 ==> PersistenceDuration(c, s) == 0
  {
  }

  /** Without a stored lifetime a persistent adapter uses the cache expiry, otherwise 0. */
  lemma DurationWithoutLifetimeKey(c: Config, s: Session)
    requires SessionLifetimeKey !in s.data
    ensures PersistenceDuration(c, s) == if c.persistent && c.cacheExpire > 0 then c.cacheExpire else 0
  {
  }

  /** The cookie expires at now + duration exactly when the duration is positive. */
  lemma CookieExpiry(c: Config, items: map<string, Entry>, s: Session, r: Response, e: seq<byte>, now: int)
    requires |e| == 16
    requires !IsNoOp(s)
    ensures var o := Persist(c, items, s, r, e, now);
      && c.cookieName in o.response.cookies
      && (o.response.cookies[c.cookieName].expires.Some? <==> PersistenceDuration(c, s) > 0)
      && (PersistenceDuration(c, s) > 0 ==>
            o.response.cookies[c.cookieName].expires == Some(now + PersistenceDuration(c, s)))
  {
    PersistedCookie(c, items, s, r, e, now);
  }

  // ---------------------------------------------------------------------
  // Cache headers
  // ---------------------------------------------------------------------

  /** A response that already has a cache header keeps exactly its headers. */
  lemma ExistingCacheHeadersKept(c: Config, items: map<string, Entry>, s: Session, r: Response, e: seq<byte>, now: int)
    requires |e| == 16
    requires !IsNoOp(s)
    requires HasCacheHeaders(r)
    ensures Persist(c, items, s, r, e, now).response.headers == r.headers
  {
  }

  /**
   * Without cache headers, the response gains exactly the headers of the
   * configured limiter; no other header changes.
   */
  lemma CacheHeadersFollowLimiter(c: Config, items: map<string, Entry>, s: Session, r: Response, e: seq<byte>, now: int)
    requires |e| == 16
    requires !IsNoOp(s)
    requires !HasCacheHeaders(r)
    ensures var out := Persist(c, items, s, r, e, now).response;
      c.cacheLimiter == NoCache ==>
        && HasHeaderValue(out, "Expires", Text(CachePastDate))
        && HasHeaderValue(out, "Cache-Control", Text("no-store, no-cache, must-revalidate"))
        && HasHeaderValue(out, "Pragma", Text("no-cache"))
        && !HasHeader(out, "Last-Modified")
    ensures var out := Persist(c, items, s, r, e, now).response;
      c.cacheLimiter == Public ==>
        && HasHeaderValue(out, "Expires", Date(now + c.cacheExpire))
        && HasHeaderValue(out, "Cache-Control", Text("public, max-age=" + IntToDecimal(c.cacheExpire)))
        && HasHeaderValue(out, "Last-Modified", c.lastModified)
        && !HasHeader(out, "Pragma")
    ensures var out := Persist(c, items, s, r, e, now).response;
      c.cacheLimiter == Private ==>
        && HasHeaderValue(out, "Expires", Text(CachePastDate))
        && HasHeaderValue(out, "Cache-Control", Text("private, max-age=" + IntToDecimal(c.cacheExpire)))
        && HasHeaderValue(out, "Last-Modified", c.lastModified)
        && !HasHeader(out, "Pragma")
    ensures var out := Persist(c, items, s, r, e, now).response;
      c.cacheLimiter == PrivateNoExpire ==>
        && HasHeaderValue(out, "Cache-Control", Text("private, max-age=" + IntToDecimal(c.cacheExpire)))
        && HasHeaderValue(out, "Last-Modified", c.lastModified)
        && !HasHeader(out, "Expires")
        && !HasHeader(out, "Pragma")
    ensures var out := Persist(c, items, s, r, e, now).response;
      forall k :: !IsCacheHeaderSpelling(k) ==>
        (k in out.headers <==> k in r.headers) && (k in r.headers ==> out.headers[k] == r.headers[k])
    ensures var out := Persist(c, items, s, r, e, now).response;
      forall k :: k in out.headers && IsCacheHeaderSpelling(k) <==>
        exists j :: 0 <= j < |GenerateCacheHeaders(c, now)| && k == GenerateCacheHeaders(c, now)[j].0
  {
    var withCookie := WithCookie(r, SessionCookie(c, FinalId(s, e), PersistenceDuration(c, s), now));
    assert !HasCacheHeaders(withCookie);
    assert Persist(c, items, s, r, e, now).response == ApplyHeaders(withCookie, GenerateCacheHeaders(c, now));
    LimiterTable(c, now, withCookie);
  }

  /** The limiter table, applied to a response without cache headers. */
  lemma LimiterTable(c: Config, now: int, w: Response)
    requires !HasCacheHeaders(w)
    ensures var out := ApplyHeaders(w, GenerateCacheHeaders(c, now));
      c.cacheLimiter == NoCache ==>
        && HasHeaderValue(out, "Expires", Text(CachePastDate))
        && HasHeaderValue(out, "Cache-Control", Text("no-store, no-cache, must-revalidate"))
        && HasHeaderValue(out, "Pragma", Text("no-cache"))
        && !HasHeader(out, "Last-Modified")
    ensures var out := ApplyHeaders(w, GenerateCacheHeaders(c, now));
      c.cacheLimiter == Public ==>
        && HasHeaderValue(out, "Expires", Date(now + c.cacheExpire))
        && HasHeaderValue(out, "Cache-Control", Text("public, max-age=" + IntToDecimal(c.cacheExpire)))
        && HasHeaderValue(out, "Last-Modified", c.lastModified)
        && !HasHeader(out, "Pragma")
    ensures var out := ApplyHeaders(w, GenerateCacheHeaders(c, now));
      c.cacheLimiter == Private ==>
        && HasHeaderValue(out, "Expires", Text(CachePastDate))
        && HasHeaderValue(out, "Cache-Control", Text("private, max-age=" + IntToDecimal(c.cacheExpire)))
        && HasHeaderValue(out, "Last-Modified", c.lastModified)
        && !HasHeader(out, "Pragma")
    ensures var out := ApplyHeaders(w, GenerateCacheHeaders(c, now));
      c.cacheLimiter == PrivateNoExpire ==>
        && HasHeaderValue(out, "Cache-Control", Text("private, max-age=" + IntToDecimal(c.cacheExpire)))
        && HasHeaderValue(out, "Last-Modified", c.lastModified)
        && !HasHeader(out, "Expires")
        && !HasHeader(out, "Pragma")
    ensures var out := ApplyHeaders(w, GenerateCacheHeaders(c, now));
      forall k :: !IsCacheHeaderSpelling(k) ==>
        (k in out.headers <==> k in w.headers) && (k in w.headers ==> out.headers[k] == w.headers[k])
    ensures var out := ApplyHeaders(w, GenerateCacheHeaders(c, now));
      forall k :: k in out.headers && IsCacheHeaderSpelling(k) <==>
        exists j :: 0 <= j < |GenerateCacheHeaders(c, now)| && k == GenerateCacheHeaders(c, now)[j].0
  {
    UnrelatedHeadersKept(c, now, w);
    CacheHeaderKeysListed(c, now, w);
    match c.cacheLimiter
    case NoCache => NoCacheTable(c, now, w);
    case Public => PublicTable(c, now, w);
    case Private => PrivateTable(c, now, w);
    case PrivateNoExpire => PrivateNoExpireTable(c, now, w);
  }

  /** The only cache-header keys afterwards are the names the limiter's row lists. */
  lemma CacheHeaderKeysListed(c: Config, now: int, w: Response)
    requires !HasCacheHeaders(w)
    ensures var out := ApplyHeaders(w, GenerateCacheHeaders(c, now));
      forall k :: k in out.headers && IsCacheHeaderSpelling(k) <==>
        exists j :: 0 <= j < |GenerateCacheHeaders(c, now)| && k == GenerateCacheHeaders(c, now)[j].0
  {
    var hs := GenerateCacheHeaders(c, now);
    ApplyHeadersAddsOnlyListed(w, hs);
    ApplyHeadersSetsEach(w, hs);
    forall j | 0 <= j < |hs|
      ensures IsCacheHeaderSpelling(hs[j].0)
    {
      assert IsCacheHeaderName(hs[j].0);
    }
  }

  lemma UnrelatedHeadersKept(c: Config, now: int, w: Response)
    ensures var out := ApplyHeaders(w, GenerateCacheHeaders(c, now));
      forall k :: !IsCacheHeaderSpelling(k) ==>
        (k in out.headers <==> k in w.headers) && (k in w.headers ==> out.headers[k] == w.headers[k])
  {
    var hs := GenerateCacheHeaders(c, now);
    ApplyHeadersKeepsOthers(w, hs);
    forall k | NamedIn(k, hs)
      ensures IsCacheHeaderSpelling(k)
    {
      var j :| 0 <= j < |hs| && SameName(k, hs[j].0);
      assert IsCacheHeaderName(hs[j].0);
    }
  }

  lemma NoCacheTable(c: Config, now: int, w: Response)
    requires c.cacheLimiter == NoCache
    requires !HasCacheHeaders(w)
    ensures var out := ApplyHeaders(w, GenerateCacheHeaders(c, now));
      && HasHeaderValue(out, "Expires", Text(CachePastDate))
      && HasHeaderValue(out, "Cache-Control", Text("no-store, no-cache, must-revalidate"))
      && HasHeaderValue(out, "Pragma", Text("no-cache"))
      && !HasHeader(out, "Last-Modified")
  {
    var hs := GenerateCacheHeaders(c, now);
    ApplyHeadersSetsEach(w, hs);
    ApplyHeadersPresence(w, hs);
    CacheHeaderNamesDiffer();
    assert hs[0].0 == "Expires" && hs[1].0 == "Cache-Control" && hs[2].0 == "Pragma";
    assert !NamedIn("Last-Modified", hs);
  }

  lemma PublicTable(c: Config, now: int, w: Response)
    requires c.cacheLimiter == Public
    requires !HasCacheHeaders(w)
    ensures var out := ApplyHeaders(w, GenerateCacheHeaders(c, now));
      && HasHeaderValue(out, "Expires", Date(now + c.cacheExpire))
      && HasHeaderValue(out, "Cache-Control", Text("public, max-age=" + IntToDecimal(c.cacheExpire)))
      && HasHeaderValue(out, "Last-Modified", c.lastModified)
      && !HasHeader(out, "Pragma")
  {
    var hs := GenerateCacheHeaders(c, now);
    ApplyHeadersSetsEach(w, hs);
    ApplyHeadersPresence(w, hs);
    CacheHeaderNamesDiffer();
    assert hs[0].0 == "Expires" && hs[1].0 == "Cache-Control" && hs[2].0 == "Last-Modified";
    assert !NamedIn("Pragma", hs);
  }

  lemma PrivateTable(c: Config, now: int, w: Response)
    requires c.cacheLimiter == Private
    requires !HasCacheHeaders(w)
    ensures var out := ApplyHeaders(w, GenerateCacheHeaders(c, now));
      && HasHeaderValue(out, "Expires", Text(CachePastDate))
      && HasHeaderValue(out, "Cache-Control", Text("private, max-age=" + IntToDecimal(c.cacheExpire)))
      && HasHeaderValue(out, "Last-Modified", c.lastModified)
      && !HasHeader(out, "Pragma")
  {
    var hs := GenerateCacheHeaders(c, now);
    ApplyHeadersSetsEach(w, hs);
    ApplyHeadersPresence(w, hs);
    CacheHeaderNamesDiffer();
    assert hs[0].0 == "Expires" && hs[1].0 == "Cache-Control" && hs[2].0 == "Last-Modified";
    assert !NamedIn("Pragma", hs);
  }

  lemma PrivateNoExpireTable(c: Config, now: int, w: Response)
    requires c.cacheLimiter == PrivateNoExpire
    requires !HasCacheHeaders(w)
    ensures var out := ApplyHeaders(w, GenerateCacheHeaders(c, now));
      && HasHeaderValue(out, "Cache-Control", Text("private, max-age=" + IntToDecimal(c.cacheExpire)))
      && HasHeaderValue(out, "Last-Modified", c.lastModified)
      && !HasHeader(out, "Expires")
      && !HasHeader(out, "Pragma")
  {
    var hs := GenerateCacheHeaders(c, now);
    ApplyHeadersSetsEach(w, hs);
    ApplyHeadersPresence(w, hs);
    CacheHeaderNamesDiffer();
    assert hs[0].0 == "Cache-Control" && hs[1].0 == "Last-Modified";
    assert !NamedIn("Expires", hs);
    assert !NamedIn("Pragma", hs);
  }
}
