/**
 * The slice of PSR-7 messages and of the cookie library that the adapter
 * uses. Messages are immutable values: every change yields a new value.
 * Header names compare case-insensitively, as `hasHeader` and `withHeader`
 * do; an HTTP-date header value is kept as the timestamp it renders.
 */
module Http {

  import opened Wrappers

  /** A header value: literal text, or the HTTP-date rendering of a Unix timestamp. */
  datatype HeaderValue = Text(text: string) | Date(timestamp: int)

  /** A structured Set-Cookie (section 4.1 of RFC 6265); `expires` is a Unix timestamp. */
  datatype SetCookie = SetCookie(
    name: string,
    value: string,
    domain: Option<string>,
    path: string,
    secure: bool,
    httpOnly: bool,
    expires: Option<int>)

  /** A response: its headers and its Set-Cookie entries, one per cookie name. */
  datatype Response = Response(headers: map<string, HeaderValue>, cookies: map<string, SetCookie>)

  /**
   * What the adapter reads of a request: the raw `Cookie` header line, the
   * cookies parsed out of that line, and the server's pre-parsed cookie
   * parameters.
   */
  datatype Request = Request(
    cookieLine: string,
    headerCookies: map<string, string>,
    cookieParams: map<string, string>)

  function ToLower(c: char): char {
    if 'A' <= c <= 'Z' then (c as int + 32) as char else c
  }

  function Lower(s: string): (r: string)
    ensures |r| == |s|
    ensures forall i :: 0 <= i < |s| ==> r[i] == ToLower(s[i])
  {
    seq(|s|, i requires 0 <= i < |s| => ToLower(s[i]))
  }

  /** Two header names denote the same header. */
  predicate SameName(a: string, b: string) {
    Lower(a) == Lower(b)
  }

  /** `hasHeader`. */
  predicate HasHeader(r: Response, name: string) {
    exists k :: k in r.headers && SameName(k, name)
  }

  /** `withHeader`: replaces every spelling of `name` by `name: value`. */
  function WithHeader(r: Response, name: string, value: HeaderValue): (r': Response)
    ensures name in r'.headers && r'.headers[name] == value
    ensures forall k :: k in r'.headers && k != name ==> !SameName(k, name)
    ensures forall k :: !SameName(k, name) ==>
      (k in r'.headers <==> k in r.headers) && (k in r.headers ==> r'.headers[k] == r.headers[k])
    ensures r'.cookies == r.cookies
  {
    r.(headers := (map k | k in r.headers && !SameName(k, name) :: r.headers[k])[name := value])
  }

  /** `FigResponseCookies::set`: the cookie replaces any cookie of the same name. */
  function WithCookie(r: Response, c: SetCookie): (r': Response)
    ensures c.name in r'.cookies && r'.cookies[c.name] == c
    ensures forall n :: n != c.name ==>
      (n in r'.cookies <==> n in r.cookies) && (n in r.cookies ==> r'.cookies[n] == r.cookies[n])
    ensures r'.headers == r.headers
  {
    r.(cookies := r.cookies[c.name := c])
  }

  /** No two entries of a header list name the same header. */
  predicate DistinctNames(hs: seq<(string, HeaderValue)>) {
    forall i, j :: 0 <= i < j < |hs| ==> !SameName(hs[i].0, hs[j].0)
  }

  /** Some entry of the list names the same header as `k`. */
  predicate NamedIn(k: string, hs: seq<(string, HeaderValue)>) {
    exists j :: 0 <= j < |hs| && SameName(k, hs[j].0)
  }

  /** `withHeader` applied to each entry of `hs` in order. */
  function ApplyHeaders(r: Response, hs: seq<(string, HeaderValue)>): Response {
    if hs == [] then r
    else WithHeader(ApplyHeaders(r, hs[..|hs| - 1]), hs[|hs| - 1].0, hs[|hs| - 1].1)
  }

  /** Applying a list of distinct headers sets each of them. */
  lemma {:induction false} ApplyHeadersSetsEach(r: Response, hs: seq<(string, HeaderValue)>)
    requires DistinctNames(hs)
    ensures forall j :: 0 <= j < |hs| ==>
      hs[j].0 in ApplyHeaders(r, hs).headers && ApplyHeaders(r, hs).headers[hs[j].0] == hs[j].1
  {
    if hs != [] {
      var init, last := hs[..|hs| - 1], hs[|hs| - 1];
      assert DistinctNames(init);
      ApplyHeadersSetsEach(r, init);
      forall j | 0 <= j < |hs| - 1
        ensures !SameName(hs[j].0, last.0) && init[j] == hs[j]
      {
      }
    }
  }

  /** Applying a list of headers keeps every header it does not name, and every cookie. */
  lemma {:induction false} ApplyHeadersKeepsOthers(r: Response, hs: seq<(string, HeaderValue)>)
    ensures forall k :: !NamedIn(k, hs) ==>
      (k in ApplyHeaders(r, hs).headers <==> k in r.headers)
      && (k in r.headers ==> ApplyHeaders(r, hs).headers[k] == r.headers[k])
    ensures ApplyHeaders(r, hs).cookies == r.cookies
  {
    if hs != [] {
      var init, last := hs[..|hs| - 1], hs[|hs| - 1];
      ApplyHeadersKeepsOthers(r, init);
      assert forall j :: 0 <= j < |init| ==> init[j] == hs[j];
      forall k | !NamedIn(k, hs)
        ensures !NamedIn(k, init) && !SameName(k, last.0)
      {
      }
    }
  }

  /** After applying a list of headers, a header is present iff the list names it or it was present. */
  lemma {:induction false} ApplyHeadersPresence(r: Response, hs: seq<(string, HeaderValue)>)
    ensures forall n :: HasHeader(ApplyHeaders(r, hs), n) <==> NamedIn(n, hs) || HasHeader(r, n)
  {
    if hs != [] {
      var init, last := hs[..|hs| - 1], hs[|hs| - 1];
      ApplyHeadersPresence(r, init);
      assert forall j :: 0 <= j < |init| ==> init[j] == hs[j];
      var mid := ApplyHeaders(r, init);
      var out := WithHeader(mid, last.0, last.1);
      forall n
        ensures HasHeader(out, n) <==> NamedIn(n, hs) || HasHeader(r, n)
      {
        if SameName(n, last.0) {
          assert SameName(n, hs[|hs| - 1].0);
          assert last.0 in out.headers && SameName(last.0, n);
        } else if HasHeader(mid, n) {
          var k :| k in mid.headers && SameName(k, n);
          assert !SameName(k, last.0);
          assert k in out.headers;
        }
      }
    }
  }

  /** Applying a list of headers adds no key but the names it lists. */
  lemma {:induction false} ApplyHeadersAddsOnlyListed(r: Response, hs: seq<(string, HeaderValue)>)
    ensures forall k :: k in ApplyHeaders(r, hs).headers ==>
      k in r.headers || exists j :: 0 <= j < |hs| && k == hs[j].0
  {
    if hs != [] {
      var init, last := hs[..|hs| - 1], hs[|hs| - 1];
      ApplyHeadersAddsOnlyListed(r, init);
      assert forall j :: 0 <= j < |init| ==> init[j] == hs[j];
      forall k | k in ApplyHeaders(r, hs).headers
        ensures k in r.headers || exists j :: 0 <= j < |hs| && k == hs[j].0
      {
        if k == last.0 {
          assert k == hs[|hs| - 1].0;
        } else {
          assert k in ApplyHeaders(r, init).headers;
        }
      }
    }
  }
}
