/**
 * How `request` in src/lib/api-client.js turns the caller's options into the
 * descriptor handed to the transport: the URL is completed against the base
 * URL, missing or falsy fields get their defaults, and `requestInterceptor`
 * adds the stored token and the JSON content type. The stored token is a
 * parameter; the empty string stands for a missing (falsy) token.
 */
module RequestConfig {
  import opened Wrappers
  import Lib

  type Headers = map<string, string>
  /** The request payload, kept abstract as string fields. */
  type Payload = map<string, string>

  /** Default timeout in milliseconds. */
  const TIMEOUT: int := 30000
  const DEFAULT_METHOD: string := "GET"
  const DEFAULT_DATA_TYPE: string := "json"
  const AUTHORIZATION: string := "Authorization"
  const CONTENT_TYPE: string := "Content-Type"
  const JSON_CONTENT: string := "application/json"

  /** What a caller passes to `request`; `None` is a field that is absent. */
  datatype Options = Options(
    url: string,
    httpMethod: Option<string>,
    data: Option<Payload>,
    header: Option<Headers>,
    timeout: Option<int>,
    dataType: Option<string>)

  /** The descriptor `request` builds and the interceptor completes. */
  datatype Config = Config(
    url: string,
    httpMethod: string,
    data: Payload,
    header: Headers,
    timeout: int,
    dataType: string)

  /** A string option that JavaScript's `||` keeps: present and not empty. */
  predicate Truthy(s: Option<string>) {
    s.Some? && s.value != ""
  }

  /** `s || fallback` on an optional string. */
  function OrDefault(s: Option<string>, fallback: string): (r: string)
    ensures Truthy(s) ==> r == s.value
    ensures !Truthy(s) ==> r == fallback
  {
    if Truthy(s) then s.value else fallback
  }

  /** `options.timeout || TIMEOUT`: absent and 0 are both falsy. */
  function TimeoutOrDefault(t: Option<int>): (r: int)
    ensures r != 0
    ensures t.Some? && t.value != 0 ==> r == t.value
    ensures t.None? || t.value == 0 ==> r == TIMEOUT
  {
    if t.Some? && t.value != 0 then t.value else TIMEOUT
  }

  /** The config assembled at the start of `request`, before the interceptor runs. */
  function BuildConfig(o: Options): (c: Config)
    ensures c.url == Lib.ResolveResourceURL(o.url)
    ensures Truthy(o.httpMethod) ==> c.httpMethod == o.httpMethod.value
    ensures !Truthy(o.httpMethod) ==> c.httpMethod == DEFAULT_METHOD
    ensures o.data.Some? ==> c.data == o.data.value
    ensures o.data.None? ==> c.data == map[]
    ensures o.header.Some? ==> c.header == o.header.value
    ensures o.header.None? ==> c.header == map[]
    ensures c.timeout == (if o.timeout.Some? && o.timeout.value != 0 then o.timeout.value else TIMEOUT)
    ensures Truthy(o.dataType) ==> c.dataType == o.dataType.value
    ensures !Truthy(o.dataType) ==> c.dataType == DEFAULT_DATA_TYPE
    ensures Normalized(c)
  {
    Config(
      Lib.ResolveResourceURL(o.url),
      OrDefault(o.httpMethod, DEFAULT_METHOD),
      if o.data.Some? then o.data.value else map[],
      if o.header.Some? then o.header.value else map[],
      TimeoutOrDefault(o.timeout),
      OrDefault(o.dataType, DEFAULT_DATA_TYPE))
  }

  /** What every built config satisfies: an absolute URL and no falsy field left. */
  predicate Normalized(c: Config) {
    "http" <= c.url && c.httpMethod != "" && c.timeout != 0 && c.dataType != ""
  }

  /**
   * A config passed back to `request` as its options, as the retry path does.
   * A normalized config comes out of `request`'s construction unchanged.
   */
  function AsOptions(c: Config): (o: Options)
    ensures Normalized(c) ==> BuildConfig(o) == c
  {
    Options(c.url, Some(c.httpMethod), Some(c.data), Some(c.header), Some(c.timeout), Some(c.dataType))
  }

  /** Building is idempotent: re-issuing a built config reproduces it. */
  lemma BuildConfigIdempotent(o: Options)
    ensures BuildConfig(AsOptions(BuildConfig(o))) == BuildConfig(o)
  {
    assert Normalized(BuildConfig(o));
  }

  /** Methods for which the interceptor marks the body as JSON. The comparison is case-sensitive. */
  predicate SendsJson(httpMethod: string) {
    httpMethod != "GET" && httpMethod != "DELETE"
  }

  /** `k` is absent from both maps or present in both with one value. */
  predicate SameAt(a: Headers, b: Headers, k: string) {
    (k in a <==> k in b) && (k in a ==> a[k] == b[k])
  }

  /**
   * `requestInterceptor`: a non-empty token is written to `Authorization`,
   * overriding what the caller supplied; a method other than GET and DELETE
   * gets `Content-Type: application/json`. Nothing else changes.
   */
  function Intercept(c: Config, token: string): (r: Config)
    ensures r.url == c.url && r.httpMethod == c.httpMethod && r.data == c.data
    ensures r.timeout == c.timeout && r.dataType == c.dataType
    ensures token != "" ==> AUTHORIZATION in r.header && r.header[AUTHORIZATION] == token
    ensures token == "" ==> SameAt(c.header, r.header, AUTHORIZATION)
    ensures SendsJson(c.httpMethod) ==> CONTENT_TYPE in r.header && r.header[CONTENT_TYPE] == JSON_CONTENT
    ensures !SendsJson(c.httpMethod) ==> SameAt(c.header, r.header, CONTENT_TYPE)
    ensures forall k :: k != AUTHORIZATION && k != CONTENT_TYPE ==> SameAt(c.header, r.header, k)
    ensures r.header.Keys == c.header.Keys
                             + (if token != "" then {AUTHORIZATION} else {})
                             + (if SendsJson(c.httpMethod) then {CONTENT_TYPE} else {})
  {
    var authorized := if token != "" then c.(header := c.header[AUTHORIZATION := token]) else c;
    if SendsJson(authorized.httpMethod) then
      authorized.(header := authorized.header[CONTENT_TYPE := JSON_CONTENT])
    else
      authorized
  }

  /** Running the interceptor twice with one token is the same as running it once. */
  lemma InterceptIdempotent(c: Config, token: string)
    ensures Intercept(Intercept(c, token), token) == Intercept(c, token)
  {
    var once := Intercept(c, token);
    var twice := Intercept(once, token);
    assert twice.header == once.header by {
      forall k | k in twice.header ensures k in once.header && twice.header[k] == once.header[k] {
        assert SameAt(once.header, twice.header, k);
      }
    }
  }

  /** The descriptor `request` hands to the transport: `requestInterceptor(config)`. */
  function Prepare(o: Options, token: string): (c: Config)
    ensures Normalized(c)
    ensures c.url == Lib.ResolveResourceURL(o.url)
    ensures token != "" ==> AUTHORIZATION in c.header && c.header[AUTHORIZATION] == token
    ensures SendsJson(c.httpMethod) ==> CONTENT_TYPE in c.header && c.header[CONTENT_TYPE] == JSON_CONTENT
    ensures c.(header := BuildConfig(o).header) == BuildConfig(o)
    ensures token == "" ==> SameAt(BuildConfig(o).header, c.header, AUTHORIZATION)
    ensures !SendsJson(c.httpMethod) ==> SameAt(BuildConfig(o).header, c.header, CONTENT_TYPE)
    ensures forall k :: k != AUTHORIZATION && k != CONTENT_TYPE ==> SameAt(BuildConfig(o).header, c.header, k)
  {
    var built := BuildConfig(o);
    Intercept(built, token)
  }

  /** `config.header.Authorization = token`, the write the retry path makes in place. */
  function Authorize(c: Config, token: string): (r: Config)
    ensures r.(header := c.header) == c
    ensures AUTHORIZATION in r.header && r.header[AUTHORIZATION] == token
    ensures forall k :: k != AUTHORIZATION ==> SameAt(c.header, r.header, k)
  {
    c.(header := c.header[AUTHORIZATION := token])
  }

  /** The header of a retried request: the first header, then the token written over it. */
  lemma RetriedHeader(built: Config, oldToken: string, newToken: string)
    requires newToken != ""
    ensures Intercept(Authorize(Intercept(built, oldToken), newToken), newToken).header
         == Intercept(built, newToken).header
  {
    var first := Intercept(built, oldToken);
    var marked := Authorize(first, newToken);
    assert marked.header == first.header[AUTHORIZATION := newToken];
    var retried := Intercept(marked, newToken).header;
    var direct := Intercept(built, newToken).header;
    assert retried.Keys == direct.Keys;
    forall k | k in retried ensures retried[k] == direct[k] {
      if k != AUTHORIZATION && k != CONTENT_TYPE {
        assert SameAt(marked.header, Intercept(marked, newToken).header, k);
        assert SameAt(first.header, marked.header, k);
        assert SameAt(built.header, first.header, k);
        assert SameAt(built.header, direct, k);
      }
    }
  }

  /**
   * A request retried after a refresh is the request the caller would have made
   * with the new token: writing the token into the old descriptor and passing it
   * back through `request` (which reads the freshly stored token) gives exactly
   * the descriptor built from the original options and the new token.
   */
  lemma RetryMatchesFreshRequest(o: Options, oldToken: string, newToken: string)
    requires newToken != ""
    ensures Prepare(AsOptions(Authorize(Prepare(o, oldToken), newToken)), newToken) == Prepare(o, newToken)
  {
    var built := BuildConfig(o);
    var marked := Authorize(Intercept(built, oldToken), newToken);
    assert BuildConfig(AsOptions(marked)) == marked;
    RetriedHeader(built, oldToken, newToken);
  }
}
