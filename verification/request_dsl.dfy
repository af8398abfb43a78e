/**
  The request half of an HTTP contract: a builder of optional fields, each setter
  replacing its own field, and `get()` copying the fields that were set into a fresh
  `Request`. Also holds the matching-strategy factories and the request-side header and
  cookie `matching` override, which reads a plain string as "starts with this text" on
  the consumer side and as the literal on the producer side.
 */
module RequestDsl {

  import opened Nullable
  import opened Values
  import ValueSpec
  import opened Bodies
  import opened HeaderCookieDsl

  /** `HttpMethod`, each constant mapped onto the same-named `HttpMethods.HttpMethod`. */
  datatype HttpMethod = GET | POST | PUT | PATCH | DELETE | OPTIONS | TRACE

  /** The `name` of the mapped `HttpMethods.HttpMethod` constant; the name identifies the method. */
  function MethodName(m: HttpMethod): (r: string)
    ensures MethodNamed(r) == Some(m)
  {
    match m
    case GET => "GET"
    case POST => "POST"
    case PUT => "PUT"
    case PATCH => "PATCH"
    case DELETE => "DELETE"
    case OPTIONS => "OPTIONS"
    case TRACE => "TRACE"
  }

  /** The method whose name is `name`, if any: the inverse of `MethodName`. */
  function MethodNamed(name: string): Option<HttpMethod> {
    if name == "GET" then Some(GET)
    else if name == "POST" then Some(POST)
    else if name == "PUT" then Some(PUT)
    else if name == "PATCH" then Some(PATCH)
    else if name == "DELETE" then Some(DELETE)
    else if name == "OPTIONS" then Some(OPTIONS)
    else if name == "TRACE" then Some(TRACE)
    else None
  }

  /** Reading a method back from a name gives a method with that name. */
  lemma MethodNamedRoundTrip(name: string)
    ensures MethodNamed(name).Some? ==> MethodName(MethodNamed(name).value) == name
  {
  }

  /** `Url(url)`: the string or property the URL was given as. */
  datatype Url = Url(value: Value)

  /** Built by a `QueryParameters` block; the class is not part of this model. */
  datatype QueryParameters = QueryParameters(parameters: seq<(string, Value)>)

  datatype UrlPath = UrlPath(path: string, queryParameters: Option<QueryParameters>)

  /** The Java `Request` the builder fills in; `null` fields are `None`. */
  datatype Request = Request(
    httpMethod: Option<DslProperty>,
    url: Option<Url>,
    urlPath: Option<UrlPath>,
    headers: Option<Headers>,
    cookies: Option<Cookies>,
    body: Option<Body>,
    multipart: Option<Multipart>,
    bodyMatchers: Option<BodyMatchers>)

  /** `Request()`: every field unset. */
  const DefaultRequest := Request(None, None, None, None, None, None, None, None)

  /** The state of a `RequestDsl`: every field starts out `null`. */
  datatype RequestDsl = RequestDsl(
    httpMethod: Option<HttpMethod>,
    url: Option<Url>,
    urlPath: Option<UrlPath>,
    headers: Option<Headers>,
    cookies: Option<Cookies>,
    body: Option<Body>,
    multipart: Option<Multipart>,
    bodyMatchers: Option<BodyMatchers>)

  /** `RequestDsl()`. */
  const Fresh := RequestDsl(None, None, None, None, None, None, None, None)

  /** Assigning the `method` property. */
  function SetMethod(d: RequestDsl, httpMethod: Option<HttpMethod>): (r: RequestDsl)
    ensures r.httpMethod == httpMethod
    ensures r == d.(httpMethod := r.httpMethod)
  {
    d.(httpMethod := httpMethod)
  }

  /** `url(String)`. */
  function SetUrl(d: RequestDsl, url: string): (r: RequestDsl)
    ensures r.url == Some(Url(Text(url)))
    ensures r == d.(url := r.url)
  {
    d.(url := Some(Url(Text(url))))
  }

  /** `url(DslProperty)`. */
  function SetUrlProperty(d: RequestDsl, url: DslProperty): (r: RequestDsl)
    ensures r.url == Some(Url(Property(url)))
    ensures r == d.(url := r.url)
  {
    d.(url := Some(Url(Property(url))))
  }

  /**
    `url(client, server)`: the URL is the dual-sided property `value.client(client).server(server)`,
    whose client side is the whole client property and whose server side the whole server one.
   */
  function SetUrlClientServer(d: RequestDsl, client: DslProperty, server: DslProperty): (r: RequestDsl)
    ensures r.url.Some? && r.url.value.value.Property?
    ensures r.url.value.value.property.Dual?
    ensures r.url.value.value.property.ClientValue() == Property(client)
    ensures r.url.value.value.property.ServerValue() == Property(server)
    ensures r == d.(url := r.url)
  {
    d.(url := Some(Url(Property(ValueSpec.ClientSpecServer(ValueSpec.Client(Property(client)), Property(server))))))
  }

  /** `urlPath(path)`: a path without query parameters. */
  function SetUrlPath(d: RequestDsl, path: string): (r: RequestDsl)
    ensures r.urlPath.Some? && r.urlPath.value.path == path
    ensures r.urlPath.value.queryParameters.None?
    ensures r == d.(urlPath := r.urlPath)
  {
    d.(urlPath := Some(UrlPath(path, None)))
  }

  /** `urlPath(path) { parameters }`: the block is applied once to empty query parameters. */
  function SetUrlPathWithParameters(d: RequestDsl, path: string, parameters: QueryParameters -> QueryParameters): (r: RequestDsl)
    ensures r.urlPath.Some? && r.urlPath.value.path == path
    ensures r.urlPath.value.queryParameters == Some(parameters(QueryParameters([])))
    ensures r == d.(urlPath := r.urlPath)
  {
    var urlPath := UrlPath(path, None);
    d.(urlPath := Some(urlPath.(queryParameters := Some(parameters(QueryParameters([]))))))
  }

  /** `headers { }`: the block runs on a fresh builder that uses the request-side `matching`. */
  function SetHeaders(d: RequestDsl, escape: string -> string, headers: HeadersDsl -> HeadersDsl): (r: RequestDsl)
    ensures r.headers == Some(GetHeaders(headers(NewHeadersDsl(v => RequestHeadersMatching(escape, v)))))
    ensures r == d.(headers := r.headers)
  {
    d.(headers := Some(GetHeaders(headers(NewHeadersDsl(v => RequestHeadersMatching(escape, v))))))
  }

  /** `cookies { }`: the block runs on a fresh builder that uses the request-side `matching`. */
  function SetCookies(d: RequestDsl, escape: string -> string, cookies: CookiesDsl -> CookiesDsl): (r: RequestDsl)
    ensures r.cookies == Some(GetCookies(cookies(NewCookiesDsl(v => RequestCookiesMatching(escape, v)))))
    ensures r == d.(cookies := r.cookies)
  {
    d.(cookies := Some(GetCookies(cookies(NewCookiesDsl(v => RequestCookiesMatching(escape, v))))))
  }

  /** `body(map)`. */
  function SetBodyMap(d: RequestDsl, body: LinkedMap): (r: RequestDsl)
    ensures r.body == Some(FromMapBody(body))
    ensures r == d.(body := r.body)
  {
    d.(body := Some(FromMapBody(body)))
  }

  /** `body(vararg pairs)`. */
  function SetBodyPairs(d: RequestDsl, body: seq<(string, Value)>): (r: RequestDsl)
    ensures r.body == Some(FromPairsBody(body))
    ensures r == d.(body := r.body)
  {
    d.(body := Some(FromPairsBody(body)))
  }

  /** `body(pair)`. */
  function SetBodyPair(d: RequestDsl, body: (string, Value)): (r: RequestDsl)
    ensures r.body == Some(FromPairBody(body))
    ensures r == d.(body := r.body)
  {
    d.(body := Some(FromPairBody(body)))
  }

  /** `body(list)`. */
  function SetBodyList(d: RequestDsl, body: seq<Value>): (r: RequestDsl)
    ensures r.body == Some(FromListBody(body))
    ensures r == d.(body := r.body)
  {
    d.(body := Some(FromListBody(body)))
  }

  /** `body(any)`. */
  function SetBodyValue(d: RequestDsl, body: Value): (r: RequestDsl)
    ensures r.body == Some(FromValueBody(body))
    ensures r == d.(body := r.body)
  {
    d.(body := Some(FromValueBody(body)))
  }

  /** `multipart { }`, given the multipart the block built. */
  function SetMultipart(d: RequestDsl, multipart: Multipart): (r: RequestDsl)
    ensures r.multipart == Some(multipart)
    ensures r == d.(multipart := r.multipart)
  {
    d.(multipart := Some(multipart))
  }

  /** `bodyMatchers { }`, given the matchers the block built. */
  function SetBodyMatchers(d: RequestDsl, bodyMatchers: BodyMatchers): (r: RequestDsl)
    ensures r.bodyMatchers == Some(bodyMatchers)
    ensures r == d.(bodyMatchers := r.bodyMatchers)
  {
    d.(bodyMatchers := Some(bodyMatchers))
  }

  // Matching-strategy factories: the argument unchanged, paired with a fixed type.

  function EqualTo(value: Value): (r: MatchingStrategy)
    ensures r.value == value && r.kind == EQUAL_TO
  {
    MatchingStrategy(value, EQUAL_TO)
  }

  function Containing(value: Value): (r: MatchingStrategy)
    ensures r.value == value && r.kind == CONTAINS
  {
    MatchingStrategy(value, CONTAINS)
  }

  function Matching(value: Value): (r: MatchingStrategy)
    ensures r.value == value && r.kind == MATCHING
  {
    MatchingStrategy(value, MATCHING)
  }

  function NotMatching(value: Value): (r: MatchingStrategy)
    ensures r.value == value && r.kind == NOT_MATCHING
  {
    MatchingStrategy(value, NOT_MATCHING)
  }

  function EqualToXml(value: Value): (r: MatchingStrategy)
    ensures r.value == value && r.kind == EQUAL_TO_XML
  {
    MatchingStrategy(value, EQUAL_TO_XML)
  }

  function EqualToJson(value: Value): (r: MatchingStrategy)
    ensures r.value == value && r.kind == EQUAL_TO_JSON
  {
    MatchingStrategy(value, EQUAL_TO_JSON)
  }

  /** `absent()`: no argument; the value is the sentinel `true`. */
  function Absent(): (r: MatchingStrategy)
    ensures r.kind == ABSENT && r.value == Flag(true)
  {
    MatchingStrategy(Flag(true), ABSENT)
  }

  /** The factory for each type; `absent()` takes no argument, so `value` is not used for it. */
  function StrategyFor(kind: MatchingType, value: Value): MatchingStrategy {
    match kind
    case EQUAL_TO => EqualTo(value)
    case CONTAINS => Containing(value)
    case MATCHING => Matching(value)
    case NOT_MATCHING => NotMatching(value)
    case EQUAL_TO_XML => EqualToXml(value)
    case EQUAL_TO_JSON => EqualToJson(value)
    case ABSENT => Absent()
  }

  /** Every factory yields its own type, every factory but `absent()` keeps its argument, and `absent()` is always `(true, ABSENT)`. */
  lemma StrategyFactoriesFaithful(kind: MatchingType, value: Value)
    ensures StrategyFor(kind, value).kind == kind
    ensures kind != ABSENT ==> StrategyFor(kind, value).value == value
    ensures kind == ABSENT ==> StrategyFor(kind, value) == MatchingStrategy(Flag(true), ABSENT)
  {
  }

  /** Different types give different strategies, whatever the values. */
  lemma StrategyFactoriesDistinct(k1: MatchingType, k2: MatchingType, v1: Value, v2: Value)
    requires k1 != k2
    ensures StrategyFor(k1, v1) != StrategyFor(k2, v2)
  {
  }

  /**
    `get()`: a fresh `Request` whose method is the name of the chosen method (or `null`),
    with every other field copied only when it was set.
   */
  function Get(d: RequestDsl): (r: Request)
    ensures d.httpMethod.None? ==> r.httpMethod.None?
    ensures d.httpMethod.Some? ==>
              && r.httpMethod.Some? && r.httpMethod.value.Single?
              && r.httpMethod.value.ClientValue() == Text(MethodName(d.httpMethod.value))
    ensures r.url == (if d.url.Some? then d.url else DefaultRequest.url)
    ensures r.urlPath == (if d.urlPath.Some? then d.urlPath else DefaultRequest.urlPath)
    ensures r.headers == (if d.headers.Some? then d.headers else DefaultRequest.headers)
    ensures r.cookies == (if d.cookies.Some? then d.cookies else DefaultRequest.cookies)
    ensures r.body == (if d.body.Some? then d.body else DefaultRequest.body)
    ensures r.multipart == (if d.multipart.Some? then d.multipart else DefaultRequest.multipart)
    ensures r.bodyMatchers == (if d.bodyMatchers.Some? then d.bodyMatchers else DefaultRequest.bodyMatchers)
  {
    Request(
      if d.httpMethod.Some? then Some(Single(Text(MethodName(d.httpMethod.value)))) else None,
      CopyIfSet(d.url, DefaultRequest.url),
      CopyIfSet(d.urlPath, DefaultRequest.urlPath),
      CopyIfSet(d.headers, DefaultRequest.headers),
      CopyIfSet(d.cookies, DefaultRequest.cookies),
      CopyIfSet(d.body, DefaultRequest.body),
      CopyIfSet(d.multipart, DefaultRequest.multipart),
      CopyIfSet(d.bodyMatchers, DefaultRequest.bodyMatchers))
  }

  /** Kotlin's `field?.also { target = field }`: the field when it is set, else what the target held. */
  function CopyIfSet<T>(field: Option<T>, target: Option<T>): (r: Option<T>)
    ensures field.Some? ==> r == field
    ensures field.None? ==> r == target
  {
    if field.Some? then field else target
  }

  /** The method a built request names, read back from its name. */
  function MethodOf(request: Request): Option<HttpMethod> {
    if request.httpMethod.Some? && request.httpMethod.value.ClientValue().Text?
    then MethodNamed(request.httpMethod.value.ClientValue().s)
    else None
  }

  /** Nothing set on the builder is lost: the builder can be read back from the request. */
  lemma GetLosesNothing(d: RequestDsl)
    ensures MethodOf(Get(d)) == d.httpMethod
    ensures Get(d).url == d.url && Get(d).urlPath == d.urlPath
    ensures Get(d).headers == d.headers && Get(d).cookies == d.cookies
    ensures Get(d).body == d.body && Get(d).multipart == d.multipart
    ensures Get(d).bodyMatchers == d.bodyMatchers
  {
  }

  /** Two builders that produce the same request were configured the same way. */
  lemma GetInjective(d1: RequestDsl, d2: RequestDsl)
    requires Get(d1) == Get(d2)
    ensures d1 == d2
  {
  }

  /** A builder nobody configured produces the default request. */
  lemma GetOfFresh()
    ensures Get(Fresh) == DefaultRequest
  {
  }

  /**
    The last `url(...)`, `urlPath(...)` or `body(...)` call wins: every overload of each
    discards whatever the field held before. Since every setter changes only its own
    field, this covers an earlier call of any overload.
   */
  lemma LastWriteWins(
    d: RequestDsl, u: Option<Url>, up: Option<UrlPath>, b: Option<Body>,
    s: string, p: DslProperty, client: DslProperty, server: DslProperty,
    path: string, parameters: QueryParameters -> QueryParameters,
    m: LinkedMap, pairs: seq<(string, Value)>, pair: (string, Value), items: seq<Value>, any: Value)
    ensures SetUrl(d.(url := u), s) == SetUrl(d, s)
    ensures SetUrlProperty(d.(url := u), p) == SetUrlProperty(d, p)
    ensures SetUrlClientServer(d.(url := u), client, server) == SetUrlClientServer(d, client, server)
    ensures SetUrlPath(d.(urlPath := up), path) == SetUrlPath(d, path)
    ensures SetUrlPathWithParameters(d.(urlPath := up), path, parameters) == SetUrlPathWithParameters(d, path, parameters)
    ensures SetBodyMap(d.(body := b), m) == SetBodyMap(d, m)
    ensures SetBodyPairs(d.(body := b), pairs) == SetBodyPairs(d, pairs)
    ensures SetBodyPair(d.(body := b), pair) == SetBodyPair(d, pair)
    ensures SetBodyList(d.(body := b), items) == SetBodyList(d, items)
    ensures SetBodyValue(d.(body := b), any) == SetBodyValue(d, any)
  {
  }

  /** Instances of `LastWriteWins`: one overload after another, and one after itself. */
  lemma OverloadPairsLastWriteWins(
    d: RequestDsl, u1: string, u2: DslProperty, client: DslProperty, server: DslProperty,
    p1: string, p2: string, parameters: QueryParameters -> QueryParameters,
    m: LinkedMap, m2: LinkedMap, pairs: seq<(string, Value)>, pair: (string, Value), items: seq<Value>, any: Value)
    ensures SetBodyMap(SetBodyMap(d, m), m2) == SetBodyMap(d, m2)
    ensures SetUrlPathWithParameters(SetUrlPathWithParameters(d, p1, parameters), p2, parameters)
            == SetUrlPathWithParameters(d, p2, parameters)
    ensures SetUrlProperty(SetUrl(d, u1), u2) == SetUrlProperty(d, u2)
    ensures SetUrlClientServer(SetUrlProperty(d, u2), client, server) == SetUrlClientServer(d, client, server)
    ensures SetUrl(SetUrlClientServer(d, client, server), u1) == SetUrl(d, u1)
    ensures SetUrlPath(SetUrlPath(d, p1), p2) == SetUrlPath(d, p2)
    ensures SetUrlPathWithParameters(SetUrlPath(d, p1), p2, parameters) == SetUrlPathWithParameters(d, p2, parameters)
    ensures SetUrlPath(SetUrlPathWithParameters(d, p1, parameters), p2) == SetUrlPath(d, p2)
    ensures SetBodyPairs(SetBodyMap(d, m), pairs) == SetBodyPairs(d, pairs)
    ensures SetBodyPair(SetBodyPairs(d, pairs), pair) == SetBodyPair(d, pair)
    ensures SetBodyList(SetBodyPair(d, pair), items) == SetBodyList(d, items)
    ensures SetBodyValue(SetBodyList(d, items), any) == SetBodyValue(d, any)
    ensures SetBodyMap(SetBodyValue(d, any), m) == SetBodyMap(d, m)
  {
    LastWriteWins(d, None, None, None, u1, u2, client, server, p2, parameters, m2, pairs, pair, items, any);
  }

  /** Setters of different fields commute: `url` and `urlPath`, `body` and `url`, `method` and `body`. */
  lemma SettersCommute(d: RequestDsl, url: string, path: string, body: Value, httpMethod: Option<HttpMethod>)
    ensures SetUrl(SetUrlPath(d, path), url) == SetUrlPath(SetUrl(d, url), path)
    ensures SetBodyValue(SetUrl(d, url), body) == SetUrl(SetBodyValue(d, body), url)
    ensures SetMethod(SetBodyValue(d, body), httpMethod) == SetBodyValue(SetMethod(d, httpMethod), body)
  {
  }

  /** `body(pair)` has the same effect as `body(mapOf(pair))`. */
  lemma BodyPairIsBodyMap(d: RequestDsl, pair: (string, Value))
    ensures SetBodyPair(d, pair) == SetBodyMap(d, [pair])
    ensures SetBodyPairs(d, [pair]) == SetBodyPair(d, pair)
  {
    PairBodyIsSingletonMapBody(pair);
  }

  /**
    Request-side header `matching`: a string becomes a property whose consumer side is the
    regex `escape(s) + ".*"` and whose producer side is the string itself; `null` and any
    other value are returned unchanged. The `regex(...)` called there is the builder's
    `regex` property, whose `invoke` (RegexSpec.kt:6) builds the same `RegexProperty` as
    `ValueSpec.Regex`.
   */
  function RequestHeadersMatching(escape: string -> string, value: Value): (r: Value)
    ensures !value.Text? ==> r == value
    ensures value.Text? ==> r.Property? && r.property.Dual?
    ensures value.Text? ==> r.property.ClientValue() == RegexProperty(Pattern(escape(value.s) + ".*"))
    ensures value.Text? ==> r.property.ServerValue() == value
  {
    match value
    case Text(s) =>
      Property(ValueSpec.ClientSpecProducer(ValueSpec.Consumer(ValueSpec.Regex(escape(s) + ".*")), value))
    case _ => value
  }

  /** Request-side cookie `matching`: the same rewrite as for headers, through the same `regex`. */
  function RequestCookiesMatching(escape: string -> string, value: Value): (r: Value)
    ensures !value.Text? ==> r == value
    ensures value.Text? ==> r.Property? && r.property.Dual?
    ensures value.Text? ==> r.property.ClientValue() == RegexProperty(Pattern(escape(value.s) + ".*"))
    ensures value.Text? ==> r.property.ServerValue() == value
  {
    match value
    case Text(s) =>
      Property(ValueSpec.ClientSpecProducer(ValueSpec.Consumer(ValueSpec.Regex(escape(s) + ".*")), value))
    case _ => value
  }

  /** The literal a rewritten request header or cookie was written as: its producer side. */
  function RequestLiteral(value: Value): Value {
    if value.Property? && value.property.Dual? && value.property.ClientValue().RegexProperty?
    then value.property.ServerValue()
    else value
  }

  /**
    The rewrite loses nothing: the producer side gives back the string; applying `matching`
    again changes nothing; headers and cookies agree.
   */
  lemma RequestMatchingProperties(escape: string -> string, value: Value)
    ensures value.Text? ==> RequestLiteral(RequestHeadersMatching(escape, value)) == value
    ensures RequestHeadersMatching(escape, RequestHeadersMatching(escape, value)) == RequestHeadersMatching(escape, value)
    ensures RequestCookiesMatching(escape, value) == RequestHeadersMatching(escape, value)
  {
  }
}
