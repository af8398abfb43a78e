/**
  The response half of an HTTP contract. Unlike the request builder, the response
  builder writes straight into one `Response` object, which `get()` returns as it stands.
  The response-side header and cookie `matching` override reads a plain string the other
  way round from the request side: the literal on the consumer side, and the pattern
  `escape(s) + ".*"` on the producer side.
 */
module ResponseDsl {

  import opened Nullable
  import opened Values
  import ValueSpec
  import Common
  import opened Bodies
  import opened HeaderCookieDsl

  /** `HttpStatus`, known here only by its numeric code. */
  datatype HttpStatus = HttpStatus(code: int)

  /** The Java `Response` the builder fills in; `null` fields are `None`. */
  datatype Response = Response(
    status: Option<DslProperty>,
    delay: Option<DslProperty>,
    async: bool,
    headers: Option<Headers>,
    cookies: Option<Cookies>,
    body: Option<Body>,
    bodyMatchers: Option<BodyMatchers>)

  /** `Response()`: nothing set and not asynchronous. */
  const DefaultResponse := Response(None, None, false, None, None, None, None)

  datatype ResponseDsl = ResponseDsl(response: Response)

  /** `ResponseDsl()`. */
  const Fresh := ResponseDsl(DefaultResponse)

  /** `status(Int)`: the status becomes the code as a single-valued property. */
  function Status(d: ResponseDsl, status: int): (r: ResponseDsl)
    ensures r.response.status.Some? && r.response.status.value.Single?
    ensures r.response.status.value.ClientValue() == Number(status)
    ensures r.response == d.response.(status := r.response.status)
  {
    d.(response := d.response.(status := Some(Single(Number(status)))))
  }

  /** `status(HttpStatus)`: the same as `status(code)`. */
  function StatusOf(d: ResponseDsl, status: HttpStatus): (r: ResponseDsl)
    ensures r == Status(d, status.code)
  {
    Status(d, status.code)
  }

  /** `delay.fixed(duration)`, given the duration's whole milliseconds. */
  function DelayFixed(d: ResponseDsl, millis: int): (r: ResponseDsl)
    ensures r.response.delay.Some? && r.response.delay.value.Single?
    ensures r.response.delay.value.ClientValue() == Number(millis)
    ensures r.response == d.response.(delay := r.response.delay)
  {
    d.(response := d.response.(delay := Some(Single(Number(millis)))))
  }

  /** Reading `async`: the flag of the response that `get()` hands out. */
  function Async(d: ResponseDsl): (r: bool)
    ensures r == Get(d).async
  {
    d.response.async
  }

  /** Writing `async`. */
  function SetAsync(d: ResponseDsl, async: bool): (r: ResponseDsl)
    ensures Async(r) == async
    ensures r.response == d.response.(async := r.response.async)
  {
    d.(response := d.response.(async := async))
  }

  /** `headers { }`: the block runs on a fresh builder that uses the response-side `matching`. */
  function SetHeaders(d: ResponseDsl, escape: string -> string, headers: HeadersDsl -> HeadersDsl): (r: ResponseDsl)
    ensures r.response.headers == Some(GetHeaders(headers(NewHeadersDsl(v => ResponseHeadersMatching(escape, v)))))
    ensures r.response == d.response.(headers := r.response.headers)
  {
    d.(response := d.response.(headers := Some(GetHeaders(headers(NewHeadersDsl(v => ResponseHeadersMatching(escape, v)))))))
  }

  /** `cookies { }`: the block runs on a fresh builder that uses the response-side `matching`. */
  function SetCookies(d: ResponseDsl, escape: string -> string, cookies: CookiesDsl -> CookiesDsl): (r: ResponseDsl)
    ensures r.response.cookies == Some(GetCookies(cookies(NewCookiesDsl(v => ResponseCookiesMatching(escape, v)))))
    ensures r.response == d.response.(cookies := r.response.cookies)
  {
    d.(response := d.response.(cookies := Some(GetCookies(cookies(NewCookiesDsl(v => ResponseCookiesMatching(escape, v)))))))
  }

  /** `body(map)`. */
  function SetBodyMap(d: ResponseDsl, body: LinkedMap): (r: ResponseDsl)
    ensures r.response.body == Some(FromMapBody(body))
    ensures r.response == d.response.(body := r.response.body)
  {
    d.(response := d.response.(body := Some(FromMapBody(body))))
  }

  /** `body(vararg pairs)`. */
  function SetBodyPairs(d: ResponseDsl, body: seq<(string, Value)>): (r: ResponseDsl)
    ensures r.response.body == Some(FromPairsBody(body))
    ensures r.response == d.response.(body := r.response.body)
  {
    d.(response := d.response.(body := Some(FromPairsBody(body))))
  }

  /** `body(pair)`. */
  function SetBodyPair(d: ResponseDsl, body: (string, Value)): (r: ResponseDsl)
    ensures r.response.body == Some(FromPairBody(body))
    ensures r.response == d.response.(body := r.response.body)
  {
    d.(response := d.response.(body := Some(FromPairBody(body))))
  }

  /** `body(list)`. */
  function SetBodyList(d: ResponseDsl, body: seq<Value>): (r: ResponseDsl)
    ensures r.response.body == Some(FromListBody(body))
    ensures r.response == d.response.(body := r.response.body)
  {
    d.(response := d.response.(body := Some(FromListBody(body))))
  }

  /** `body(any)`. */
  function SetBodyValue(d: ResponseDsl, body: Value): (r: ResponseDsl)
    ensures r.response.body == Some(FromValueBody(body))
    ensures r.response == d.response.(body := r.response.body)
  {
    d.(response := d.response.(body := Some(FromValueBody(body))))
  }

  /** `bodyMatchers { }`, given the matchers the block built. */
  function SetBodyMatchers(d: ResponseDsl, bodyMatchers: BodyMatchers): (r: ResponseDsl)
    ensures r.response.bodyMatchers == Some(bodyMatchers)
    ensures r.response == d.response.(bodyMatchers := r.response.bodyMatchers)
  {
    d.(response := d.response.(bodyMatchers := Some(bodyMatchers)))
  }

  /** `get()`: the response the setters wrote into. */
  function Get(d: ResponseDsl): (r: Response)
    ensures r == d.response
  {
    d.response
  }

  // The `value`/`v` helpers. The Kotlin overloads taking a ClientDslProperty, a
  // DslProperty, a Pattern, a RegexProperty or any value all hand the argument
  // unchanged to the same single-argument `value` of `response`.

  /** `value(x)`, for every single-argument overload. */
  function ValueOf(example: Pattern -> Value, value: Value): (r: DslProperty)
    ensures value.Property? ==> r == value.property
    ensures Common.IsRegex(value) ==> r.ServerValue() == value && r.ClientValue() == example(Common.RegexOf(value))
    ensures !value.Property? && !Common.IsRegex(value) ==> r == Single(value)
  {
    Common.ResponseValueOf(example, value)
  }

  /** `v(x)`, for every single-argument overload. */
  function VOf(example: Pattern -> Value, value: Value): (r: DslProperty)
    ensures r == ValueOf(example, value)
  {
    Common.ResponseValueOf(example, value)
  }

  /**
    The response's `value(x)` agrees with the dual-value builders: a regex is
    `client(example).server(regex)`, and any other plain value is `ValueSpec`'s `value(x)`.
   */
  lemma ValueOfAgreesWithValueSpec(example: Pattern -> Value, value: Value)
    ensures Common.IsRegex(value) ==>
              ValueOf(example, value) == ValueSpec.ClientSpecServer(ValueSpec.Client(example(Common.RegexOf(value))), value)
    ensures !value.Property? && !Common.IsRegex(value) ==> ValueOf(example, value) == ValueSpec.Invoke(value)
  {
  }

  /** `value(client, server)`. */
  function ValueClientServer(client: DslProperty, server: DslProperty): (r: DslProperty)
    ensures r.ClientValue() == client.ClientValue() && r.ServerValue() == server.ServerValue()
  {
    Common.ValuePair(client, server)
  }

  /** `v(client, server)`. */
  function VClientServer(client: DslProperty, server: DslProperty): (r: DslProperty)
    ensures r == ValueClientServer(client, server)
  {
    Common.ValuePair(client, server)
  }

  /** `value(server, client)`: the arguments are handed on in client-then-server order. */
  function ValueServerClient(server: DslProperty, client: DslProperty): (r: DslProperty)
    ensures r.ClientValue() == client.ClientValue() && r.ServerValue() == server.ServerValue()
  {
    Common.ValuePair(client, server)
  }

  /** `v(server, client)`. */
  function VServerClient(server: DslProperty, client: DslProperty): (r: DslProperty)
    ensures r == ValueServerClient(server, client)
  {
    Common.ValuePair(client, server)
  }

  /** Argument order does not matter, and `v` is `value`. */
  lemma ValueOverloadsAgree(client: DslProperty, server: DslProperty, example: Pattern -> Value, any: Value)
    ensures ValueServerClient(server, client) == ValueClientServer(client, server)
    ensures VServerClient(server, client) == VClientServer(client, server) == ValueClientServer(client, server)
    ensures VOf(example, any) == ValueOf(example, any)
  {
  }

  /**
    Response-side header `matching`: a string becomes `value(c(s), p(pattern))`, whose
    consumer side is the string itself and whose producer side is the pattern
    `escape(s) + ".*"` marked as not to be escaped again; `null` and any other value are
    returned unchanged.
   */
  function ResponseHeadersMatching(escape: string -> string, value: Value): (r: Value)
    ensures !value.Text? ==> r == value
    ensures value.Text? ==> r.Property? && r.property.Dual?
    ensures value.Text? ==> r.property.ClientValue() == value
    ensures value.Text? ==> r.property.ServerValue() == NotToEscapePattern(Pattern(escape(value.s) + ".*"))
  {
    match value
    case Text(s) =>
      Property(Common.ValuePair(Common.C(value), Common.P(NotToEscapePattern(Pattern(escape(s) + ".*")))))
    case _ => value
  }

  /**
    Response-side cookie `matching`: the same orientation as for headers, with the producer
    side the regex `escape(s) + ".*"` built by `common.regex`, which builds the same
    `RegexProperty` as `ValueSpec.Regex`.
   */
  function ResponseCookiesMatching(escape: string -> string, value: Value): (r: Value)
    ensures !value.Text? ==> r == value
    ensures value.Text? ==> r.Property? && r.property.Dual?
    ensures value.Text? ==> r.property.ClientValue() == value
    ensures value.Text? ==> r.property.ServerValue() == RegexProperty(Pattern(escape(value.s) + ".*"))
  {
    match value
    case Text(s) =>
      Property(Common.ValuePair(Common.C(value), Common.P(ValueSpec.Regex(escape(s) + ".*"))))
    case _ => value
  }

  /** The literal a rewritten response header or cookie was written as: its consumer side. */
  function ResponseLiteral(value: Value): Value {
    if value.Property? && value.property.Dual? && value.property.ClientValue().Text?
       && (value.property.ServerValue().RegexProperty? || value.property.ServerValue().NotToEscapePattern?)
    then value.property.ClientValue()
    else value
  }

  /**
    The rewrite loses nothing: the consumer side gives back the string; applying `matching`
    again changes nothing; headers and cookies differ only in how the pattern is wrapped.
   */
  lemma ResponseMatchingProperties(escape: string -> string, value: Value)
    ensures value.Text? ==> ResponseLiteral(ResponseHeadersMatching(escape, value)) == value
    ensures value.Text? ==> ResponseLiteral(ResponseCookiesMatching(escape, value)) == value
    ensures ResponseHeadersMatching(escape, ResponseHeadersMatching(escape, value)) == ResponseHeadersMatching(escape, value)
    ensures ResponseCookiesMatching(escape, ResponseCookiesMatching(escape, value)) == ResponseCookiesMatching(escape, value)
    ensures value.Text? ==>
              ResponseHeadersMatching(escape, value).property.ServerValue().pattern
              == ResponseCookiesMatching(escape, value).property.ServerValue().regex
  {
  }

  /**
    The last `status(...)` wins, by code or by `HttpStatus`: either overload discards
    whatever status was set before.
   */
  lemma StatusLastWriteWins(d: ResponseDsl, s: Option<DslProperty>, first: int, code: int, second: HttpStatus)
    ensures Status(d.(response := d.response.(status := s)), code) == Status(d, code)
    ensures StatusOf(d.(response := d.response.(status := s)), second) == StatusOf(d, second)
    ensures Status(Status(d, first), code) == Status(d, code)
    ensures StatusOf(Status(d, first), second) == Status(d, second.code)
  {
  }

  /** `async` reads back the last value written. */
  lemma AsyncReadsLastWrite(d: ResponseDsl, first: bool, second: bool)
    ensures Async(SetAsync(d, first)) == first
    ensures Async(SetAsync(SetAsync(d, first), second)) == second
  {
  }

  /** `status` and `delay` commute, `async` and `body` commute, and `get()` sees a status and a body both set. */
  lemma SettersCommute(d: ResponseDsl, status: int, millis: int, async: bool, body: Value)
    ensures Status(DelayFixed(d, millis), status) == DelayFixed(Status(d, status), millis)
    ensures SetAsync(SetBodyValue(d, body), async) == SetBodyValue(SetAsync(d, async), body)
    ensures Get(SetBodyValue(Status(d, status), body)).status == Some(Single(Number(status)))
    ensures Get(SetBodyValue(Status(d, status), body)).body == Some(FromValueBody(body))
  {
  }
}
