# Kotlin contract DSL of Spring Cloud Contract, modelled in Dafny

This project models the value-building core of the Kotlin contract DSL of Spring Cloud
Contract. That DSL lets an author describe one HTTP request/response pair as a contract.
A leaf value may differ between the consumer side (the stub, "client") and the producer
side (the generated test, "server").

The model covers four parts:

- **Dual-sided values** (`value_spec.dfy`). `client(x).server(y)` and `server(y).client(x)`
  both build a `DslProperty` with client side `x` and server side `y`. Each step has four
  spellings. `value(x)` builds a single-valued property.
- **Matching strategies** (`request_dsl.dfy`). Each factory pairs its argument with a fixed
  `MatchingStrategy.Type`. `absent()` always carries the sentinel `true`.
- **Header and cookie `matching`** (`request_dsl.dfy`, `response_dsl.dfy`,
  `matching_symmetry.dfy`). A plain string `s` becomes a dual-sided value. One side is the
  prefix pattern `escape(s) + ".*"` and the other is `s` itself. Requests put the pattern on
  the consumer side; responses put it on the producer side. `null` and non-strings pass
  through unchanged.
- **Builder state** (`request_dsl.dfy`, `response_dsl.dfy`, `contract_dsl.dfy`). Builders
  are immutable records of optional fields, and every setter is a pure function returning
  the updated builder. A configuration block (`X.() -> Unit` applied to a fresh builder) is
  a function `X -> X`.

Other files:

- `values.dfy`: the leaf values (Kotlin `Any`, with `Null` for `null`), compiled patterns
  known only by their source text, `DslProperty`, and `MatchingStrategy`.
- `common.dfy`: the behaviour assumed of the helpers the response DSL calls. Its
  `common` object is used for `value`, `c`, `p` and `regex` (ResponseDsl.kt:219-239);
  `common.regex` builds the same value as `ValueSpec.Regex`. Its `response` object is used
  for the `value(...)` helpers (ResponseDsl.kt:178-204), modelled by `ResponseValueOf` and
  `ValuePair`.
- `header_cookie_dsl.dfy`: the header and cookie builders. The builder carries its
  `matching` override as a field, so the context that creates a builder decides how it reads
  a plain string.
- `bodies.dfy`: the `body(...)` overloads shared by both DSLs. A Kotlin map is a
  sequence of entries in insertion order. Kotlin's `toMap` puts the pairs one by one: a
  repeated key keeps its first position and takes the last pair's value.
- `nullable.dfy`: `Option`, for Kotlin's nullable types.

The regex-escaping helper `RegexpUtils.escapeSpecialRegexWithSingleEscape` is passed in as
a parameter `escape: string -> string`. No property depends on what it escapes.

Two facts about the code shape the model:

- Properties nest. `url(client, server)` builds a property whose two sides are themselves
  properties (`SetUrlClientServer`). Nothing modelled here rejects nesting.
- The two-step builders take both sides exactly as given. `client(regex(...))` keeps
  whatever value the other step supplies, and no example is generated. Only the response's
  single-argument `value(x)` fills in a generated example for a regex
  (`Common.ResponseValueOf`).

## Model

| member | source | states |
|---|---|---|
| ValueSpec.Invoke | specs/spring-cloud-contract-spec-kotlin/src/main/kotlin/org/springframework/cloud/contract/spec/internal/ValueSpec.kt:9 | `value(x)` is a single-valued property whose client and server sides are both exactly `x` |
| ValueSpec.Server | specs/spring-cloud-contract-spec-kotlin/src/main/kotlin/org/springframework/cloud/contract/spec/internal/ValueSpec.kt:10 | `server(y)` remembers `y` as the server value |
| ValueSpec.Producer | specs/spring-cloud-contract-spec-kotlin/src/main/kotlin/org/springframework/cloud/contract/spec/internal/ValueSpec.kt:11 | `producer(y)` is the same first step as `server(y)` |
| ValueSpec.Test | specs/spring-cloud-contract-spec-kotlin/src/main/kotlin/org/springframework/cloud/contract/spec/internal/ValueSpec.kt:12 | `test(y)` is the same first step as `server(y)` |
| ValueSpec.P | specs/spring-cloud-contract-spec-kotlin/src/main/kotlin/org/springframework/cloud/contract/spec/internal/ValueSpec.kt:13 | `p(y)` is the same first step as `server(y)` |
| ValueSpec.Client | specs/spring-cloud-contract-spec-kotlin/src/main/kotlin/org/springframework/cloud/contract/spec/internal/ValueSpec.kt:15 | `client(x)` remembers `x` as the client value |
| ValueSpec.Consumer | specs/spring-cloud-contract-spec-kotlin/src/main/kotlin/org/springframework/cloud/contract/spec/internal/ValueSpec.kt:16 | `consumer(x)` is the same first step as `client(x)` |
| ValueSpec.Stub | specs/spring-cloud-contract-spec-kotlin/src/main/kotlin/org/springframework/cloud/contract/spec/internal/ValueSpec.kt:17 | `stub(x)` is the same first step as `client(x)` |
| ValueSpec.C | specs/spring-cloud-contract-spec-kotlin/src/main/kotlin/org/springframework/cloud/contract/spec/internal/ValueSpec.kt:18 | `c(x)` is the same first step as `client(x)` |
| ValueSpec.ServerSpecClient | specs/spring-cloud-contract-spec-kotlin/src/main/kotlin/org/springframework/cloud/contract/spec/internal/ValueSpec.kt:91 | `server(y).client(x)` is a two-valued property with client side `x` and server side `y` |
| ValueSpec.ServerSpecConsumer | specs/spring-cloud-contract-spec-kotlin/src/main/kotlin/org/springframework/cloud/contract/spec/internal/ValueSpec.kt:92 | `.consumer(x)` after `server(y)` builds the same property as `.client(x)` |
| ValueSpec.ServerSpecStub | specs/spring-cloud-contract-spec-kotlin/src/main/kotlin/org/springframework/cloud/contract/spec/internal/ValueSpec.kt:93 | `.stub(x)` after `server(y)` builds the same property as `.client(x)` |
| ValueSpec.ServerSpecC | specs/spring-cloud-contract-spec-kotlin/src/main/kotlin/org/springframework/cloud/contract/spec/internal/ValueSpec.kt:94 | `.c(x)` after `server(y)` builds the same property as `.client(x)` |
| ValueSpec.ClientSpecServer | specs/spring-cloud-contract-spec-kotlin/src/main/kotlin/org/springframework/cloud/contract/spec/internal/ValueSpec.kt:98 | `client(x).server(y)` is a two-valued property with client side `x` and server side `y` |
| ValueSpec.ClientSpecProducer | specs/spring-cloud-contract-spec-kotlin/src/main/kotlin/org/springframework/cloud/contract/spec/internal/ValueSpec.kt:99 | `.producer(y)` after `client(x)` builds the same property as `.server(y)` |
| ValueSpec.ClientSpecTest | specs/spring-cloud-contract-spec-kotlin/src/main/kotlin/org/springframework/cloud/contract/spec/internal/ValueSpec.kt:100 | `.test(y)` after `client(x)` builds the same property as `.server(y)` |
| ValueSpec.ClientSpecP | specs/spring-cloud-contract-spec-kotlin/src/main/kotlin/org/springframework/cloud/contract/spec/internal/ValueSpec.kt:101 | `.p(y)` after `client(x)` builds the same property as `.server(y)` |
| ValueSpec.Regex | specs/spring-cloud-contract-spec-kotlin/src/main/kotlin/org/springframework/cloud/contract/spec/internal/ValueSpec.kt:80 | `regex(s)` is a regex-backed value whose pattern source is exactly `s` |
| ValueSpec.OrderIndependent | specs/spring-cloud-contract-spec-kotlin/src/main/kotlin/org/springframework/cloud/contract/spec/internal/ValueSpec.kt:90-102 | `client(x).server(y)` equals `server(y).client(x)`, with `x` on the client side and `y` on the server side |
| ValueSpec.FirstStepLandsInItsSide | specs/spring-cloud-contract-spec-kotlin/src/main/kotlin/org/springframework/cloud/contract/spec/internal/ValueSpec.kt:90-102 | the value named in the first step lands on the side that step names, and (when the two values differ) never on the other |
| ValueSpec.FirstStepSynonymsAgree | specs/spring-cloud-contract-spec-kotlin/src/main/kotlin/org/springframework/cloud/contract/spec/internal/ValueSpec.kt:10-18 | `client`/`consumer`/`stub`/`c` give equal client specs; `server`/`producer`/`test`/`p` give equal server specs |
| ValueSpec.SecondStepSynonymsAgree | specs/spring-cloud-contract-spec-kotlin/src/main/kotlin/org/springframework/cloud/contract/spec/internal/ValueSpec.kt:90-102 | all four terminal spellings on either half-built spec build the same property |
| Common.C | specs/spring-cloud-contract-spec-kotlin/src/main/kotlin/org/springframework/cloud/contract/spec/internal/ResponseDsl.kt:220 | assumed behaviour of `common.c(x)`, which is not modelled: a property whose client side is `x` |
| Common.P | specs/spring-cloud-contract-spec-kotlin/src/main/kotlin/org/springframework/cloud/contract/spec/internal/ResponseDsl.kt:221 | assumed behaviour of `common.p(x)`, which is not modelled: a property whose server side is `x` |
| Common.ValuePair | specs/spring-cloud-contract-spec-kotlin/src/main/kotlin/org/springframework/cloud/contract/spec/internal/ResponseDsl.kt:219-222 | assumed behaviour of `common.value(client, server)`, which is not modelled: client side of the first, server side of the second |
| Common.ResponseValueOf | specs/spring-cloud-contract-spec-kotlin/src/main/kotlin/org/springframework/cloud/contract/spec/internal/ResponseDsl.kt:178-196 | assumed behaviour of the single-argument `response.value(x)`, which is not modelled: a property is kept; a regex goes to the server side and its generated example to the client side; any other value sits on both sides |
| HeaderCookieDsl.NewHeadersDsl | specs/spring-cloud-contract-spec-kotlin/src/main/kotlin/org/springframework/cloud/contract/spec/internal/RequestDsl.kt:96 | a header block starts from an empty builder whose `matching` is the override it was created with |
| HeaderCookieDsl.NewCookiesDsl | specs/spring-cloud-contract-spec-kotlin/src/main/kotlin/org/springframework/cloud/contract/spec/internal/RequestDsl.kt:100 | a cookie block starts from an empty builder whose `matching` is the override it was created with |
| HeaderCookieDsl.GetHeaders | specs/spring-cloud-contract-spec-kotlin/src/main/kotlin/org/springframework/cloud/contract/spec/internal/RequestDsl.kt:96 | `get()` of a header builder returns exactly the entries the block collected |
| HeaderCookieDsl.GetCookies | specs/spring-cloud-contract-spec-kotlin/src/main/kotlin/org/springframework/cloud/contract/spec/internal/RequestDsl.kt:100 | `get()` of a cookie builder returns exactly the entries the block collected |
| Bodies.Put | specs/spring-cloud-contract-spec-kotlin/src/main/kotlin/org/springframework/cloud/contract/spec/internal/RequestDsl.kt:107-109 | the `LinkedHashMap.put` behind `toMap`: a present key keeps its position and takes the new value, a new key is appended, no other entry changes, and keys stay distinct |
| Bodies.ToMap | specs/spring-cloud-contract-spec-kotlin/src/main/kotlin/org/springframework/cloud/contract/spec/internal/RequestDsl.kt:107-109 | Kotlin `toMap` of the pairs: its keys are exactly the pairs' keys, no key twice, and each key holds the value of the last pair with that key |
| Bodies.ToMapKeepsOrder | specs/spring-cloud-contract-spec-kotlin/src/main/kotlin/org/springframework/cloud/contract/spec/internal/RequestDsl.kt:107-109 | insertion order: the map of any prefix of the pairs lists its keys in the order the map of all pairs starts with |
| Bodies.ToMapOfDistinctKeys | specs/spring-cloud-contract-spec-kotlin/src/main/kotlin/org/springframework/cloud/contract/spec/internal/RequestDsl.kt:107-109 | with pairwise distinct keys, the map is the pairs themselves, in order |
| Bodies.FromMapBody | specs/spring-cloud-contract-spec-kotlin/src/main/kotlin/org/springframework/cloud/contract/spec/internal/RequestDsl.kt:103-105 | `body(map)` records that map, entries in iteration order |
| Bodies.FromPairsBody | specs/spring-cloud-contract-spec-kotlin/src/main/kotlin/org/springframework/cloud/contract/spec/internal/RequestDsl.kt:107-109 | `body(vararg pairs)` records the `toMap` of the pairs: exactly the pairs' keys, later pairs overriding earlier ones |
| Bodies.FromPairBody | specs/spring-cloud-contract-spec-kotlin/src/main/kotlin/org/springframework/cloud/contract/spec/internal/RequestDsl.kt:111-113 | `body(pair)` records the one-entry map of the pair |
| Bodies.FromListBody | specs/spring-cloud-contract-spec-kotlin/src/main/kotlin/org/springframework/cloud/contract/spec/internal/RequestDsl.kt:115-117 | `body(list)` records that list |
| Bodies.FromValueBody | specs/spring-cloud-contract-spec-kotlin/src/main/kotlin/org/springframework/cloud/contract/spec/internal/RequestDsl.kt:119-121 | `body(any)` records the value itself |
| Bodies.PairBodyIsSingletonMapBody | specs/spring-cloud-contract-spec-kotlin/src/main/kotlin/org/springframework/cloud/contract/spec/internal/RequestDsl.kt:107-113 | `body(pair)` equals `body(mapOf(pair))`, and `body(vararg)` with one pair equals `body(pair)` |
| RequestDsl.MethodName | specs/spring-cloud-contract-spec-kotlin/src/main/kotlin/org/springframework/cloud/contract/spec/HttpMethod.kt:5-12 | the `name` `get()` stores for a method identifies that method: reading the name back gives the same method |
| RequestDsl.MethodNamedRoundTrip | specs/spring-cloud-contract-spec-kotlin/src/main/kotlin/org/springframework/cloud/contract/spec/HttpMethod.kt:5-12 | a method read back from a name has that name |
| RequestDsl.SetMethod | specs/spring-cloud-contract-spec-kotlin/src/main/kotlin/org/springframework/cloud/contract/spec/internal/RequestDsl.kt:36 | assigning `method` sets that field and no other |
| RequestDsl.SetUrl | specs/spring-cloud-contract-spec-kotlin/src/main/kotlin/org/springframework/cloud/contract/spec/internal/RequestDsl.kt:73-75 | `url(String)` replaces the url with that string and changes nothing else |
| RequestDsl.SetUrlProperty | specs/spring-cloud-contract-spec-kotlin/src/main/kotlin/org/springframework/cloud/contract/spec/internal/RequestDsl.kt:77-79 | `url(DslProperty)` replaces the url with that property and changes nothing else |
| RequestDsl.SetUrlClientServer | specs/spring-cloud-contract-spec-kotlin/src/main/kotlin/org/springframework/cloud/contract/spec/internal/RequestDsl.kt:81-83 | `url(client, server)` stores a two-valued property whose client side is the client property and whose server side is the server property |
| RequestDsl.SetUrlPath | specs/spring-cloud-contract-spec-kotlin/src/main/kotlin/org/springframework/cloud/contract/spec/internal/RequestDsl.kt:85-87 | `urlPath(path)` replaces the url path with one that has no query parameters |
| RequestDsl.SetUrlPathWithParameters | specs/spring-cloud-contract-spec-kotlin/src/main/kotlin/org/springframework/cloud/contract/spec/internal/RequestDsl.kt:89-93 | `urlPath(path) { }` replaces the url path with one whose query parameters are the block applied once to empty parameters |
| RequestDsl.SetHeaders | specs/spring-cloud-contract-spec-kotlin/src/main/kotlin/org/springframework/cloud/contract/spec/internal/RequestDsl.kt:95-97 | `headers { }` stores what the block built on a fresh builder using the request-side `matching`, and changes nothing else |
| RequestDsl.SetCookies | specs/spring-cloud-contract-spec-kotlin/src/main/kotlin/org/springframework/cloud/contract/spec/internal/RequestDsl.kt:99-101 | `cookies { }` stores what the block built on a fresh builder using the request-side `matching`, and changes nothing else |
| RequestDsl.SetBodyMap | specs/spring-cloud-contract-spec-kotlin/src/main/kotlin/org/springframework/cloud/contract/spec/internal/RequestDsl.kt:103-105 | `body(map)` replaces the body and changes nothing else |
| RequestDsl.SetBodyPairs | specs/spring-cloud-contract-spec-kotlin/src/main/kotlin/org/springframework/cloud/contract/spec/internal/RequestDsl.kt:107-109 | `body(vararg pairs)` replaces the body and changes nothing else |
| RequestDsl.SetBodyPair | specs/spring-cloud-contract-spec-kotlin/src/main/kotlin/org/springframework/cloud/contract/spec/internal/RequestDsl.kt:111-113 | `body(pair)` replaces the body and changes nothing else |
| RequestDsl.SetBodyList | specs/spring-cloud-contract-spec-kotlin/src/main/kotlin/org/springframework/cloud/contract/spec/internal/RequestDsl.kt:115-117 | `body(list)` replaces the body and changes nothing else |
| RequestDsl.SetBodyValue | specs/spring-cloud-contract-spec-kotlin/src/main/kotlin/org/springframework/cloud/contract/spec/internal/RequestDsl.kt:119-121 | `body(any)` replaces the body and changes nothing else |
| RequestDsl.SetMultipart | specs/spring-cloud-contract-spec-kotlin/src/main/kotlin/org/springframework/cloud/contract/spec/internal/RequestDsl.kt:123-125 | `multipart { }` replaces the multipart part and changes nothing else |
| RequestDsl.SetBodyMatchers | specs/spring-cloud-contract-spec-kotlin/src/main/kotlin/org/springframework/cloud/contract/spec/internal/RequestDsl.kt:127-129 | `bodyMatchers { }` replaces the body matchers and changes nothing else |
| RequestDsl.EqualTo | specs/spring-cloud-contract-spec-kotlin/src/main/kotlin/org/springframework/cloud/contract/spec/internal/RequestDsl.kt:147 | `equalTo(v)` keeps `v` and has type `EQUAL_TO` |
| RequestDsl.Containing | specs/spring-cloud-contract-spec-kotlin/src/main/kotlin/org/springframework/cloud/contract/spec/internal/RequestDsl.kt:154 | `containing(v)` keeps `v` and has type `CONTAINS` |
| RequestDsl.Matching | specs/spring-cloud-contract-spec-kotlin/src/main/kotlin/org/springframework/cloud/contract/spec/internal/RequestDsl.kt:161 | `matching(v)` keeps `v` and has type `MATCHING` |
| RequestDsl.NotMatching | specs/spring-cloud-contract-spec-kotlin/src/main/kotlin/org/springframework/cloud/contract/spec/internal/RequestDsl.kt:168 | `notMatching(v)` keeps `v` and has type `NOT_MATCHING` |
| RequestDsl.EqualToXml | specs/spring-cloud-contract-spec-kotlin/src/main/kotlin/org/springframework/cloud/contract/spec/internal/RequestDsl.kt:175 | `equalToXml(v)` keeps `v` and has type `EQUAL_TO_XML` |
| RequestDsl.EqualToJson | specs/spring-cloud-contract-spec-kotlin/src/main/kotlin/org/springframework/cloud/contract/spec/internal/RequestDsl.kt:182 | `equalToJson(v)` keeps `v` and has type `EQUAL_TO_JSON` |
| RequestDsl.Absent | specs/spring-cloud-contract-spec-kotlin/src/main/kotlin/org/springframework/cloud/contract/spec/internal/RequestDsl.kt:188 | `absent()` has type `ABSENT` and the sentinel value `true` |
| RequestDsl.StrategyFactoriesFaithful | specs/spring-cloud-contract-spec-kotlin/src/main/kotlin/org/springframework/cloud/contract/spec/internal/RequestDsl.kt:147-188 | every factory yields its own type; every factory but `absent()` keeps its argument; `absent()` is always `(true, ABSENT)` |
| RequestDsl.StrategyFactoriesDistinct | specs/spring-cloud-contract-spec-kotlin/src/main/kotlin/org/springframework/cloud/contract/spec/internal/RequestDsl.kt:147-188 | factories of different types never produce equal strategies |
| RequestDsl.Get | specs/spring-cloud-contract-spec-kotlin/src/main/kotlin/org/springframework/cloud/contract/spec/internal/RequestDsl.kt:191-202 | `get()` stores the method's name as a single-valued property (or null) and copies every other field only when it was set, otherwise keeping `Request()`'s default |
| RequestDsl.CopyIfSet | specs/spring-cloud-contract-spec-kotlin/src/main/kotlin/org/springframework/cloud/contract/spec/internal/RequestDsl.kt:194-200 | `field?.also { target = field }`: a set field replaces the target, an unset one leaves the target as it was |
| RequestDsl.GetLosesNothing | specs/spring-cloud-contract-spec-kotlin/src/main/kotlin/org/springframework/cloud/contract/spec/internal/RequestDsl.kt:191-202 | everything set on the builder, the method included, can be read back from the built request |
| RequestDsl.GetInjective | specs/spring-cloud-contract-spec-kotlin/src/main/kotlin/org/springframework/cloud/contract/spec/internal/RequestDsl.kt:191-202 | two builders that produce the same request hold the same settings |
| RequestDsl.GetOfFresh | specs/spring-cloud-contract-spec-kotlin/src/main/kotlin/org/springframework/cloud/contract/spec/internal/RequestDsl.kt:191-202 | an unconfigured builder produces the default `Request()` |
| RequestDsl.LastWriteWins | specs/spring-cloud-contract-spec-kotlin/src/main/kotlin/org/springframework/cloud/contract/spec/internal/RequestDsl.kt:73-121 | each overload of `url`, `urlPath` and `body` discards whatever its field held before; with every setter's frame this covers an earlier call of any overload |
| RequestDsl.OverloadPairsLastWriteWins | specs/spring-cloud-contract-spec-kotlin/src/main/kotlin/org/springframework/cloud/contract/spec/internal/RequestDsl.kt:73-121 | instances: each overload after the previous one, and `body(map)` and `urlPath(path) { }` after themselves |
| RequestDsl.SettersCommute | specs/spring-cloud-contract-spec-kotlin/src/main/kotlin/org/springframework/cloud/contract/spec/internal/RequestDsl.kt:36-121 | `url` and `urlPath`, `body` and `url`, and the method and `body` can be set in either order |
| RequestDsl.BodyPairIsBodyMap | specs/spring-cloud-contract-spec-kotlin/src/main/kotlin/org/springframework/cloud/contract/spec/internal/RequestDsl.kt:103-113 | `body(pair)` has the same effect as `body(mapOf(pair))` and as `body(vararg)` with that one pair |
| RequestDsl.RequestHeadersMatching | specs/spring-cloud-contract-spec-kotlin/src/main/kotlin/org/springframework/cloud/contract/spec/internal/RequestDsl.kt:206-215 | a string `s` becomes consumer side `regex(escape(s) + ".*")` and producer side `s`; null and non-strings are returned unchanged |
| RequestDsl.RequestCookiesMatching | specs/spring-cloud-contract-spec-kotlin/src/main/kotlin/org/springframework/cloud/contract/spec/internal/RequestDsl.kt:221-230 | the same rewrite for request cookies |
| RequestDsl.RequestMatchingProperties | specs/spring-cloud-contract-spec-kotlin/src/main/kotlin/org/springframework/cloud/contract/spec/internal/RequestDsl.kt:206-230 | the producer side gives back the original string, the rewrite is idempotent, and headers and cookies agree |
| ResponseDsl.Status | specs/spring-cloud-contract-spec-kotlin/src/main/kotlin/org/springframework/cloud/contract/spec/internal/ResponseDsl.kt:40-42 | `status(code)` stores the code as a single-valued property and changes nothing else |
| ResponseDsl.StatusOf | specs/spring-cloud-contract-spec-kotlin/src/main/kotlin/org/springframework/cloud/contract/spec/internal/ResponseDsl.kt:47-49 | `status(HttpStatus)` has the same effect as `status(status.code)` |
| ResponseDsl.DelayFixed | specs/spring-cloud-contract-spec-kotlin/src/main/kotlin/org/springframework/cloud/contract/spec/internal/ResponseDsl.kt:57-61 | `delay.fixed(d)` stores the millisecond count as a single-valued property and changes nothing else |
| ResponseDsl.Async | specs/spring-cloud-contract-spec-kotlin/src/main/kotlin/org/springframework/cloud/contract/spec/internal/ResponseDsl.kt:67 | reading `async` gives the flag of the response `get()` hands out |
| ResponseDsl.SetAsync | specs/spring-cloud-contract-spec-kotlin/src/main/kotlin/org/springframework/cloud/contract/spec/internal/ResponseDsl.kt:66-68 | writing `async` is what reading it then returns, and changes nothing else |
| ResponseDsl.SetHeaders | specs/spring-cloud-contract-spec-kotlin/src/main/kotlin/org/springframework/cloud/contract/spec/internal/ResponseDsl.kt:74-76 | `headers { }` stores what the block built on a fresh builder using the response-side `matching`, and changes nothing else |
| ResponseDsl.SetCookies | specs/spring-cloud-contract-spec-kotlin/src/main/kotlin/org/springframework/cloud/contract/spec/internal/ResponseDsl.kt:81-83 | `cookies { }` stores what the block built on a fresh builder using the response-side `matching`, and changes nothing else |
| ResponseDsl.SetBodyMap | specs/spring-cloud-contract-spec-kotlin/src/main/kotlin/org/springframework/cloud/contract/spec/internal/ResponseDsl.kt:85-87 | `body(map)` replaces the body and changes nothing else |
| ResponseDsl.SetBodyPairs | specs/spring-cloud-contract-spec-kotlin/src/main/kotlin/org/springframework/cloud/contract/spec/internal/ResponseDsl.kt:89-91 | `body(vararg pairs)` replaces the body and changes nothing else |
| ResponseDsl.SetBodyPair | specs/spring-cloud-contract-spec-kotlin/src/main/kotlin/org/springframework/cloud/contract/spec/internal/ResponseDsl.kt:93-95 | `body(pair)` replaces the body and changes nothing else |
| ResponseDsl.SetBodyList | specs/spring-cloud-contract-spec-kotlin/src/main/kotlin/org/springframework/cloud/contract/spec/internal/ResponseDsl.kt:97-99 | `body(list)` replaces the body and changes nothing else |
| ResponseDsl.SetBodyValue | specs/spring-cloud-contract-spec-kotlin/src/main/kotlin/org/springframework/cloud/contract/spec/internal/ResponseDsl.kt:101-103 | `body(any)` replaces the body and changes nothing else |
| ResponseDsl.SetBodyMatchers | specs/spring-cloud-contract-spec-kotlin/src/main/kotlin/org/springframework/cloud/contract/spec/internal/ResponseDsl.kt:108-110 | `bodyMatchers { }` replaces the body matchers and changes nothing else |
| ResponseDsl.Get | specs/spring-cloud-contract-spec-kotlin/src/main/kotlin/org/springframework/cloud/contract/spec/internal/ResponseDsl.kt:210 | `get()` returns the one response the setters wrote into |
| ResponseDsl.ValueOf | specs/spring-cloud-contract-spec-kotlin/src/main/kotlin/org/springframework/cloud/contract/spec/internal/ResponseDsl.kt:178-194 | each single-argument `value(...)` overload hands its argument unchanged to `response.value`: a property is kept, a regex is the server side with its example on the client side, any other value is single-valued |
| ResponseDsl.VOf | specs/spring-cloud-contract-spec-kotlin/src/main/kotlin/org/springframework/cloud/contract/spec/internal/ResponseDsl.kt:180-196 | each `v(...)` overload equals the matching `value(...)` |
| ResponseDsl.ValueOfAgreesWithValueSpec | specs/spring-cloud-contract-spec-kotlin/src/main/kotlin/org/springframework/cloud/contract/spec/internal/ResponseDsl.kt:178-196 | the response `value(x)` equals `client(example).server(regex)` for a regex and `ValueSpec`'s `value(x)` for any other plain value |
| ResponseDsl.ValueClientServer | specs/spring-cloud-contract-spec-kotlin/src/main/kotlin/org/springframework/cloud/contract/spec/internal/ResponseDsl.kt:198 | `value(client, server)` takes the client side of `client` and the server side of `server` |
| ResponseDsl.VClientServer | specs/spring-cloud-contract-spec-kotlin/src/main/kotlin/org/springframework/cloud/contract/spec/internal/ResponseDsl.kt:200 | `v(client, server)` equals `value(client, server)` |
| ResponseDsl.ValueServerClient | specs/spring-cloud-contract-spec-kotlin/src/main/kotlin/org/springframework/cloud/contract/spec/internal/ResponseDsl.kt:202 | `value(server, client)` takes the client side of `client` and the server side of `server` |
| ResponseDsl.VServerClient | specs/spring-cloud-contract-spec-kotlin/src/main/kotlin/org/springframework/cloud/contract/spec/internal/ResponseDsl.kt:204 | `v(server, client)` equals `value(server, client)` |
| ResponseDsl.ValueOverloadsAgree | specs/spring-cloud-contract-spec-kotlin/src/main/kotlin/org/springframework/cloud/contract/spec/internal/ResponseDsl.kt:178-204 | `value(server, client)` equals `value(client, server)`, and every `v` equals its `value` |
| ResponseDsl.ResponseHeadersMatching | specs/spring-cloud-contract-spec-kotlin/src/main/kotlin/org/springframework/cloud/contract/spec/internal/ResponseDsl.kt:216-226 | a string `s` becomes client side `s` and producer side the not-to-escape pattern `escape(s) + ".*"`; null and non-strings are returned unchanged |
| ResponseDsl.ResponseCookiesMatching | specs/spring-cloud-contract-spec-kotlin/src/main/kotlin/org/springframework/cloud/contract/spec/internal/ResponseDsl.kt:234-244 | a string `s` becomes client side `s` and producer side `regex(escape(s) + ".*")`; null and non-strings are returned unchanged |
| ResponseDsl.ResponseMatchingProperties | specs/spring-cloud-contract-spec-kotlin/src/main/kotlin/org/springframework/cloud/contract/spec/internal/ResponseDsl.kt:216-244 | the client side gives back the original string, both rewrites are idempotent, and headers and cookies carry the same pattern source |
| ResponseDsl.StatusLastWriteWins | specs/spring-cloud-contract-spec-kotlin/src/main/kotlin/org/springframework/cloud/contract/spec/internal/ResponseDsl.kt:40-49 | `status(code)` and `status(HttpStatus)` each discard whatever status was set before |
| ResponseDsl.AsyncReadsLastWrite | specs/spring-cloud-contract-spec-kotlin/src/main/kotlin/org/springframework/cloud/contract/spec/internal/ResponseDsl.kt:66-68 | `async` reads back the last value written |
| ResponseDsl.SettersCommute | specs/spring-cloud-contract-spec-kotlin/src/main/kotlin/org/springframework/cloud/contract/spec/internal/ResponseDsl.kt:35-110 | `status` and `delay` commute, `async` and `body` commute, and `get()` sees a status and a body both set |
| MatchingSymmetry.CookiesMirror | specs/spring-cloud-contract-spec-kotlin/src/main/kotlin/org/springframework/cloud/contract/spec/internal/ResponseDsl.kt:234-244 | request cookie `matching` of a string is response cookie `matching` with the two sides swapped |
| MatchingSymmetry.HeadersMirror | specs/spring-cloud-contract-spec-kotlin/src/main/kotlin/org/springframework/cloud/contract/spec/internal/ResponseDsl.kt:216-226 | request and response header `matching` put the literal and the pattern on opposite sides, with the same pattern source |
| MatchingSymmetry.OnlyStringsRewritten | specs/spring-cloud-contract-spec-kotlin/src/main/kotlin/org/springframework/cloud/contract/spec/internal/RequestDsl.kt:206-230 | all four overrides leave null and non-strings unchanged, and each of the four rewrites every string |
| ContractDsl.Read | specs/spring-cloud-contract-spec-kotlin/src/main/kotlin/org/springframework/cloud/contract/spec/ContractDsl.kt:116 | a delegate's getter returns a value of the property's type |
| ContractDsl.Write | specs/spring-cloud-contract-spec-kotlin/src/main/kotlin/org/springframework/cloud/contract/spec/ContractDsl.kt:117 | a delegate's setter makes its property read back the written value and leaves every other property and part unchanged |
| ContractDsl.Init | specs/spring-cloud-contract-spec-kotlin/src/main/kotlin/org/springframework/cloud/contract/spec/ContractDsl.kt:110-115 | a delegate writes its default at creation only when it has a non-null one, and otherwise leaves the contract as it was |
| ContractDsl.NullDefaultIsNoDefault | specs/spring-cloud-contract-spec-kotlin/src/main/kotlin/org/springframework/cloud/contract/spec/ContractDsl.kt:110-115 | a `null` default for `priority`, `label`, `description` or `name` leaves the contract unchanged, exactly as no default does |
| ContractDsl.New | specs/spring-cloud-contract-spec-kotlin/src/main/kotlin/org/springframework/cloud/contract/spec/ContractDsl.kt:31-76 | after construction `ignored` and `inProgress` read `false`, and `priority`, `label`, `description`, `name` and the four parts keep the contract's initial values |
| ContractDsl.GetValue | specs/spring-cloud-contract-spec-kotlin/src/main/kotlin/org/springframework/cloud/contract/spec/ContractDsl.kt:116 | reading a delegated property gives a value of its type |
| ContractDsl.SetValue | specs/spring-cloud-contract-spec-kotlin/src/main/kotlin/org/springframework/cloud/contract/spec/ContractDsl.kt:117 | writing a delegated property makes it read back that value and changes no other delegated property or part |
| ContractDsl.DelegateReadsLastWrite | specs/spring-cloud-contract-spec-kotlin/src/main/kotlin/org/springframework/cloud/contract/spec/ContractDsl.kt:116-117 | after two writes a read returns the second, and the first write is overwritten completely |
| ContractDsl.SetRequest | specs/spring-cloud-contract-spec-kotlin/src/main/kotlin/org/springframework/cloud/contract/spec/ContractDsl.kt:82-84 | `request { }` replaces only the request, with `get()` of the block applied once to a fresh request builder |
| ContractDsl.SetResponse | specs/spring-cloud-contract-spec-kotlin/src/main/kotlin/org/springframework/cloud/contract/spec/ContractDsl.kt:90-92 | `response { }` replaces only the response, with `get()` of the block applied once to a fresh response builder |
| ContractDsl.SetInput | specs/spring-cloud-contract-spec-kotlin/src/main/kotlin/org/springframework/cloud/contract/spec/ContractDsl.kt:98-100 | `input { }` replaces only the input |
| ContractDsl.SetOutputMessage | specs/spring-cloud-contract-spec-kotlin/src/main/kotlin/org/springframework/cloud/contract/spec/ContractDsl.kt:106-108 | `outputMessage { }` replaces only the output message |
| ContractDsl.ContractOf | specs/spring-cloud-contract-spec-kotlin/src/main/kotlin/org/springframework/cloud/contract/spec/ContractDsl.kt:34 | `contract { }` applies the block once to a builder holding exactly `Contract()`, since the delegates' defaults are what `Contract()` already holds |
| ContractDsl.EmptyContractBlock | specs/spring-cloud-contract-spec-kotlin/src/main/kotlin/org/springframework/cloud/contract/spec/ContractDsl.kt:34-76 | an empty `contract { }` is `Contract()` with `ignored` and `inProgress` false |
| ContractDsl.RequestOnlyContract | specs/spring-cloud-contract-spec-kotlin/src/main/kotlin/org/springframework/cloud/contract/spec/ContractDsl.kt:34-84 | a block that only sets the request yields `Contract()` with exactly that request |

## Left out

- The catalog accessors (`anyUuid`, `anyEmail`, ...), `RegexSpec` and `anyOf`. They hand off to `RegexPatterns` and `RegexCreatingProperty`, which are not part of this model.
- Regular-expression compilation and matching (`java.util.regex`). A pattern is known only by its source text. `Pattern.compile` rejecting a malformed regex (a thrown `PatternSyntaxException`) is not modelled.
- `RegexpUtils.escapeSpecialRegexWithSingleEscape`. It is an arbitrary function parameter; what it escapes is not stated.
- `file` and `fileAsBytes`. They read the filesystem.
- `fromRequest()`. `FromRequestDsl` is not part of this model.
- `StatusSpec`. It assigns constants from an `HttpStatus` class that is not part of this model. `HttpStatus` is represented only by its `code`.
- `toDslProperties` and `toDslProperty`. Their source is not part of this model. A body records the map, list or value it was built from. A status, delay or method name is stored as a single-valued property.
- The Java classes `DslProperty`, `Request`, `Response`, `Contract`, `Common` and the `HeadersDsl`, `CookiesDsl`, `MultipartDsl`, `BodyMatchersDsl`, `InputDsl`, `OutputMessageDsl` and `QueryParameters` builders are not part of this model. Each is a record holding what the modelled code stores in it. `Request()`, `Response()` and `Contract()` start with every nullable field unset and `async`, `ignored` and `inProgress` false.
- Common.ResponseValueOf: the single-argument overloads (`ClientDslProperty`, `DslProperty`, `Pattern`, `RegexProperty`, `Any?`) collapse into one function, because Dafny has no overloading. What the Java `Response.value` does with each argument is assumed, since that class is not part of this model. The example generator is a parameter `example`, and no property says what it generates.
- ResponseDsl.ValueOf: states the assumed behaviour of `response.value(x)` given for `Common.ResponseValueOf`, not behaviour read from the Java `Response` class.
- ResponseDsl.ValueClientServer: `response.value(client, server)` is assumed to pair like `common.value(client, server)`. Any check the Java `Response` class makes on its arguments, and any exception it raises, is not modelled, because that class is not part of this model.
- ResponseDsl.ValueServerClient: same assumption as `ResponseDsl.ValueClientServer`, with the arguments handed on in client-then-server order.
- ResponseDsl.DelayFixed: takes the whole milliseconds of the `Duration`. The `ArithmeticException` that `Duration.toMillis` raises on overflow is not modelled.
- `DslProperty` equality: `Single(x)` (Java `DslProperty(x)`) and `Dual(x, x)` (`DslProperty(x, x)`) hold the same value on both sides but are different values here. The Java class's `equals` is not part of this model, so no equality between the two forms is promised.
- Kotlin's 32-bit `Int` and 64-bit `Long` are unbounded integers. No modelled operation does arithmetic on them.
- Applying a matching strategy to a payload, JSON/XML structural equality, and checking that an example matches a pattern. No code modelled here does any of these.
