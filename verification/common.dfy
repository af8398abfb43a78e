/**
  The helpers the response DSL reaches through its `common` and `response` objects
  (ResponseDsl.kt:178-244). The Java classes behind them, `Common` and `Response`, are
  not part of this model; these definitions state the behaviour the response DSL
  relies on:
  - `common.c(x)` and `common.p(x)` wrap one value as a client- or server-side property;
  - `common.value(client, server)` takes the client side of the first and the server
    side of the second;
  - `response.value(x)` keeps a property as it is; a regular expression goes to the
    server (producer) side, where a generated test checks against it, and the client
    side gets an example string generated from it; any other value stands for both
    sides.
  `common.regex(s)` is `ValueSpec.Regex`.
 */
module Common {

  import opened Values

  /** `c(x)`: a `ClientDslProperty` holding `x`. */
  function C(clientValue: Value): (r: DslProperty)
    ensures r.ClientValue() == clientValue
  {
    Single(clientValue)
  }

  /** `p(x)`: a `ServerDslProperty` holding `x`. */
  function P(serverValue: Value): (r: DslProperty)
    ensures r.ServerValue() == serverValue
  {
    Single(serverValue)
  }

  /** `value(client, server)`: the client side of `client` paired with the server side of `server`. */
  function ValuePair(client: DslProperty, server: DslProperty): (r: DslProperty)
    ensures r.ClientValue() == client.ClientValue()
    ensures r.ServerValue() == server.ServerValue()
  {
    Dual(client.ClientValue(), server.ServerValue())
  }

  /** A value that is a regular expression: a compiled `Pattern` or a `RegexProperty`. */
  predicate IsRegex(value: Value) {
    value.CompiledPattern? || value.RegexProperty?
  }

  function RegexOf(value: Value): Pattern
    requires IsRegex(value)
  {
    if value.CompiledPattern? then value.compiled else value.regex
  }

  /**
    The single-argument `response.value(x)` overloads. `example` stands for the
    generator that produces a string matching a regular expression; the generator is
    not part of this model.
   */
  function ResponseValueOf(example: Pattern -> Value, value: Value): (r: DslProperty)
    ensures value.Property? ==> r == value.property
    ensures IsRegex(value) ==> r.Dual? && r.ServerValue() == value && r.ClientValue() == example(RegexOf(value))
    ensures !value.Property? && !IsRegex(value) ==> r.Single? && r.ClientValue() == value && r.ServerValue() == value
  {
    match value
    case Property(p) => p
    case CompiledPattern(p) => Dual(example(p), value)
    case RegexProperty(p) => Dual(example(p), value)
    case _ => Single(value)
  }
}
