/**
  The values the contract DSL stores at its leaves: Kotlin's `Any`, restricted to the
  shapes the modelled builders construct or inspect.
  - `Pattern` is the source text of a regular expression; `CompiledPattern` is a
    compiled `java.util.regex.Pattern` handed over as a value, `RegexProperty` the
    contract's own regex wrapper, `NotToEscapePattern` a pattern taken literally.
  - `DslProperty` is the Java class of the same name: a value with a client (consumer,
    stub) side and a server (producer, test) side, built from one value or from two.
  - `MatchingStrategy` pairs a comparison value with the kind of comparison.
 */
module Values {

  datatype Pattern = Pattern(source: string)

  /** `MatchingStrategy.Type`, restricted to the constants the request DSL uses. */
  datatype MatchingType =
    | EQUAL_TO
    | CONTAINS
    | MATCHING
    | NOT_MATCHING
    | EQUAL_TO_XML
    | EQUAL_TO_JSON
    | ABSENT

  datatype Value =
    | Null
    | Text(s: string)
    | Number(n: int)
    | Flag(b: bool)
    | CompiledPattern(compiled: Pattern)
    | RegexProperty(regex: Pattern)
    | NotToEscapePattern(pattern: Pattern)
    | Property(property: DslProperty)
    | Strategy(strategy: MatchingStrategy)

  /** `DslProperty(value)` holds one value for both sides; `DslProperty(client, server)` two. */
  datatype DslProperty =
    | Single(value: Value)
    | Dual(clientValue: Value, serverValue: Value)
  {
    /** The value a stub (the consumer side) uses. */
    function ClientValue(): Value {
      match this
      case Single(v) => v
      case Dual(c, _) => c
    }

    /** The value a generated test (the producer side) uses. */
    function ServerValue(): Value {
      match this
      case Single(v) => v
      case Dual(_, s) => s
    }
  }

  datatype MatchingStrategy = MatchingStrategy(value: Value, kind: MatchingType)

  /** The same property read from the other side of the contract. */
  function Swap(p: DslProperty): (q: DslProperty)
    ensures q.ClientValue() == p.ServerValue()
    ensures q.ServerValue() == p.ClientValue()
    ensures q.Single? <==> p.Single?
  {
    match p
    case Single(v) => Single(v)
    case Dual(c, s) => Dual(s, c)
  }
}
