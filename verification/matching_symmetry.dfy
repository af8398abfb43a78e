/**
  The request and response header/cookie `matching` overrides are mirror images of each
  other: a request reads a plain string as a prefix pattern on the consumer side and as
  the literal on the producer side, a response the other way round.
 */
module MatchingSymmetry {

  import opened Values
  import RequestDsl
  import ResponseDsl

  /** For cookies the two sides are exactly swapped. */
  lemma CookiesMirror(escape: string -> string, s: string)
    ensures RequestDsl.RequestCookiesMatching(escape, Text(s)).property
            == Swap(ResponseDsl.ResponseCookiesMatching(escape, Text(s)).property)
  {
  }

  /**
    For headers the sides are swapped too; only the wrapper of the pattern differs
    (a regex property on requests, a pattern not to be escaped again on responses).
   */
  lemma HeadersMirror(escape: string -> string, s: string)
    ensures RequestDsl.RequestHeadersMatching(escape, Text(s)).property.ServerValue()
            == ResponseDsl.ResponseHeadersMatching(escape, Text(s)).property.ClientValue()
    ensures RequestDsl.RequestHeadersMatching(escape, Text(s)).property.ClientValue().regex
            == ResponseDsl.ResponseHeadersMatching(escape, Text(s)).property.ServerValue().pattern
  {
  }

  /** Only strings are rewritten; `null` and every other value pass through both sides unchanged. */
  lemma OnlyStringsRewritten(escape: string -> string, value: Value)
    ensures !value.Text? ==>
              && RequestDsl.RequestHeadersMatching(escape, value) == value
              && RequestDsl.RequestCookiesMatching(escape, value) == value
              && ResponseDsl.ResponseHeadersMatching(escape, value) == value
              && ResponseDsl.ResponseCookiesMatching(escape, value) == value
    ensures value.Text? ==>
              && RequestDsl.RequestHeadersMatching(escape, value) != value
              && RequestDsl.RequestCookiesMatching(escape, value) != value
              && ResponseDsl.ResponseHeadersMatching(escape, value) != value
              && ResponseDsl.ResponseCookiesMatching(escape, value) != value
  {
  }
}
