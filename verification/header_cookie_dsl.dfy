/**
  The builders handed to a `headers { }` or `cookies { }` block. Their base classes
  (`HeadersDsl`, `CookiesDsl`) are not part of this model beyond what the request and
  response DSLs use: the list of entries a block collects, `get()`, and the overridable
  `matching(value)`, which each request or response subclass replaces. The override is
  carried here as the builder's `matching` field, so the context that created the
  builder decides how a plain string is read.
 */
module HeaderCookieDsl {

  import opened Values

  datatype Headers = Headers(entries: seq<(string, Value)>)

  datatype Cookies = Cookies(entries: seq<(string, Value)>)

  datatype HeadersDsl = HeadersDsl(matching: Value -> Value, entries: seq<(string, Value)>)

  datatype CookiesDsl = CookiesDsl(matching: Value -> Value, entries: seq<(string, Value)>)

  /** A fresh header builder whose `matching` is the given override. */
  function NewHeadersDsl(matching: Value -> Value): (d: HeadersDsl)
    ensures d.entries == []
    ensures forall v :: d.matching(v) == matching(v)
  {
    HeadersDsl(matching, [])
  }

  /** A fresh cookie builder whose `matching` is the given override. */
  function NewCookiesDsl(matching: Value -> Value): (d: CookiesDsl)
    ensures d.entries == []
    ensures forall v :: d.matching(v) == matching(v)
  {
    CookiesDsl(matching, [])
  }

  /** `HeadersDsl.get()`: the headers the block collected. */
  function GetHeaders(d: HeadersDsl): (h: Headers)
    ensures h.entries == d.entries
  {
    Headers(d.entries)
  }

  /** `CookiesDsl.get()`: the cookies the block collected. */
  function GetCookies(d: CookiesDsl): (c: Cookies)
    ensures c.entries == d.entries
  {
    Cookies(d.entries)
  }
}
