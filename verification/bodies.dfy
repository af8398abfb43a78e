/**
  Request and response bodies, and the parts built by DSLs this model does not cover.
  The `body(...)` overloads of both DSLs store a `Body` built from a map, from pairs
  (through Kotlin's `toMap`), from a list or from any single value. The conversion
  `toDslProperties` that the map and list overloads apply is not part of this model: a
  body records the content it was built from, which determines the converted content.

  Kotlin's maps here are `LinkedHashMap`s, whose entries keep their insertion order, so
  a map is modelled as its sequence of entries, no key twice.
 */
module Bodies {

  import opened Nullable
  import opened Values

  /** No two entries share a key. */
  predicate DistinctKeys(entries: seq<(string, Value)>) {
    forall i, j :: 0 <= i < j < |entries| ==> entries[i].0 != entries[j].0
  }

  /** A Kotlin map in iteration order. */
  type LinkedMap = entries: seq<(string, Value)> | DistinctKeys(entries) witness []

  datatype BodyContent =
    | FromMap(entries: LinkedMap)
    | FromList(items: seq<Value>)
    | FromValue(value: Value)

  datatype Body = Body(content: BodyContent)

  /** Built by `MultipartDsl`, which is not part of this model. */
  datatype Multipart = Multipart(entries: seq<(string, Value)>)

  /** Built by `BodyMatchersDsl`, which is not part of this model. */
  datatype BodyMatchers = BodyMatchers(entries: seq<(string, Value)>)

  /** Some entry has key `k`. */
  predicate HasKey(entries: seq<(string, Value)>, k: string) {
    exists i :: 0 <= i < |entries| && entries[i].0 == k
  }

  /** No pair after index `i` has the key of pair `i`. */
  predicate LastWithKey(pairs: seq<(string, Value)>, i: int)
    requires 0 <= i < |pairs|
  {
    forall j :: i < j < |pairs| ==> pairs[j].0 != pairs[i].0
  }

  /** The keys of `a`, in order, are the first keys of `b`. */
  predicate KeysPrefix(a: seq<(string, Value)>, b: seq<(string, Value)>) {
    |a| <= |b| && forall i :: 0 <= i < |a| ==> a[i].0 == b[i].0
  }

  /** The position of key `k` in `m`, or `|m|` when no entry has it. */
  function IndexOf(m: seq<(string, Value)>, k: string): (i: nat)
    ensures i <= |m|
    ensures i < |m| ==> m[i].0 == k
    ensures forall j :: 0 <= j < i ==> m[j].0 != k
  {
    if |m| == 0 then 0
    else if m[0].0 == k then 0
    else 1 + IndexOf(m[1..], k)
  }

  /** `map[k]`: the value of the entry with key `k`, or null when there is none. */
  function Lookup(m: LinkedMap, k: string): (r: Option<Value>)
    ensures r.Some? <==> HasKey(m, k)
    ensures forall i :: 0 <= i < |m| && m[i].0 == k ==> r == Some(m[i].1)
  {
    var i := IndexOf(m, k);
    if i < |m| then Some(m[i].1) else None
  }

  /**
    `LinkedHashMap.put(k, v)`: a key already present keeps its position and takes the
    new value; a new key is appended at the end. No other entry changes.
   */
  function Put(m: LinkedMap, k: string, v: Value): (r: LinkedMap)
    ensures KeysPrefix(m, r)
    ensures HasKey(m, k) ==> |r| == |m|
    ensures !HasKey(m, k) ==> |r| == |m| + 1 && r[|m|] == (k, v)
    ensures forall i :: 0 <= i < |m| && m[i].0 != k ==> r[i] == m[i]
    ensures forall j :: HasKey(r, j) <==> HasKey(m, j) || j == k
    ensures Lookup(r, k) == Some(v)
    ensures forall j :: j != k ==> Lookup(r, j) == Lookup(m, j)
  {
    var i := IndexOf(m, k);
    if i < |m| then
      var r := m[i := (k, v)];
      assert forall j :: 0 <= j < |m| ==> r[j].0 == m[j].0;
      assert r[i] == (k, v);
      r
    else
      var r := m + [(k, v)];
      assert r[|m|] == (k, v);
      r
  }

  /**
    Kotlin's `toMap` on pairs: the pairs are put one after the other, so every key of
    some pair is present and nothing else is, a key sits where it first appears, and
    when a key repeats the last pair with that key gives its value.
   */
  function ToMap(pairs: seq<(string, Value)>): (m: LinkedMap)
    ensures forall k :: HasKey(m, k) <==> HasKey(pairs, k)
    ensures forall i {:trigger LastWithKey(pairs, i)} :: 0 <= i < |pairs| && LastWithKey(pairs, i) ==>
              Lookup(m, pairs[i].0) == Some(pairs[i].1)
  {
    if |pairs| == 0 then []
    else
      var n := |pairs| - 1;
      var init := pairs[..n];
      var last := pairs[n];
      var m0 := ToMap(init);
      HasKeySnoc(pairs);
      LastWithKeySnoc(pairs);
      var m := Put(m0, last.0, last.1);
      assert forall i :: 0 <= i < n && LastWithKey(pairs, i) ==> Lookup(m, pairs[i].0) == Some(pairs[i].1) by {
        forall i | 0 <= i < n && LastWithKey(pairs, i)
          ensures Lookup(m, pairs[i].0) == Some(pairs[i].1)
        {
          assert pairs[i] == init[i];
          assert Lookup(m0, init[i].0) == Some(init[i].1);
        }
      }
      m
  }

  /** The keys of a non-empty sequence are the keys of its prefix and the key of its last pair. */
  lemma HasKeySnoc(pairs: seq<(string, Value)>)
    requires |pairs| > 0
    ensures forall k :: HasKey(pairs, k) <==> HasKey(pairs[..|pairs| - 1], k) || pairs[|pairs| - 1].0 == k
  {
  }

  /** A pair of the prefix that is last with its key in the whole sequence is also last in the prefix. */
  lemma LastWithKeySnoc(pairs: seq<(string, Value)>)
    requires |pairs| > 0
    ensures forall i :: 0 <= i < |pairs| - 1 && LastWithKey(pairs, i) ==>
              LastWithKey(pairs[..|pairs| - 1], i) && pairs[i].0 != pairs[|pairs| - 1].0
  {
  }

  /**
    Insertion order: the map of any prefix of the pairs lists its keys in the same order
    as the first entries of the map of all the pairs; later pairs never move a key.
   */
  lemma {:induction false} ToMapKeepsOrder(pairs: seq<(string, Value)>, n: nat)
    requires n <= |pairs|
    ensures KeysPrefix(ToMap(pairs[..n]), ToMap(pairs))
    decreases |pairs| - n
  {
    if n == |pairs| {
      assert pairs[..n] == pairs;
    } else {
      var init := pairs[..|pairs| - 1];
      ToMapKeepsOrder(init, n);
      assert init[..n] == pairs[..n];
      var last := pairs[|pairs| - 1];
      assert ToMap(pairs) == Put(ToMap(init), last.0, last.1);
    }
  }

  /** With distinct keys, the map of the pairs is the pairs themselves, in order. */
  lemma {:induction false} ToMapOfDistinctKeys(pairs: seq<(string, Value)>)
    requires DistinctKeys(pairs)
    ensures ToMap(pairs) == pairs
  {
    if |pairs| > 0 {
      var init := pairs[..|pairs| - 1];
      var last := pairs[|pairs| - 1];
      ToMapOfDistinctKeys(init);
      assert !HasKey(init, last.0) by {
        forall i | 0 <= i < |init|
          ensures init[i].0 != last.0
        {
          assert init[i] == pairs[i];
        }
      }
      var m := Put(init, last.0, last.1);
      assert m == init + [last] by {
        forall i | 0 <= i < |init| ensures m[i] == init[i] {
          assert init[i] == pairs[i];
        }
      }
      assert init + [last] == pairs;
    }
  }

  /** `body(map)`. */
  function FromMapBody(entries: LinkedMap): (b: Body)
    ensures b.content.FromMap? && b.content.entries == entries
  {
    Body(FromMap(entries))
  }

  /** `body(vararg pairs)`: the map of the pairs, later pairs overriding earlier ones. */
  function FromPairsBody(pairs: seq<(string, Value)>): (b: Body)
    ensures b.content.FromMap? && b.content.entries == ToMap(pairs)
    ensures forall k :: HasKey(b.content.entries, k) <==> HasKey(pairs, k)
    ensures forall i :: 0 <= i < |pairs| && LastWithKey(pairs, i) ==>
              Lookup(b.content.entries, pairs[i].0) == Some(pairs[i].1)
  {
    Body(FromMap(ToMap(pairs)))
  }

  /** `body(pair)`: the one-entry map of the pair. */
  function FromPairBody(pair: (string, Value)): (b: Body)
    ensures b.content.FromMap? && b.content.entries == [pair]
  {
    Body(FromMap([pair]))
  }

  /** `body(list)`. */
  function FromListBody(items: seq<Value>): (b: Body)
    ensures b.content.FromList? && b.content.items == items
  {
    Body(FromList(items))
  }

  /** `body(any)`: the value itself, unconverted. */
  function FromValueBody(value: Value): (b: Body)
    ensures b.content.FromValue? && b.content.value == value
  {
    Body(FromValue(value))
  }

  /** `body(pair)` is `body(mapOf(pair))`, and so is `body(vararg pairs)` with one pair. */
  lemma PairBodyIsSingletonMapBody(pair: (string, Value))
    ensures FromPairBody(pair) == FromMapBody([pair])
    ensures FromPairsBody([pair]) == FromPairBody(pair)
  {
    ToMapOfDistinctKeys([pair]);
  }
}
