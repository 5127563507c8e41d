/** Shared result types, and the iteration orders of finite maps. */
module Prelude {

  datatype Option<+T> = None | Some(value: T)

  datatype Result<+T, +E> = Ok(value: T) | Err(error: E)

  /** `order` is one possible iteration order of the entries of `m`: every key once, nothing else. */
  ghost predicate Enumerates<K(!new), V>(order: seq<K>, m: map<K, V>) {
    && (forall k :: k in order <==> k in m)
    && (forall i, j :: 0 <= i < j < |order| ==> order[i] != order[j])
  }

  lemma {:induction false} SomeOrder<V>(m: map<string, V>) returns (order: seq<string>)
    ensures Enumerates(order, m)
    decreases |m|
  {
    if m == map[] {
      order := [];
    } else {
      var k :| k in m;
      var rest := SomeOrder(m - {k});
      order := rest + [k];
    }
  }

  /** Any key can come first. */
  lemma OrderFrom<V>(m: map<string, V>, k: string) returns (order: seq<string>)
    requires k in m
    ensures Enumerates(order, m) && order[0] == k
  {
    var rest := SomeOrder(m - {k});
    assert k !in rest;
    order := [k] + rest;
  }
}
