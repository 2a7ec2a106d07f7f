/**
 * Key-by-key assignment of one map into another, the `for k, v := range src
 * { dst[k] = v }` loop that the sink uses to merge configured headers and
 * fields, to inject custom fields into events and to set request headers.
 */
module Maps {

  /** `base` after every entry of `top` has been written into it. */
  function Overlay<K, V>(base: map<K, V>, top: map<K, V>): (r: map<K, V>)
    ensures r.Keys == base.Keys + top.Keys
    ensures forall k :: k in top ==> r[k] == top[k]
    ensures forall k :: k in base && k !in top ==> r[k] == base[k]
  {
    base + top
  }

  /** Writes the entries of `top` into `m` one key at a time. */
  method SetAll<K, V>(m: map<K, V>, top: map<K, V>) returns (r: map<K, V>)
    ensures r == Overlay(m, top)
  {
    r := m;
    var todo := top.Keys;
    while todo != {}
      invariant todo <= top.Keys
      invariant r == Overlay(m, map k | k in top.Keys - todo :: top[k])
      decreases todo
    {
      var k :| k in todo;
      r := r[k := top[k]];
      todo := todo - {k};
    }
    assert top == map k | k in top.Keys - todo :: top[k];
  }

  /** Writing the same entries twice changes nothing the second time. */
  lemma OverlayIdempotent<K, V>(base: map<K, V>, top: map<K, V>)
    ensures Overlay(Overlay(base, top), top) == Overlay(base, top)
  {
  }
}
