/**
 * `Array.from(map.values())` for a `Map<number, V>` whose keys come from an increasing
 * counter starting at 1: a `Map` iterates in insertion order, overwriting a key keeps
 * its place, and every key was inserted after all smaller ones, so the iteration order
 * is ascending key order.
 */
module Keyed {

  /** The keys of `m` in `[1, hi)`. */
  function KeysBelow<V>(m: map<int, V>, hi: int): (r: set<int>)
    decreases hi
    ensures forall k :: k in r <==> k in m && 1 <= k < hi
  {
    if hi <= 1 then {} else KeysBelow(m, hi - 1) + (if hi - 1 in m then {hi - 1} else {})
  }

  /** The values of the keys `1 .. hi-1` of `m`, in ascending key order. */
  function ValuesBelow<V>(m: map<int, V>, hi: int): (r: seq<V>)
    decreases hi
    ensures |r| == |KeysBelow(m, hi)|
    ensures forall i :: 0 <= i < |r| ==> exists k :: 1 <= k < hi && k in m && m[k] == r[i]
    ensures forall k :: 1 <= k < hi && k in m ==> m[k] in r
  {
    if hi <= 1 then
      []
    else
      var prefix := ValuesBelow(m, hi - 1);
      if hi - 1 in m then
        assert hi - 1 !in KeysBelow(m, hi - 1);
        prefix + [m[hi - 1]]
      else
        prefix
  }

  /** When every key lies below `hi`, the listing holds as many values as the map has keys. */
  lemma AllKeysBelow<V>(m: map<int, V>, hi: int)
    requires forall k :: k in m ==> 1 <= k < hi
    ensures |ValuesBelow(m, hi)| == |m|
  {
    assert KeysBelow(m, hi) == m.Keys;
  }

  /** A map whose keys are exactly `1 .. hi-1` has `hi - 1` entries. */
  lemma DenseSize<V>(m: map<int, V>, hi: int)
    requires hi >= 1
    requires forall k :: k in m <==> 1 <= k < hi
    ensures |m| == hi - 1
  {
    DenseKeys(m, hi);
    assert KeysBelow(m, hi) == m.Keys;
  }

  lemma {:induction false} DenseKeys<V>(m: map<int, V>, hi: int)
    requires hi >= 1
    requires forall k :: 1 <= k < hi ==> k in m
    ensures |KeysBelow(m, hi)| == hi - 1
  {
    if hi > 1 {
      DenseKeys(m, hi - 1);
      assert hi - 1 !in KeysBelow(m, hi - 1);
    }
  }
}
