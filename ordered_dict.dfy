/** Python's `dict` with string keys, as its insertion-ordered list of
    entries: `d[k] = v` replaces the value of an existing key in place and
    appends a new key at the end. */
module OrderedDict {
  import opened Wrappers

  type Dict<V> = seq<(string, V)>

  /** The keys in insertion order (`list(d.keys())`). */
  function Keys<V>(d: Dict<V>): (ks: seq<string>)
    ensures |ks| == |d| && forall i :: 0 <= i < |d| ==> ks[i] == d[i].0
  {
    if d == [] then [] else [d[0].0] + Keys(d[1..])
  }

  /** `d.get(k)`. */
  function Get<V>(d: Dict<V>, k: string): Option<V>
  {
    if d == [] then None
    else if d[0].0 == k then Some(d[0].1)
    else Get(d[1..], k)
  }

  /** `d[k] = v`: a new key goes at the end, an existing key keeps its
      position; afterwards `k` maps to `v` and every other key keeps its
      value. */
  function Put<V>(d: Dict<V>, k: string, v: V): (r: Dict<V>)
    ensures k !in Keys(d) ==> r == d + [(k, v)]
    ensures k in Keys(d) ==> Keys(r) == Keys(d)
    ensures Get(r, k) == Some(v)
    ensures forall k' :: k' != k ==> Get(r, k') == Get(d, k')
  {
    if d == [] then [(k, v)]
    else if d[0].0 == k then
      assert ([(k, v)] + d[1..])[1..] == d[1..];
      [(k, v)] + d[1..]
    else
      var rest := Put(d[1..], k, v);
      assert ([d[0]] + rest)[1..] == rest;
      assert d + [(k, v)] == [d[0]] + (d[1..] + [(k, v)]);
      [d[0]] + rest
  }

  /** No key occurs twice. */
  predicate DistinctKeys<V>(d: Dict<V>)
  {
    forall i, j :: 0 <= i < j < |d| ==> d[i].0 != d[j].0
  }

  /** In a dictionary without repeated keys, looking up the key at
      position `i` gives the value at position `i`. */
  lemma {:induction false} GetAt<V>(d: Dict<V>, i: nat)
    requires DistinctKeys(d) && i < |d|
    ensures Get(d, d[i].0) == Some(d[i].1)
  {
    if i > 0 {
      GetAt(d[1..], i - 1);
    }
  }
}
