/**
 * Insertion-ordered dictionaries keyed by strings, as a sequence of
 * (key, value) pairs. Both dictionaries of the collector (table name to
 * schema, property name to type) are enumerated in insertion order by the
 * renderer, so the order is part of the model.
 */
module OrderedMaps {
  import opened Wrappers

  /** The keys in insertion order. */
  function Keys<V>(m: seq<(string, V)>): (ks: seq<string>)
    ensures |ks| == |m|
    ensures forall i :: 0 <= i < |m| ==> ks[i] == m[i].0
  {
    seq(|m|, i requires 0 <= i < |m| => m[i].0)
  }

  /** The keys of a map are the keys of all but its last pair, then the last key. */
  lemma KeysSnoc<V>(m: seq<(string, V)>)
    requires m != []
    ensures Keys(m) == Keys(m[..|m| - 1]) + [m[|m| - 1].0]
  {
  }

  /** No key occurs twice. */
  ghost predicate DistinctKeys<V>(m: seq<(string, V)>)
  {
    forall i, j :: 0 <= i < j < |m| ==> m[i].0 != m[j].0
  }

  /** `ContainsKey` and the indexer: the value stored under `key`, if any. */
  function Lookup<V>(m: seq<(string, V)>, key: string): (r: Option<V>)
    ensures r.None? <==> key !in Keys(m)
    ensures r.Some? ==> exists i :: 0 <= i < |m| && m[i] == (key, r.value)
  {
    if m == [] then None
    else if m[0].0 == key then Some(m[0].1)
    else
      var r := Lookup(m[1..], key);
      assert Keys(m) == [m[0].0] + Keys(m[1..]);
      if r.Some? then
        ghost var i :| 0 <= i < |m[1..]| && m[1..][i] == (key, r.value);
        assert m[i + 1] == (key, r.value);
        r
      else r
  }

  /** With distinct keys the lookup finds the pair stored at any position. */
  lemma {:induction false} LookupAt<V>(m: seq<(string, V)>, i: nat)
    requires DistinctKeys(m) && i < |m|
    ensures Lookup(m, m[i].0) == Some(m[i].1)
  {
    if i > 0 {
      LookupAt(m[1..], i - 1);
    }
  }
}
