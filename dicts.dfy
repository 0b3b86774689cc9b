/**
 * Python's `dict`, which remembers insertion order: a sequence of key-value pairs.
 * `d[k] = v` replaces the value in place when `k` is present and appends otherwise.
 */
module Dicts {
  import opened Wrappers

  type Dict<K, V> = seq<(K, V)>

  function Keys<K, V>(d: Dict<K, V>): (r: seq<K>)
    ensures |r| == |d| && forall i :: 0 <= i < |d| ==> r[i] == d[i].0
  {
    if d == [] then [] else [d[0].0] + Keys(d[1..])
  }

  /** No key occurs twice: every `dict` value is of this shape. */
  predicate Valid<K(==), V>(d: Dict<K, V>) {
    forall i, j :: 0 <= i < j < |d| ==> d[i].0 != d[j].0
  }

  /** `d.get(k)`. */
  function Get<K(==), V>(d: Dict<K, V>, k: K): (r: Option<V>)
    ensures r.None? <==> k !in Keys(d)
  {
    if d == [] then None else if d[0].0 == k then Some(d[0].1) else Get(d[1..], k)
  }

  /** `d[k] = v`. */
  function Set<K(==), V>(d: Dict<K, V>, k: K, v: V): (r: Dict<K, V>)
    ensures k in Keys(d) ==> |r| == |d|
    ensures k !in Keys(d) ==> r == d + [(k, v)]
  {
    if d == [] then [(k, v)]
    else if d[0].0 == k then [(k, v)] + d[1..]
    else [d[0]] + Set(d[1..], k, v)
  }

  /** After `d[k] = v`, `k` maps to `v` and every other key keeps its value. */
  lemma {:induction false} GetSet<K, V>(d: Dict<K, V>, k: K, v: V, k': K)
    ensures Get(Set(d, k, v), k') == if k' == k then Some(v) else Get(d, k')
  {
    if d != [] && d[0].0 != k {
      GetSet(d[1..], k, v, k');
    }
  }

  /** `d[k] = v` keeps the order of the keys and appends a new key at the end. */
  lemma {:induction false} KeysSet<K, V>(d: Dict<K, V>, k: K, v: V)
    ensures Keys(Set(d, k, v)) == if k in Keys(d) then Keys(d) else Keys(d) + [k]
  {
    if d != [] && d[0].0 != k {
      KeysSet(d[1..], k, v);
      assert Keys(d) == [d[0].0] + Keys(d[1..]);
    }
  }

  lemma ValidSet<K, V>(d: Dict<K, V>, k: K, v: V)
    requires Valid(d)
    ensures Valid(Set(d, k, v))
  {
    KeysSet(d, k, v);
  }

  /** `for k, v in pairs: d[k] = v`. */
  function SetAll<K(==), V>(d: Dict<K, V>, pairs: seq<(K, V)>): Dict<K, V>
  {
    if pairs == [] then d
    else var last := pairs[|pairs| - 1]; Set(SetAll(d, pairs[..|pairs| - 1]), last.0, last.1)
  }

  /** The value of the last pair with key `k`, the one a later assignment leaves behind. */
  function LastValue<K(==), V>(pairs: seq<(K, V)>, k: K): Option<V>
  {
    if pairs == [] then None
    else if pairs[|pairs| - 1].0 == k then Some(pairs[|pairs| - 1].1)
    else LastValue(pairs[..|pairs| - 1], k)
  }

  /** After the loop, a key set by `pairs` holds its last value; every other key is untouched. */
  lemma {:induction false} GetSetAll<K, V>(d: Dict<K, V>, pairs: seq<(K, V)>, k: K)
    ensures Get(SetAll(d, pairs), k) == if LastValue(pairs, k).Some? then LastValue(pairs, k) else Get(d, k)
  {
    if pairs != [] {
      var last := pairs[|pairs| - 1];
      GetSetAll(d, pairs[..|pairs| - 1], k);
      GetSet(SetAll(d, pairs[..|pairs| - 1]), last.0, last.1, k);
    }
  }

  /** The loop keeps every existing key, in its place. */
  lemma {:induction false} KeysSetAll<K, V>(d: Dict<K, V>, pairs: seq<(K, V)>)
    ensures |Keys(SetAll(d, pairs))| >= |Keys(d)| && Keys(SetAll(d, pairs))[..|d|] == Keys(d)
  {
    if pairs != [] {
      var last := pairs[|pairs| - 1];
      var m := SetAll(d, pairs[..|pairs| - 1]);
      KeysSetAll(d, pairs[..|pairs| - 1]);
      KeysSet(m, last.0, last.1);
    }
  }

  lemma {:induction false} ValidSetAll<K, V>(d: Dict<K, V>, pairs: seq<(K, V)>)
    requires Valid(d)
    ensures Valid(SetAll(d, pairs))
  {
    if pairs != [] {
      ValidSetAll(d, pairs[..|pairs| - 1]);
      ValidSet(SetAll(d, pairs[..|pairs| - 1]), pairs[|pairs| - 1].0, pairs[|pairs| - 1].1);
    }
  }

  /** `{k: v for k, v in pairs}` on a duplicate-free list rebuilds exactly that list. */
  lemma {:induction false} SetAllOfValid<K, V>(pairs: seq<(K, V)>)
    requires Valid(pairs)
    ensures SetAll([], pairs) == pairs
  {
    if pairs != [] {
      var init := pairs[..|pairs| - 1];
      var last := pairs[|pairs| - 1];
      assert Valid(init);
      SetAllOfValid(init);
      assert last.0 !in Keys(init) by {
        forall i | 0 <= i < |init| ensures Keys(init)[i] != last.0 {
          assert init[i] == pairs[i];
        }
      }
      assert init + [last] == pairs;
    }
  }
}
