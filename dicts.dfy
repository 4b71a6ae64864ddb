/** Python dictionaries, which remember insertion order: an association list with distinct keys. */
module Dicts {
  import opened Wrappers

  type Dict<K, V> = seq<(K, V)>

  function Keys<K, V>(d: Dict<K, V>): (r: seq<K>)
    ensures |r| == |d| && forall i :: 0 <= i < |d| ==> r[i] == d[i].0
  {
    seq(|d|, i requires 0 <= i < |d| => d[i].0)
  }

  predicate UniqueKeys<K(==), V>(d: Dict<K, V>) {
    forall i, j :: 0 <= i < j < |d| ==> d[i].0 != d[j].0
  }

  /** Position of the first occurrence of k in ks. */
  function IndexIn<K(==)>(ks: seq<K>, k: K): (r: nat)
    requires k in ks
    ensures r < |ks| && ks[r] == k
    ensures forall j :: 0 <= j < r ==> ks[j] != k
  {
    if ks[0] == k then 0 else 1 + IndexIn(ks[1..], k)
  }

  /** `d.get(k)`. */
  function Lookup<K(==), V>(d: Dict<K, V>, k: K): (r: Option<V>)
    ensures r.None? <==> k !in Keys(d)
  {
    if k in Keys(d) then Some(d[IndexIn(Keys(d), k)].1) else None
  }

  /** `d[k] = v`: an existing key keeps its position and takes the new value; a new key goes last. */
  function Put<K(==,!new), V>(d: Dict<K, V>, k: K, v: V): (r: Dict<K, V>)
    requires UniqueKeys(d)
    ensures UniqueKeys(r)
    ensures k in Keys(d) ==> Keys(r) == Keys(d)
    ensures k !in Keys(d) ==> r == d + [(k, v)]
    ensures Lookup(r, k) == Some(v)
    ensures forall k' :: k' != k ==> Lookup(r, k') == Lookup(d, k')
  {
    if k in Keys(d) then
      var i := IndexIn(Keys(d), k);
      var r := d[i := (k, v)];
      assert Keys(r) == Keys(d);
      r
    else
      var r := d + [(k, v)];
      assert Keys(r) == Keys(d) + [k];
      assert forall k' :: k' in Keys(d) ==> IndexIn(Keys(r), k') == IndexIn(Keys(d), k');
      r
  }

  /** After `d[k] = v` the keys are the old keys and k. */
  lemma PutKeys<K(!new), V>(d: Dict<K, V>, k: K, v: V)
    requires UniqueKeys(d)
    ensures forall k' :: k' in Keys(Put(d, k, v)) <==> k' in Keys(d) || k' == k
  {
    forall k' ensures k' in Keys(Put(d, k, v)) <==> k' in Keys(d) || k' == k {
      assert Lookup(Put(d, k, v), k').None? <==> k' !in Keys(Put(d, k, v));
    }
  }

  /** Looking up a key after a Put: the new value for the key put, the old lookup for any other. */
  lemma LookupPut<K(!new), V>(d: Dict<K, V>, r: Dict<K, V>, k: K, v: V, key: K)
    requires UniqueKeys(d) && r == Put(d, k, v)
    ensures Lookup(r, key) == if key == k then Some(v) else Lookup(d, key)
  {
  }

  lemma KeysAppend<K, V>(d: Dict<K, V>, x: (K, V))
    ensures Keys(d + [x]) == Keys(d) + [x.0]
  {
  }

  /** The dict built by assigning each pair in turn, `d[k] = v` for every (k, v) of es. */
  function FromPairs<K(==,!new), V>(es: seq<(K, V)>): (r: Dict<K, V>)
    ensures UniqueKeys(r) && |r| <= |es|
  {
    if es == [] then [] else Put(FromPairs(es[..|es| - 1]), es[|es| - 1].0, es[|es| - 1].1)
  }

  /** The keys of the dict are the keys assigned. */
  lemma {:induction false} FromPairsKeys<K(!new), V>(es: seq<(K, V)>)
    ensures forall k :: k in Keys(FromPairs(es)) <==> k in Keys(es)
  {
    if es != [] {
      var init := es[..|es| - 1];
      FromPairsKeys(init);
      PutKeys(FromPairs(init), es[|es| - 1].0, es[|es| - 1].1);
      KeysAppend(init, es[|es| - 1]);
      assert init + [es[|es| - 1]] == es;
    }
  }

  /** A key holds the value of its last assignment. */
  lemma {:induction false} FromPairsLastWins<K(!new), V>(es: seq<(K, V)>, i: nat)
    requires i < |es| && forall j :: i < j < |es| ==> es[j].0 != es[i].0
    ensures Lookup(FromPairs(es), es[i].0) == Some(es[i].1)
  {
    var init := es[..|es| - 1];
    if i < |es| - 1 {
      assert forall j :: i < j < |init| ==> init[j] == es[j];
      FromPairsLastWins(init, i);
    }
    LookupPut(FromPairs(init), FromPairs(es), es[|es| - 1].0, es[|es| - 1].1, es[i].0);
  }

  /** Assigning pairs whose keys are already distinct builds the pairs themselves. */
  lemma {:induction false} FromPairsUnique<K(!new), V>(es: seq<(K, V)>)
    requires UniqueKeys(es)
    ensures FromPairs(es) == es
  {
    if es != [] {
      var init := es[..|es| - 1];
      assert UniqueKeys(init);
      FromPairsUnique(init);
      assert es[|es| - 1].0 !in Keys(init);
      assert init + [es[|es| - 1]] == es;
    }
  }
}
