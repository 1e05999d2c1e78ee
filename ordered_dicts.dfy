/**
 * Python dictionaries keep insertion order; `d.update({k: v})` replaces the
 * value of an existing key in place and appends a new key at the end. A dict
 * is modelled as its sequence of entries.
 */
module OrderedDicts {
  import opened Wrappers
  import Seqs

  type Entries<K, V> = seq<(K, V)>

  function Keys<K, V>(d: Entries<K, V>): (ks: seq<K>)
    ensures |ks| == |d|
    ensures forall i :: 0 <= i < |d| ==> ks[i] == d[i].0
  {
    if |d| == 0 then [] else [d[0].0] + Keys(d[1..])
  }

  predicate UniqueKeys<K(==), V>(d: Entries<K, V>) {
    forall i, j :: 0 <= i < j < |d| ==> d[i].0 != d[j].0
  }

  /** `d.get(k)`. */
  function Get<K(==), V>(d: Entries<K, V>, k: K): Option<V> {
    if |d| == 0 then None
    else if d[0].0 == k then Some(d[0].1)
    else Get(d[1..], k)
  }

  /** `d.update({k: v})`. */
  function Update<K(==), V>(d: Entries<K, V>, k: K, v: V): Entries<K, V> {
    if |d| == 0 then [(k, v)]
    else if d[0].0 == k then [(k, v)] + d[1..]
    else [d[0]] + Update(d[1..], k, v)
  }

  /** `for k, v in kvs: d.update({k: v})`. */
  function UpdateAll<K(==), V>(d: Entries<K, V>, kvs: seq<(K, V)>): Entries<K, V>
    decreases |kvs|
  {
    if |kvs| == 0 then d
    else Update(UpdateAll(d, kvs[..|kvs| - 1]), kvs[|kvs| - 1].0, kvs[|kvs| - 1].1)
  }

  /** Key equality, the notion of sameness of dictionary keys. */
  ghost function SameKey<K>(): (K, K) -> bool {
    (a: K, b: K) => a == b
  }

  /** The value of the last pair with key `k`. */
  function LastValue<K(==), V>(kvs: seq<(K, V)>, k: K): Option<V>
    decreases |kvs|
  {
    if |kvs| == 0 then None
    else if kvs[|kvs| - 1].0 == k then Some(kvs[|kvs| - 1].1)
    else LastValue(kvs[..|kvs| - 1], k)
  }

  lemma {:induction false} GetUpdate<K, V>(d: Entries<K, V>, k: K, v: V, k': K)
    ensures Get(Update(d, k, v), k') == if k' == k then Some(v) else Get(d, k')
  {
    if |d| > 0 && d[0].0 != k {
      GetUpdate(d[1..], k, v, k');
      assert Update(d, k, v)[1..] == Update(d[1..], k, v);
    }
  }

  /** An existing key keeps its position; a new key goes last. */
  lemma {:induction false} KeysUpdate<K, V>(d: Entries<K, V>, k: K, v: V)
    ensures Keys(Update(d, k, v)) == if k in Keys(d) then Keys(d) else Keys(d) + [k]
  {
    if |d| > 0 {
      assert Keys(d) == [d[0].0] + Keys(d[1..]);
      if d[0].0 != k {
        KeysUpdate(d[1..], k, v);
        assert Update(d, k, v) == [d[0]] + Update(d[1..], k, v);
        assert Keys(Update(d, k, v)) == [d[0].0] + Keys(Update(d[1..], k, v));
      } else {
        assert Keys(Update(d, k, v)) == [k] + Keys(d[1..]);
      }
    }
  }

  /** After a run of updates, every key maps to the last value given for it. */
  lemma {:induction false} GetUpdateAll<K, V>(d: Entries<K, V>, kvs: seq<(K, V)>, k: K)
    ensures Get(UpdateAll(d, kvs), k) == if LastValue(kvs, k).Some? then LastValue(kvs, k) else Get(d, k)
    decreases |kvs|
  {
    if |kvs| > 0 {
      GetUpdateAll(d, kvs[..|kvs| - 1], k);
      GetUpdate(UpdateAll(d, kvs[..|kvs| - 1]), kvs[|kvs| - 1].0, kvs[|kvs| - 1].1, k);
    }
  }

  /** Updating an empty dict keeps the keys in the order each was first given. */
  lemma {:induction false} KeysUpdateAll<K, V>(kvs: seq<(K, V)>)
    ensures Keys(UpdateAll([], kvs)) == Seqs.DedupBy(Keys(kvs), SameKey<K>())
    decreases |kvs|
  {
    if |kvs| > 0 {
      var pre := kvs[..|kvs| - 1];
      var last := kvs[|kvs| - 1];
      KeysUpdateAll(pre);
      KeysUpdate(UpdateAll([], pre), last.0, last.1);
      assert Keys(kvs)[..|kvs| - 1] == Keys(pre);
      var d := Seqs.DedupBy(Keys(pre), SameKey<K>());
      assert Seqs.HasEq(d, last.0, SameKey<K>()) <==> last.0 in d;
    }
  }

  lemma {:induction false} UpdateKeepsUnique<K, V>(d: Entries<K, V>, k: K, v: V)
    requires UniqueKeys(d)
    ensures UniqueKeys(Update(d, k, v))
  {
    KeysUpdate(d, k, v);
    var r := Update(d, k, v);
    assert forall i :: 0 <= i < |r| ==> r[i].0 == Keys(r)[i];
    assert forall i :: 0 <= i < |d| ==> d[i].0 == Keys(d)[i];
  }

  lemma {:induction false} UpdateAllKeepsUnique<K, V>(d: Entries<K, V>, kvs: seq<(K, V)>)
    requires UniqueKeys(d)
    ensures UniqueKeys(UpdateAll(d, kvs))
    decreases |kvs|
  {
    if |kvs| > 0 {
      UpdateAllKeepsUnique(d, kvs[..|kvs| - 1]);
      UpdateKeepsUnique(UpdateAll(d, kvs[..|kvs| - 1]), kvs[|kvs| - 1].0, kvs[|kvs| - 1].1);
    }
  }

  /** Updating with entries whose keys are new and distinct just appends them. */
  lemma {:induction false} UpdateAllFresh<K, V>(d: Entries<K, V>, kvs: seq<(K, V)>)
    requires UniqueKeys(kvs)
    requires forall i, j :: 0 <= i < |d| && 0 <= j < |kvs| ==> d[i].0 != kvs[j].0
    ensures UpdateAll(d, kvs) == d + kvs
    decreases |kvs|
  {
    if |kvs| > 0 {
      var pre := kvs[..|kvs| - 1];
      var last := kvs[|kvs| - 1];
      UpdateAllFresh(d, pre);
      UpdateAppendsNew(d + pre, last.0, last.1);
      assert pre + [last] == kvs;
    }
  }

  lemma {:induction false} UpdateAppendsNew<K, V>(d: Entries<K, V>, k: K, v: V)
    requires forall i :: 0 <= i < |d| ==> d[i].0 != k
    ensures Update(d, k, v) == d + [(k, v)]
  {
    if |d| > 0 {
      UpdateAppendsNew(d[1..], k, v);
    }
  }

  /** With distinct keys, the last value given for a key is its only one. */
  lemma {:induction false} LastValueUnique<K, V>(kvs: seq<(K, V)>, i: nat)
    requires UniqueKeys(kvs) && i < |kvs|
    ensures LastValue(kvs, kvs[i].0) == Some(kvs[i].1)
    decreases |kvs|
  {
    if i < |kvs| - 1 {
      var pre := kvs[..|kvs| - 1];
      assert UniqueKeys(pre);
      LastValueUnique(pre, i);
    }
  }

  /** Updates never remove a key nor move one: the old keys stay a prefix. */
  lemma {:induction false} KeysUpdateAllExtends<K, V>(d: Entries<K, V>, kvs: seq<(K, V)>)
    ensures |d| <= |UpdateAll(d, kvs)|
    ensures Keys(UpdateAll(d, kvs))[..|d|] == Keys(d)
    decreases |kvs|
  {
    if |kvs| > 0 {
      var mid := UpdateAll(d, kvs[..|kvs| - 1]);
      KeysUpdateAllExtends(d, kvs[..|kvs| - 1]);
      KeysUpdate(mid, kvs[|kvs| - 1].0, kvs[|kvs| - 1].1);
      var ks := Keys(UpdateAll(d, kvs));
      assert ks[..|mid|] == Keys(mid);
      assert ks[..|d|] == ks[..|mid|][..|d|];
    }
  }

  /** An update writes the pair it is given and keeps the other entries: nothing else appears. */
  lemma {:induction false} UpdateEntriesFrom<K, V>(d: Entries<K, V>, k: K, v: V)
    ensures forall e :: e in Update(d, k, v) ==> e in d || e == (k, v)
  {
    if |d| > 0 && d[0].0 != k {
      UpdateEntriesFrom(d[1..], k, v);
    }
  }

  lemma {:induction false} UpdateAllEntriesFrom<K, V>(d: Entries<K, V>, kvs: seq<(K, V)>)
    ensures forall e :: e in UpdateAll(d, kvs) ==> e in d || e in kvs
    decreases |kvs|
  {
    if |kvs| > 0 {
      var pre := kvs[..|kvs| - 1];
      UpdateAllEntriesFrom(d, pre);
      UpdateEntriesFrom(UpdateAll(d, pre), kvs[|kvs| - 1].0, kvs[|kvs| - 1].1);
      assert forall e :: e in pre ==> e in kvs;
    }
  }
}
