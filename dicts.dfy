/**
  Insertion-ordered dictionaries with string keys, the way CPython's `dict`
  behaves: the pairs are kept in the order their keys were first inserted,
  assigning to a present key replaces its value in place, and assigning to an
  absent key appends it.
*/
module Dicts {
  import opened Wrappers

  /** The items of a dict, in insertion order. */
  type Assoc<V> = seq<(string, V)>

  /** The keys, in insertion order (`list(d)`). */
  function Keys<V>(a: Assoc<V>): (ks: seq<string>)
    ensures |ks| == |a|
  {
    if a == [] then [] else [a[0].0] + Keys(a[1..])
  }

  /** The values, in insertion order (`list(d.values())`). */
  function Values<V>(a: Assoc<V>): (vs: seq<V>)
    ensures |vs| == |a|
    ensures forall i :: 0 <= i < |a| ==> vs[i] == a[i].1
  {
    if a == [] then [] else [a[0].1] + Values(a[1..])
  }

  /** The i-th key is the key of the i-th item. */
  lemma {:induction false} KeysAt<V>(a: Assoc<V>, i: nat)
    requires i < |a|
    ensures Keys(a)[i] == a[i].0
  {
    if i > 0 {
      KeysAt(a[1..], i - 1);
    }
  }

  /** `k in d` */
  predicate HasKey<V>(a: Assoc<V>, k: string) {
    k in Keys(a)
  }

  /** Every Python dict has this: no key occurs twice. */
  ghost predicate DistinctKeys<V>(a: Assoc<V>) {
    forall i, j :: 0 <= i < j < |a| ==> a[i].0 != a[j].0
  }

  /** `d.get(k)`, as an Option. */
  function Get<V>(a: Assoc<V>, k: string): (r: Option<V>)
    ensures r.Some? <==> HasKey(a, k)
  {
    if a == [] then None
    else if a[0].0 == k then Some(a[0].1)
    else Get(a[1..], k)
  }

  /** `d.get(k, default)` */
  function GetOr<V>(a: Assoc<V>, k: string, default: V): V {
    Get(a, k).GetOr(default)
  }

  /** `d[k] = v`: replaces the value of a present key where it stands, appends an absent one. */
  function Put<V>(a: Assoc<V>, k: string, v: V): (r: Assoc<V>)
    ensures Get(r, k) == Some(v)
    ensures forall k' :: k' != k ==> Get(r, k') == Get(a, k')
    ensures Keys(r) == if HasKey(a, k) then Keys(a) else Keys(a) + [k]
  {
    if a == [] then [(k, v)]
    else if a[0].0 == k then [(k, v)] + a[1..]
    else [a[0]] + Put(a[1..], k, v)
  }

  /** The dict whose first item is `k: v`, followed by the items of `rest` (which does not hold `k`). */
  function Cons<V>(k: string, v: V, rest: Assoc<V>): (r: Assoc<V>)
    ensures r == [(k, v)] + rest
    ensures Get(r, k) == Some(v)
    ensures forall k' :: k' != k ==> Get(r, k') == Get(rest, k')
    ensures Keys(r) == [k] + Keys(rest)
  {
    var r := [(k, v)] + rest;
    assert r[1..] == rest;
    r
  }

  /** `a.update(b)`: the items of `b` assigned into `a`, in `b`'s order. */
  function Update<V>(a: Assoc<V>, b: Assoc<V>): (r: Assoc<V>)
    ensures forall k :: !HasKey(b, k) ==> Get(r, k) == Get(a, k)
    ensures forall k :: HasKey(a, k) || HasKey(b, k) <==> HasKey(r, k)
    decreases |b|
  {
    if b == [] then a else Update(Put(a, b[0].0, b[0].1), b[1..])
  }

  /** Assigning into a dict keeps its keys distinct. */
  lemma {:induction false} PutDistinct<V>(a: Assoc<V>, k: string, v: V)
    requires DistinctKeys(a)
    ensures DistinctKeys(Put(a, k, v))
  {
    var r := Put(a, k, v);
    forall i, j | 0 <= i < j < |r| ensures r[i].0 != r[j].0 {
      KeysAt(r, i);
      KeysAt(r, j);
      KeysAt(a, i);
      if j < |a| {
        KeysAt(a, j);
      }
    }
  }

  /** The items after the first of a dict still have distinct keys. */
  lemma DistinctTail<V>(a: Assoc<V>)
    requires a != [] && DistinctKeys(a)
    ensures DistinctKeys(a[1..])
  {
    forall i, j | 0 <= i < j < |a[1..]| ensures a[1..][i].0 != a[1..][j].0 {
      assert a[1..][i] == a[i + 1] && a[1..][j] == a[j + 1];
    }
  }

  /** Adding a fresh key to a dict adds it after the others: its keys are the old keys followed by `rest`'s. */
  lemma PutFreshKeys<V>(a: Assoc<V>, k: string, v: V, rest: seq<string>)
    requires !HasKey(a, k)
    ensures Keys(Put(a, k, v)) + rest == Keys(a) + ([k] + rest)
  {
  }

  /** In a dict with distinct keys, looking up the key of the i-th item gives its value. */
  lemma {:induction false} GetAt<V>(a: Assoc<V>, i: nat)
    requires DistinctKeys(a) && i < |a|
    ensures Get(a, a[i].0) == Some(a[i].1)
  {
    if i > 0 {
      assert a[0].0 != a[i].0;
      assert a[1..][i - 1] == a[i];
      GetAt(a[1..], i - 1);
    }
  }

  /** A lookup that succeeds finds the value of some item with that key. */
  lemma {:induction false} GetSome<V>(a: Assoc<V>, k: string)
    requires Get(a, k).Some?
    ensures exists i :: 0 <= i < |a| && a[i].0 == k && a[i].1 == Get(a, k).value
  {
    if a[0].0 != k {
      GetSome(a[1..], k);
      var i :| 0 <= i < |a[1..]| && a[1..][i].0 == k && a[1..][i].1 == Get(a[1..], k).value;
      assert a[i + 1] == a[1..][i];
    }
  }
}
