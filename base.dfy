/** Shared vocabulary: optional values, the exceptions the router distinguishes,
    the outcome of a step that may raise, and Python dictionaries modelled as
    association lists that keep insertion order. */
module Base {

  datatype Option<+T> = None | Some(value: T)

  /** The exceptions the router tells apart: a WazuhException carries its own
      numeric code and message; every other exception only its text, str(e). */
  datatype Exc =
    | WazuhError(code: int, message: string)
    | OtherError(message: string)

  /** The result of a step that either returns a value or raises. */
  datatype Outcome<+T> = Returned(value: T) | Raised(exc: Exc)

  /** The keys of a dictionary. */
  function Keys<K, V>(d: seq<(K, V)>): set<K>
  {
    if d == [] then {} else {d[0].0} + Keys(d[1..])
  }

  /** No key occurs twice, as in every Python dict. */
  ghost predicate DistinctKeys<K, V>(d: seq<(K, V)>)
  {
    forall i, j :: 0 <= i < j < |d| ==> d[i].0 != d[j].0
  }

  /** d[k] when k is a key (the first entry with that key). */
  function Lookup<K(==), V>(d: seq<(K, V)>, k: K): (r: Option<V>)
    ensures r.Some? <==> k in Keys(d)
  {
    if d == [] then None
    else if d[0].0 == k then Some(d[0].1)
    else Lookup(d[1..], k)
  }

  /** d[k] = v: an existing entry keeps its position, a new key goes last. */
  function Put<K(==,!new), V>(d: seq<(K, V)>, k: K, v: V): (r: seq<(K, V)>)
    ensures Lookup(r, k) == Some(v)
    ensures forall k' :: k' != k ==> Lookup(r, k') == Lookup(d, k')
    ensures Keys(r) == Keys(d) + {k}
    ensures k !in Keys(d) ==> r == d + [(k, v)]
  {
    if d == [] then [(k, v)]
    else if d[0].0 == k then [(k, v)] + d[1..]
    else [d[0]] + Put(d[1..], k, v)
  }

  /** del d[k] (for a key that is present; otherwise d unchanged). */
  function Remove<K(==,!new), V>(d: seq<(K, V)>, k: K): (r: seq<(K, V)>)
    ensures Lookup(r, k) == None
    ensures forall k' :: k' != k ==> Lookup(r, k') == Lookup(d, k')
    ensures Keys(r) == Keys(d) - {k}
  {
    if d == [] then []
    else if d[0].0 == k then Remove(d[1..], k)
    else [d[0]] + Remove(d[1..], k)
  }

  /** d[k] = v never repeats a key. */
  lemma {:induction false} PutKeepsDistinct<K(!new), V>(d: seq<(K, V)>, k: K, v: V)
    ensures DistinctKeys(d) ==> DistinctKeys(Put(d, k, v))
  {
    if !DistinctKeys(d) {
    } else if d != [] && d[0].0 != k {
      PutKeepsDistinct(d[1..], k, v);
      var r := Put(d, k, v);
      assert r == [d[0]] + Put(d[1..], k, v);
      forall j | 0 < j < |r| ensures r[j].0 != d[0].0 {
        assert r[j].0 in Keys(Put(d[1..], k, v)) by { KeyAt(Put(d[1..], k, v), j - 1); }
        NotInTail(d);
      }
    } else if d != [] {
      var r := Put(d, k, v);
      assert forall j :: 0 < j < |r| ==> r[j] == d[j];
    }
  }

  lemma {:induction false} KeyAt<K, V>(d: seq<(K, V)>, i: nat)
    requires i < |d|
    ensures d[i].0 in Keys(d)
  {
    if i > 0 { KeyAt(d[1..], i - 1); }
  }

  lemma {:induction false} KeysHaveIndex<K, V>(d: seq<(K, V)>, k: K)
    requires k in Keys(d)
    ensures exists i :: 0 <= i < |d| && d[i].0 == k
  {
    if d[0].0 != k {
      KeysHaveIndex(d[1..], k);
      var i :| 0 <= i < |d[1..]| && d[1..][i].0 == k;
      assert d[i + 1].0 == k;
    }
  }

  lemma {:induction false} AbsentKey<K, V>(d: seq<(K, V)>, k: K)
    requires forall i :: 0 <= i < |d| ==> d[i].0 != k
    ensures k !in Keys(d)
  {
    if d != [] {
      AbsentKey(d[1..], k);
    }
  }

  lemma NotInTail<K, V>(d: seq<(K, V)>)
    requires d != [] && DistinctKeys(d)
    ensures d[0].0 !in Keys(d[1..])
  {
    forall i | 0 <= i < |d[1..]| ensures d[1..][i].0 != d[0].0 {
      assert d[1..][i] == d[i + 1];
    }
    AbsentKey(d[1..], d[0].0);
  }

  /** In a dictionary without repeated keys, the entry at position i is d[d[i].0]. */
  lemma {:induction false} LookupAt<K, V>(d: seq<(K, V)>, i: nat)
    requires i < |d| && forall j :: 0 <= j < i ==> d[j].0 != d[i].0
    ensures Lookup(d, d[i].0) == Some(d[i].1)
  {
    if i > 0 {
      LookupAt(d[1..], i - 1);
    }
  }

  /** In a dictionary without repeated keys, a key sits at exactly one
      position, and d[k] is the value there. */
  lemma PositionOfKey<K, V>(d: seq<(K, V)>, k: K) returns (p: nat)
    requires DistinctKeys(d) && k in Keys(d)
    ensures p < |d| && d[p].0 == k && Lookup(d, k) == Some(d[p].1)
    ensures forall q :: 0 <= q < |d| && q != p ==> d[q].0 != k
  {
    KeysHaveIndex(d, k);
    p :| 0 <= p < |d| && d[p].0 == k;
    LookupAt(d, p);
  }
}
