/**
 * Insertion-ordered dictionaries: the order in which Python's `dict.items()` and
 * JavaScript's `Object.values` visit entries. An entry list with distinct keys stands for
 * one dictionary; `Put` is `d[k] = v`, `Remove` is `del d[k]`, `AppendTo` is
 * `d.setdefault(k, []).append(v)`.
 */
module OrderedMap {
  import opened Wrappers

  type Entries<K, V> = seq<(K, V)>

  function Keys<K, V>(e: Entries<K, V>): (ks: seq<K>)
    ensures |ks| == |e|
  {
    if e == [] then [] else [e[0].0] + Keys(e[1..])
  }

  function Values<K, V>(e: Entries<K, V>): (vs: seq<V>)
    ensures |vs| == |e|
    ensures forall i :: 0 <= i < |e| ==> vs[i] == e[i].1
  {
    if e == [] then [] else [e[0].1] + Values(e[1..])
  }

  /** No key occurs twice: the entry list stands for one dictionary. */
  predicate DistinctKeys<K(==), V>(e: Entries<K, V>) {
    e == [] || (e[0].0 !in Keys(e[1..]) && DistinctKeys(e[1..]))
  }

  /** `d.get(k)`: the value stored under `k`, if any. */
  function Get<K(==), V>(e: Entries<K, V>, k: K): (r: Option<V>)
    ensures r.None? <==> k !in Keys(e)
  {
    if e == [] then None
    else if e[0].0 == k then Some(e[0].1)
    else Get(e[1..], k)
  }

  /** `d[k] = v`: an existing key keeps its position, a new key goes last. */
  function Put<K(==), V>(e: Entries<K, V>, k: K, v: V): (r: Entries<K, V>)
    ensures Get(r, k) == Some(v)
  {
    if e == [] then [(k, v)]
    else if e[0].0 == k then [(k, v)] + e[1..]
    else [e[0]] + Put(e[1..], k, v)
  }

  lemma {:induction false} PutKeys<K, V>(e: Entries<K, V>, k: K, v: V)
    ensures Keys(Put(e, k, v)) == if k in Keys(e) then Keys(e) else Keys(e) + [k]
  {
    if e == [] {
      assert Keys(Put(e, k, v)) == [k];
    } else if e[0].0 == k {
      assert Put(e, k, v)[1..] == e[1..];
    } else {
      PutKeys(e[1..], k, v);
      assert Put(e, k, v)[1..] == Put(e[1..], k, v);
    }
  }

  lemma {:induction false} PutOther<K, V>(e: Entries<K, V>, k: K, v: V, k': K)
    requires k' != k
    ensures Get(Put(e, k, v), k') == Get(e, k')
  {
    if e != [] && e[0].0 != k {
      PutOther(e[1..], k, v, k');
    }
  }

  lemma {:induction false} PutDistinct<K, V>(e: Entries<K, V>, k: K, v: V)
    requires DistinctKeys(e)
    ensures DistinctKeys(Put(e, k, v))
  {
    if e != [] && e[0].0 != k {
      PutDistinct(e[1..], k, v);
      PutKeys(e[1..], k, v);
    }
  }

  /** `del d[k]`: every entry under `k` goes, the others keep their order. */
  function Remove<K(==), V>(e: Entries<K, V>, k: K): (r: Entries<K, V>)
    ensures k !in Keys(r)
  {
    if e == [] then []
    else if e[0].0 == k then Remove(e[1..], k)
    else [e[0]] + Remove(e[1..], k)
  }

  lemma {:induction false} RemoveOther<K, V>(e: Entries<K, V>, k: K, k': K)
    requires k' != k
    ensures Get(Remove(e, k), k') == Get(e, k')
    ensures k' in Keys(Remove(e, k)) <==> k' in Keys(e)
  {
    if e != [] {
      RemoveOther(e[1..], k, k');
    }
  }

  lemma {:induction false} RemoveAbsent<K, V>(e: Entries<K, V>, k: K)
    requires k !in Keys(e)
    ensures Remove(e, k) == e
  {
    if e != [] {
      RemoveAbsent(e[1..], k);
    }
  }

  lemma {:induction false} RemoveDistinct<K, V>(e: Entries<K, V>, k: K)
    requires DistinctKeys(e)
    ensures DistinctKeys(Remove(e, k))
  {
    if e != [] {
      RemoveDistinct(e[1..], k);
      if e[0].0 != k {
        RemoveOther(e[1..], k, e[0].0);
      }
    }
  }

  /** `d[k] = v` leaves every other key's value as it was. */
  lemma PutOthers<K, V>(e: Entries<K, V>, k: K, v: V)
    ensures forall k' :: k' != k ==> Get(Put(e, k, v), k') == Get(e, k')
  {
    forall k' | k' != k
      ensures Get(Put(e, k, v), k') == Get(e, k')
    {
      PutOther(e, k, v, k');
    }
  }

  /** `del d[k]` leaves every other key's value as it was. */
  lemma RemoveOthers<K, V>(e: Entries<K, V>, k: K)
    ensures forall k' :: k' != k ==> Get(Remove(e, k), k') == Get(e, k')
  {
    forall k' | k' != k
      ensures Get(Remove(e, k), k') == Get(e, k')
    {
      RemoveOther(e, k, k');
    }
  }

  /** Deleting a key that was just added gives back the dictionary as it was, order included. */
  lemma {:induction false} PutThenRemove<K, V>(e: Entries<K, V>, k: K, v: V)
    requires k !in Keys(e)
    ensures Remove(Put(e, k, v), k) == e
  {
    if e != [] {
      assert k != e[0].0;
      PutThenRemove(e[1..], k, v);
      assert Put(e, k, v) == [e[0]] + Put(e[1..], k, v);
      assert Remove(Put(e, k, v), k) == [e[0]] + Remove(Put(e[1..], k, v), k);
    }
  }

  /** `d.setdefault(k, []).append(x)`. */
  function AppendTo<K(==), X>(e: Entries<K, seq<X>>, k: K, x: X): Entries<K, seq<X>> {
    Put(e, k, Get(e, k).GetOr([]) + [x])
  }

  /** The values logged under `k`, in log order. */
  function ValuesFor<K(==), X>(log: seq<(K, X)>, k: K): seq<X>
  {
    if log == [] then []
    else
      var last := log[|log| - 1];
      ValuesFor(log[..|log| - 1], k) + (if last.0 == k then [last.1] else [])
  }

  /** The keys of `log` in order of first occurrence. */
  function FirstOccurrences<K(==), X>(log: seq<(K, X)>): seq<K>
  {
    if log == [] then []
    else
      var prev := FirstOccurrences(log[..|log| - 1]);
      var k := log[|log| - 1].0;
      if k in prev then prev else prev + [k]
  }

  /** Repeated `setdefault(k, []).append(x)` over a log, starting from `{}`. */
  function GroupBy<K(==), X>(log: seq<(K, X)>): Entries<K, seq<X>>
  {
    if log == [] then []
    else
      var last := log[|log| - 1];
      AppendTo(GroupBy(log[..|log| - 1]), last.0, last.1)
  }

  /** The groups have distinct keys, listed in order of first occurrence in the log. */
  lemma {:induction false} GroupByKeys<K, X>(log: seq<(K, X)>)
    ensures DistinctKeys(GroupBy(log))
    ensures Keys(GroupBy(log)) == FirstOccurrences(log)
  {
    if log != [] {
      var init := log[..|log| - 1];
      var last := log[|log| - 1];
      GroupByKeys(init);
      var xs := Get(GroupBy(init), last.0).GetOr([]) + [last.1];
      PutKeys(GroupBy(init), last.0, xs);
      PutDistinct(GroupBy(init), last.0, xs);
    }
  }

  /**
   * Grouping keeps every logged value: the group under `k` holds exactly the values
   * logged under `k`, in log order, and a key never logged has no group.
   */
  lemma {:induction false} GroupByGet<K, X>(log: seq<(K, X)>, k: K)
    ensures Get(GroupBy(log), k) == if ValuesFor(log, k) == [] then None else Some(ValuesFor(log, k))
  {
    if log != [] {
      var init := log[..|log| - 1];
      var last := log[|log| - 1];
      GroupByGet(init, k);
      var g := GroupBy(init);
      var xs := Get(g, last.0).GetOr([]) + [last.1];
      assert GroupBy(log) == Put(g, last.0, xs);
      if k != last.0 {
        PutOther(g, last.0, xs, k);
        assert ValuesFor(log, k) == ValuesFor(init, k) + [];
        assert Get(GroupBy(log), k) == Get(g, k);
        assert ValuesFor(log, k) == ValuesFor(init, k);
      } else {
        assert ValuesFor(log, k) == ValuesFor(init, k) + [last.1];
      }
    }
  }
}
