// Counting the entries of a finite map whose value satisfies a predicate.
// Every atomic counter of the pools is shown equal to such a count.

module Counting {

  datatype Option<+T> = None | Some(value: T)

  /** The keys of `m` whose value satisfies `p`. */
  ghost function Keys<K, V>(m: map<K, V>, p: V -> bool): set<K> {
    set k | k in m && p(m[k])
  }

  /** How many keys of `m` have a value satisfying `p`. */
  ghost function Count<K, V>(m: map<K, V>, p: V -> bool): nat {
    |Keys(m, p)|
  }

  /** One if `b` holds, zero otherwise. */
  ghost function Bit(b: bool): nat {
    if b then 1 else 0
  }

  /** Writing one entry changes a count by the old and the new value of that entry only. */
  lemma CountUpdate<K, V>(m: map<K, V>, k: K, v: V, p: V -> bool)
    ensures Count(m[k := v], p) == Count(m, p) - Bit(k in m && p(m[k])) + Bit(p(v))
  {
    var rest := Keys(m, p) - {k};
    if p(v) {
      assert Keys(m[k := v], p) == rest + {k};
    } else {
      assert Keys(m[k := v], p) == rest;
    }
    if k in m && p(m[k]) {
      assert Keys(m, p) == rest + {k};
    } else {
      assert Keys(m, p) == rest;
    }
  }

  /** A count is zero exactly when no entry satisfies the predicate. */
  lemma CountZero<K, V>(m: map<K, V>, p: V -> bool)
    ensures Count(m, p) == 0 <==> forall k :: k in m ==> !p(m[k])
  {
    if Count(m, p) == 0 {
      forall k | k in m
        ensures !p(m[k])
      {
        assert k !in Keys(m, p);
      }
    }
  }

  /** An entry satisfying the predicate makes the count positive. */
  lemma CountPositive<K, V>(m: map<K, V>, k: K, p: V -> bool)
    requires k in m && p(m[k])
    ensures Count(m, p) > 0
  {
    CountZero(m, p);
  }

  /** A positive count has a witness. */
  lemma CountWitness<K, V>(m: map<K, V>, p: V -> bool) returns (k: K)
    requires Count(m, p) > 0
    ensures k in m && p(m[k])
  {
    var ks := Keys(m, p);
    assert ks != {};
    k :| k in ks;
  }

  /** Maps that agree on the predicate, key by key, have the same count. */
  lemma CountSame<K, V>(m: map<K, V>, m': map<K, V>, p: V -> bool)
    requires m.Keys == m'.Keys
    requires forall k :: k in m ==> p(m[k]) == p(m'[k])
    ensures Count(m, p) == Count(m', p)
  {
    assert Keys(m, p) == Keys(m', p);
  }

  /** If the keys in `gone` all change from satisfying `p` to not satisfying it, the count drops by their number. */
  lemma CountLoses<K, V>(m: map<K, V>, m': map<K, V>, gone: set<K>, p: V -> bool)
    requires m.Keys == m'.Keys && gone <= m.Keys
    requires forall k :: k in m ==> p(m'[k]) == (p(m[k]) && k !in gone)
    requires forall k :: k in gone ==> p(m[k])
    ensures Count(m', p) == Count(m, p) - |gone|
  {
    assert Keys(m', p) == Keys(m, p) - gone;
    assert gone <= Keys(m, p);
  }

  /** A predicate that implies another has no larger a count. */
  lemma CountImplies<K, V>(m: map<K, V>, p: V -> bool, q: V -> bool)
    requires forall k :: k in m && p(m[k]) ==> q(m[k])
    ensures Count(m, p) <= Count(m, q)
  {
    SubsetSize(Keys(m, p), Keys(m, q));
  }

  /** If every entry satisfies exactly one of two predicates, the two counts add up to the size of the map. */
  lemma CountPartition<K, V>(m: map<K, V>, p: V -> bool, q: V -> bool)
    requires forall k :: k in m ==> p(m[k]) != q(m[k])
    ensures |m.Keys| == Count(m, p) + Count(m, q)
  {
    assert m.Keys == Keys(m, p) + Keys(m, q);
    assert Keys(m, p) !! Keys(m, q);
  }

  /** The count of a disjoint union of predicates is the sum of their counts. */
  lemma CountUnion<K, V(!new)>(m: map<K, V>, p: V -> bool, q: V -> bool, either: V -> bool)
    requires forall v :: either(v) == (p(v) || q(v))
    requires forall v :: !(p(v) && q(v))
    ensures Count(m, either) == Count(m, p) + Count(m, q)
  {
    assert Keys(m, either) == Keys(m, p) + Keys(m, q);
    assert Keys(m, p) !! Keys(m, q);
  }

  /** A subset is no larger than its superset. */
  lemma SubsetSize<T>(a: set<T>, b: set<T>)
    requires a <= b
    ensures |a| <= |b|
  {
    assert b == a + (b - a);
  }

  /** The set of the first `n` numbers has `n` elements. */
  lemma {:induction false} RangeSize(s: set<int>, n: int)
    requires n >= 0 && forall x :: x in s <==> 0 <= x < n
    ensures |s| == n
  {
    if n == 0 {
      assert forall x :: x in s ==> 0 <= x < 0;
      assert s == {};
    } else {
      RangeSize(s - {n - 1}, n - 1);
    }
  }
}
