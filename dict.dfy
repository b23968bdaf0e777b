/**
 * Insertion-ordered dictionaries (Python `dict`/`defaultdict`, JavaScript `Map` and plain
 * objects) as association lists, and the stable descending sort that Python's
 * `sorted(..., reverse=True)` and JavaScript's `Array.prototype.sort` with a `b - a`
 * comparator perform.
 */
module Dict {
  import opened Common

  /** The keys of an association list, in insertion order. */
  function Keys<K, V>(d: seq<(K, V)>): (ks: seq<K>)
    ensures |ks| == |d|
    ensures forall i :: 0 <= i < |d| ==> ks[i] == d[i].0
  {
    if d == [] then [] else [d[0].0] + Keys(d[1..])
  }

  ghost predicate Distinct<K>(ks: seq<K>) {
    forall i, j :: 0 <= i < j < |ks| ==> ks[i] != ks[j]
  }

  /** Lookup: the value of the entry with key `k`. */
  function Get<K(==), V>(d: seq<(K, V)>, k: K): Option<V> {
    if d == [] then None else if d[0].0 == k then Some(d[0].1) else Get(d[1..], k)
  }

  /** A lookup finds a value exactly when the key is present. */
  lemma {:induction false} GetKeys<K, V>(d: seq<(K, V)>, k: K)
    ensures Get(d, k).None? <==> k !in Keys(d)
  {
    if d != [] {
      GetKeys(d[1..], k);
      assert Keys(d) == [d[0].0] + Keys(d[1..]);
    }
  }

  /**
   * `d[k] = v` / `map.set(k, v)`: an existing key keeps its position and takes the new value,
   * a new key is appended at the end.
   */
  function Put<K(==), V>(d: seq<(K, V)>, k: K, v: V): seq<(K, V)> {
    if d == [] then [(k, v)]
    else if d[0].0 == k then [(k, v)] + d[1..]
    else [d[0]] + Put(d[1..], k, v)
  }

  lemma {:induction false} PutKeys<K, V>(d: seq<(K, V)>, k: K, v: V)
    ensures Keys(Put(d, k, v)) == if k in Keys(d) then Keys(d) else Keys(d) + [k]
  {
    if d != [] {
      PutKeys(d[1..], k, v);
      assert Keys(d) == [d[0].0] + Keys(d[1..]);
      if d[0].0 != k {
        assert Keys(Put(d, k, v)) == [d[0].0] + Keys(Put(d[1..], k, v));
      }
    }
  }

  lemma {:induction false} GetPut<K, V>(d: seq<(K, V)>, k: K, v: V, k': K)
    ensures Get(Put(d, k, v), k') == if k' == k then Some(v) else Get(d, k')
  {
    if d != [] && d[0].0 != k {
      GetPut(d[1..], k, v, k');
    }
  }

  /** A lookup's value is the value of an entry with that key. */
  lemma {:induction false} GetEntry<K, V>(d: seq<(K, V)>, k: K)
    requires Get(d, k).Some?
    ensures (k, Get(d, k).value) in d
  {
    if d[0].0 != k {
      GetEntry(d[1..], k);
    }
  }

  /** Writing a key leaves the other entries as they were. */
  lemma {:induction false} PutEntries<K, V>(d: seq<(K, V)>, k: K, v: V)
    ensures forall e :: e in Put(d, k, v) ==> e == (k, v) || e in d
  {
    if d != [] && d[0].0 != k {
      PutEntries(d[1..], k, v);
    }
  }

  /** `del d[k]` / `map.delete(k)`: every entry with key `k` goes, the others keep their order. */
  function Delete<K(==), V>(d: seq<(K, V)>, k: K): (r: seq<(K, V)>)
    ensures |r| <= |d|
  {
    if d == [] then []
    else if d[0].0 == k then Delete(d[1..], k)
    else [d[0]] + Delete(d[1..], k)
  }

  lemma {:induction false} GetDelete<K, V>(d: seq<(K, V)>, k: K, k': K)
    ensures Get(Delete(d, k), k') == if k' == k then None else Get(d, k')
  {
    if d != [] {
      GetDelete(d[1..], k, k');
    }
  }

  /** Deleting keeps only entries that were there, none of them with key `k`. */
  lemma {:induction false} DeleteEntries<K, V>(d: seq<(K, V)>, k: K)
    ensures forall e :: e in Delete(d, k) ==> e in d && e.0 != k
  {
    if d != [] {
      DeleteEntries(d[1..], k);
    }
  }

  lemma {:induction false} DeleteKeepsDistinct<K, V>(d: seq<(K, V)>, k: K)
    requires Distinct(Keys(d))
    ensures Distinct(Keys(Delete(d, k)))
  {
    if d != [] {
      var t := d[1..];
      assert Distinct(Keys(t)) by {
        forall i, j | 0 <= i < j < |Keys(t)| ensures Keys(t)[i] != Keys(t)[j] {
          assert Keys(t)[i] == Keys(d)[i + 1] && Keys(t)[j] == Keys(d)[j + 1];
        }
      }
      DeleteKeepsDistinct(t, k);
      if d[0].0 != k {
        var r := Delete(t, k);
        DeleteEntries(t, k);
        forall i, j | 0 <= i < j < |Keys([d[0]] + r)| ensures Keys([d[0]] + r)[i] != Keys([d[0]] + r)[j] {
          if i == 0 {
            assert r[j - 1] in t;
            var m :| 0 <= m < |t| && t[m] == r[j - 1];
            assert Keys(d)[m + 1] == r[j - 1].0;
          } else {
            assert Keys(r)[i - 1] != Keys(r)[j - 1];
          }
        }
      }
    }
  }

  lemma {:induction false} PutKeepsDistinct<K, V>(d: seq<(K, V)>, k: K, v: V)
    requires Distinct(Keys(d))
    ensures Distinct(Keys(Put(d, k, v)))
  {
    var ks := Keys(d);
    PutKeys(d, k, v);
    if k !in ks {
      assert Keys(Put(d, k, v)) == ks + [k];
    }
  }

  /** The sum of the values of a dictionary with numeric values. */
  function SumValues<K>(d: seq<(K, real)>): real {
    if d == [] then 0.0 else d[0].1 + SumValues(d[1..])
  }

  lemma {:induction false} SumValuesPut<K>(d: seq<(K, real)>, k: K, v: real)
    ensures SumValues(Put(d, k, v)) == SumValues(d) - Get(d, k).GetOr(0.0) + v
  {
    if d != [] && d[0].0 != k {
      SumValuesPut(d[1..], k, v);
    }
  }

  // ---------------------------------------------------------------------------------------
  // Stable descending sort by a numeric key
  // ---------------------------------------------------------------------------------------

  /** Places `x` after every element whose key is strictly larger, before the rest. */
  function InsertDesc<T>(x: T, t: seq<T>, f: T -> real): (r: seq<T>)
    ensures |r| == |t| + 1
  {
    if t == [] then [x]
    else if f(t[0]) > f(x) then [t[0]] + InsertDesc(x, t[1..], f)
    else [x] + t
  }

  /**
   * Stable sort, largest key first: among elements with equal keys the one that came first in
   * `s` comes first in the result.
   */
  function SortDesc<T>(s: seq<T>, f: T -> real): (r: seq<T>)
    ensures |r| == |s|
  {
    if s == [] then [] else InsertDesc(s[0], SortDesc(s[1..], f), f)
  }

  ghost predicate SortedDesc<T>(s: seq<T>, f: T -> real) {
    forall i, j :: 0 <= i < j < |s| ==> f(s[i]) >= f(s[j])
  }

  /** The elements of `s` whose key is `v`, in order. */
  function WithKey<T>(s: seq<T>, f: T -> real, v: real): seq<T> {
    if s == [] then [] else (if f(s[0]) == v then [s[0]] else []) + WithKey(s[1..], f, v)
  }

  lemma {:induction false} InsertDescPerm<T>(x: T, t: seq<T>, f: T -> real)
    ensures multiset(InsertDesc(x, t, f)) == multiset(t) + multiset{x}
  {
    if t != [] && f(t[0]) > f(x) {
      InsertDescPerm(x, t[1..], f);
      assert t == [t[0]] + t[1..];
    }
  }

  lemma {:induction false} InsertDescSorted<T>(x: T, t: seq<T>, f: T -> real)
    requires SortedDesc(t, f)
    ensures SortedDesc(InsertDesc(x, t, f), f)
  {
    if t != [] && f(t[0]) > f(x) {
      var rest := InsertDesc(x, t[1..], f);
      InsertDescSorted(x, t[1..], f);
      InsertDescPerm(x, t[1..], f);
      var ins := [t[0]] + rest;
      assert InsertDesc(x, t, f) == ins;
      forall i, j | 0 <= i < j < |ins| ensures f(ins[i]) >= f(ins[j]) {
        var y := rest[j - 1];
        assert ins[j] == y;
        if i > 0 {
          assert ins[i] == rest[i - 1];
        } else {
          assert y in multiset(rest);
          if y != x {
            assert y in multiset(t[1..]);
            var m :| 0 <= m < |t[1..]| && t[1..][m] == y;
            assert t[m + 1] == y;
          }
        }
      }
    }
  }

  lemma {:induction false} InsertDescWithKey<T>(x: T, t: seq<T>, f: T -> real, v: real)
    ensures WithKey(InsertDesc(x, t, f), f, v) == (if f(x) == v then [x] else []) + WithKey(t, f, v)
  {
    if t == [] {
      assert WithKey([x], f, v) == (if f(x) == v then [x] else []) + WithKey([], f, v);
    } else if f(t[0]) > f(x) {
      var rest := InsertDesc(x, t[1..], f);
      InsertDescWithKey(x, t[1..], f, v);
      var a := if f(t[0]) == v then [t[0]] else [];
      var b := if f(x) == v then [x] else [];
      assert ([t[0]] + rest)[1..] == rest;
      assert WithKey([t[0]] + rest, f, v) == a + WithKey(rest, f, v);
      assert WithKey(t, f, v) == a + WithKey(t[1..], f, v);
      assert a + b == b + a by {
        if f(x) == v { assert a == []; } else { assert b == []; }
      }
      calc {
        WithKey(InsertDesc(x, t, f), f, v);
        a + (b + WithKey(t[1..], f, v));
        (a + b) + WithKey(t[1..], f, v);
        (b + a) + WithKey(t[1..], f, v);
        b + WithKey(t, f, v);
      }
    } else {
      assert ([x] + t)[1..] == t;
      assert WithKey([x] + t, f, v) == (if f(x) == v then [x] else []) + WithKey(t, f, v);
    }
  }

  /**
   * The sort is sorted, a permutation, and stable: for every key value the elements carrying
   * it appear in their original order.
   */
  lemma {:induction false} SortDescFacts<T>(s: seq<T>, f: T -> real)
    ensures SortedDesc(SortDesc(s, f), f)
    ensures multiset(SortDesc(s, f)) == multiset(s)
    ensures forall v :: WithKey(SortDesc(s, f), f, v) == WithKey(s, f, v)
  {
    if s != [] {
      SortDescFacts(s[1..], f);
      InsertDescSorted(s[0], SortDesc(s[1..], f), f);
      InsertDescPerm(s[0], SortDesc(s[1..], f), f);
      forall v ensures WithKey(SortDesc(s, f), f, v) == WithKey(s, f, v) {
        InsertDescWithKey(s[0], SortDesc(s[1..], f), f, v);
      }
      assert s == [s[0]] + s[1..];
    }
  }

  function SumBy<T>(s: seq<T>, f: T -> real): real {
    if s == [] then 0.0 else f(s[0]) + SumBy(s[1..], f)
  }

  lemma {:induction false} SumByInsert<T>(x: T, t: seq<T>, f: T -> real)
    ensures SumBy(InsertDesc(x, t, f), f) == f(x) + SumBy(t, f)
  {
    if t != [] && f(t[0]) > f(x) {
      SumByInsert(x, t[1..], f);
      assert InsertDesc(x, t, f)[1..] == InsertDesc(x, t[1..], f);
    } else if t != [] {
      assert InsertDesc(x, t, f)[1..] == t;
    }
  }

  /** Sorting does not change the total. */
  lemma {:induction false} SumBySortDesc<T>(s: seq<T>, f: T -> real)
    ensures SumBy(SortDesc(s, f), f) == SumBy(s, f)
  {
    if s != [] {
      SumBySortDesc(s[1..], f);
      SumByInsert(s[0], SortDesc(s[1..], f), f);
    }
  }

  // ---------------------------------------------------------------------------------------
  // Grouped sums (`by_id[k] += v` on a defaultdict, `map.set(k, (map.get(k) || 0) + v)`)
  // ---------------------------------------------------------------------------------------

  lemma {:induction false} PutPut<K, V>(d: seq<(K, V)>, k: K, v: V, w: V)
    ensures Put(Put(d, k, v), k, w) == Put(d, k, w)
  {
    if d != [] && d[0].0 != k {
      PutPut(d[1..], k, v, w);
    }
  }

  /** Writing back the value a key already holds changes nothing. */
  lemma {:induction false} PutSame<K, V>(d: seq<(K, V)>, k: K)
    requires Get(d, k).Some?
    ensures Put(d, k, Get(d, k).value) == d
  {
    if d[0].0 != k {
      PutSame(d[1..], k);
    }
  }

  /** In a dictionary without repeated keys every entry is what its key looks up. */
  lemma {:induction false} DistinctGet<K, V>(d: seq<(K, V)>, j: nat)
    requires j < |d| && Distinct(Keys(d))
    ensures Get(d, d[j].0) == Some(d[j].1)
  {
    if j > 0 {
      assert Keys(d)[0] != Keys(d)[j];
      assert Distinct(Keys(d[1..])) by {
        forall a, b | 0 <= a < b < |d[1..]| ensures Keys(d[1..])[a] != Keys(d[1..])[b] {
          assert Keys(d)[a + 1] != Keys(d)[b + 1];
        }
      }
      DistinctGet(d[1..], j - 1);
    }
  }

  /** A key's running sum: `by_id[k]` on a `defaultdict(float)`, `map.get(k) || 0`. */
  function Running<K(==)>(d: seq<(K, real)>, k: K): real {
    Get(d, k).GetOr(0.0)
  }

  /**
   * One group-and-add step, `d[k] = d.get(k, 0) + v`: an existing key keeps its position and
   * grows by `v`, a new key is appended holding `v`.
   */
  function AddTo<K(==)>(d: seq<(K, real)>, k: K, v: real): (r: seq<(K, real)>)
    ensures Keys(r) == if k in Keys(d) then Keys(d) else Keys(d) + [k]
  {
    if d == [] then [(k, v)]
    else if d[0].0 == k then [(k, d[0].1 + v)] + d[1..]
    else [d[0]] + AddTo(d[1..], k, v)
  }

  /** Adding is writing back the running sum plus the amount. */
  lemma {:induction false} AddToIsPut<K>(d: seq<(K, real)>, k: K, v: real, w: real)
    requires w == Running(d, k) + v
    ensures AddTo(d, k, v) == Put(d, k, w)
  {
    if d != [] && d[0].0 != k {
      assert Running(d[1..], k) == Running(d, k);
      AddToIsPut(d[1..], k, v, w);
    }
  }

  lemma {:induction false} AddToRunning<K>(d: seq<(K, real)>, k: K, v: real, k': K)
    ensures Running(AddTo(d, k, v), k') == if k' == k then Running(d, k) + v else Running(d, k')
  {
    if d != [] && d[0].0 != k {
      AddToRunning(d[1..], k, v, k');
    }
  }

  lemma {:induction false} AddToSum<K>(d: seq<(K, real)>, k: K, v: real)
    ensures SumValues(AddTo(d, k, v)) == SumValues(d) + v
  {
    if d != [] && d[0].0 != k {
      AddToSum(d[1..], k, v);
    }
  }

  lemma {:induction false} AddToDistinct<K>(d: seq<(K, real)>, k: K, v: real)
    requires Distinct(Keys(d))
    ensures Distinct(Keys(AddTo(d, k, v)))
  {
    var ks := Keys(d);
    if k !in ks {
      assert Keys(AddTo(d, k, v)) == ks + [k];
    }
  }

  /**
   * `d[k] += x` on a `defaultdict(float)` where computing `x` may raise (`m == None`): the
   * lookup inserts 0.0 first, so the key is present afterwards either way; `cur` is the value
   * that lookup returns.
   */
  function DefaultdictAdd<K(==)>(d: seq<(K, real)>, k: K, cur: real, m: Option<real>): seq<(K, real)> {
    var d1 := if Get(d, k).None? then Put(d, k, 0.0) else d;
    match m
    case Some(x) => Put(d1, k, cur + x)
    case None => d1
  }

  /**
   * The statement `d[k] += x` on a `defaultdict(float)`, inside a `try` whose `x` may raise
   * (`m == None`).
   */
  method DefaultdictIncrement<K(==)>(d: seq<(K, real)>, k: K, m: Option<real>) returns (r: seq<(K, real)>)
    ensures r == AddTo(d, k, m.GetOr(0.0))
  {
    r := d;
    var cur := Running(r, k);
    if Get(r, k).None? {
      r := Put(r, k, 0.0);
    }
    match m {
      case Some(x) => r := Put(r, k, cur + x);
      case None =>
    }
    assert r == DefaultdictAdd(d, k, cur, m);
    DefaultdictAddIsAddTo(d, k, cur, m);
  }

  lemma {:induction false} DefaultdictAddIsAddTo<K>(d: seq<(K, real)>, k: K, cur: real, m: Option<real>)
    requires cur == Running(d, k)
    ensures DefaultdictAdd(d, k, cur, m) == AddTo(d, k, m.GetOr(0.0))
  {
    match m {
      case Some(x) =>
        AddToIsPut(d, k, x, cur + x);
        if Get(d, k).None? {
          PutPut(d, k, 0.0, cur + x);
        }
      case None =>
        AddToIsPut(d, k, 0.0, cur);
        if Get(d, k).Some? {
          PutSame(d, k);
        }
    }
  }

  /** The dictionary of per-key sums of `(key, amount)` pairs, keys in first-seen order. */
  function GroupSum<K(==)>(es: seq<(K, real)>): seq<(K, real)> {
    if es == [] then [] else AddTo(GroupSum(es[..|es| - 1]), es[|es| - 1].0, es[|es| - 1].1)
  }

  /** The sum of the amounts paired with `k`. */
  function KeySum<K(==)>(es: seq<(K, real)>, k: K): real {
    if es == [] then 0.0
    else KeySum(es[..|es| - 1], k) + (if es[|es| - 1].0 == k then es[|es| - 1].1 else 0.0)
  }

  /** The sum of all amounts. */
  function AmountSum<K>(es: seq<(K, real)>): real {
    if es == [] then 0.0 else AmountSum(es[..|es| - 1]) + es[|es| - 1].1
  }

  lemma {:induction false} GroupSumKeys<K>(es: seq<(K, real)>, k: K)
    ensures k in Keys(GroupSum(es)) <==> exists i :: 0 <= i < |es| && es[i].0 == k
    ensures Distinct(Keys(GroupSum(es)))
    ensures |GroupSum(es)| <= |es|
  {
    if es != [] {
      var p := es[..|es| - 1];
      var e := es[|es| - 1];
      var d := GroupSum(p);
      GroupSumKeys(p, k);
      AddToDistinct(d, e.0, e.1);
      assert GroupSum(es) == AddTo(d, e.0, e.1);
      KeyOccursStep(es, k);
    }
  }

  /** A key occurs among the pairs exactly when it occurs before the last one or is the last one's. */
  lemma KeyOccursStep<K>(es: seq<(K, real)>, k: K)
    requires es != []
    ensures var p := es[..|es| - 1];
      (exists i :: 0 <= i < |es| && es[i].0 == k) <==> (exists i :: 0 <= i < |p| && p[i].0 == k) || es[|es| - 1].0 == k
  {
    var p := es[..|es| - 1];
    if exists i :: 0 <= i < |es| && es[i].0 == k {
      var i :| 0 <= i < |es| && es[i].0 == k;
      if i < |p| {
        assert p[i] == es[i];
      }
    }
    if exists i :: 0 <= i < |p| && p[i].0 == k {
      var i :| 0 <= i < |p| && p[i].0 == k;
      assert es[i] == p[i];
    }
  }

  lemma {:induction false} GroupSumValue<K>(es: seq<(K, real)>, k: K)
    ensures Running(GroupSum(es), k) == KeySum(es, k)
  {
    if es != [] {
      var p := es[..|es| - 1];
      var e := es[|es| - 1];
      var d := GroupSum(p);
      GroupSumValue(p, k);
      AddToRunning(d, e.0, e.1, k);
    }
  }

  /** Every entry of the grouping is a key of the pairs with its sum. */
  lemma {:induction false} GroupSumEntry<K>(es: seq<(K, real)>, e: (K, real))
    requires e in GroupSum(es)
    ensures exists i :: 0 <= i < |es| && es[i].0 == e.0
    ensures e.1 == KeySum(es, e.0)
  {
    var d := GroupSum(es);
    var j :| 0 <= j < |d| && d[j] == e;
    assert Keys(d)[j] == e.0;
    GroupSumKeys(es, e.0);
    GroupSumValue(es, e.0);
    DistinctGet(d, j);
  }

  /** Grouping keeps the overall sum. */
  lemma {:induction false} GroupSumTotal<K>(es: seq<(K, real)>)
    ensures SumValues(GroupSum(es)) == AmountSum(es)
  {
    if es != [] {
      var p := es[..|es| - 1];
      var e := es[|es| - 1];
      GroupSumTotal(p);
      AddToSum(GroupSum(p), e.0, e.1);
    }
  }

  function Snd<K>(e: (K, real)): real { e.1 }

  lemma {:induction false} SumBySnd<K>(d: seq<(K, real)>)
    ensures SumBy(d, Snd) == SumValues(d)
  {
    if d != [] {
      SumBySnd(d[1..]);
    }
  }
}
