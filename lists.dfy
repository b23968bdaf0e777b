/** `Array.prototype.filter`, `map` and sums on the model's lists, with the facts every caller relies on. */
module Lists {
  import Dict

  /** `s.filter(p)`: the elements satisfying `p`, in their order. */
  function Filter<T>(s: seq<T>, p: T -> bool): (r: seq<T>)
    ensures |r| <= |s|
  {
    if s == [] then [] else (if p(s[0]) then [s[0]] else []) + Filter(s[1..], p)
  }

  /** An element is kept exactly when it is in the list and satisfies the predicate. */
  lemma {:induction false} FilterMembers<T>(s: seq<T>, p: T -> bool, x: T)
    ensures x in Filter(s, p) <==> x in s && p(x)
  {
    if s != [] {
      FilterMembers(s[1..], p, x);
      assert x in s <==> x == s[0] || x in s[1..];
    }
  }

  /** Every kept element satisfies the predicate, and nothing is dropped when all do. */
  lemma {:induction false} FilterAll<T>(s: seq<T>, p: T -> bool)
    ensures (forall i :: 0 <= i < |s| ==> p(s[i])) <==> Filter(s, p) == s
  {
    if s != [] {
      FilterAll(s[1..], p);
      if Filter(s, p) == s {
        assert |Filter(s[1..], p)| <= |s| - 1;
        assert p(s[0]);
        assert Filter(s[1..], p) == s[1..];
      }
      if forall i :: 0 <= i < |s| ==> p(s[i]) {
        assert forall i :: 0 <= i < |s[1..]| ==> p(s[1..][i]) by {
          forall i | 0 <= i < |s[1..]| ensures p(s[1..][i]) {
            assert s[1..][i] == s[i + 1];
          }
        }
        assert s == [s[0]] + s[1..];
      }
    }
  }

  /** Filtering distributes over concatenation. */
  lemma {:induction false} FilterAppend<T>(s: seq<T>, t: seq<T>, p: T -> bool)
    ensures Filter(s + t, p) == Filter(s, p) + Filter(t, p)
  {
    if s == [] {
      assert s + t == t;
    } else {
      var u := s + t;
      assert u[0] == s[0] && u[1..] == s[1..] + t;
      FilterAppend(s[1..], t, p);
      FilterCons(u, p);
      FilterCons(s, p);
    }
  }

  lemma FilterCons<T>(s: seq<T>, p: T -> bool)
    requires s != []
    ensures Filter(s, p) == (if p(s[0]) then [s[0]] else []) + Filter(s[1..], p)
  {
  }

  /** Filtering twice by the same predicate changes nothing more. */
  lemma {:induction false} FilterTwice<T>(s: seq<T>, p: T -> bool)
    ensures Filter(Filter(s, p), p) == Filter(s, p)
  {
    if s != [] {
      FilterTwice(s[1..], p);
      var r := Filter(s[1..], p);
      if p(s[0]) {
        assert Filter(s, p) == [s[0]] + r;
        assert ([s[0]] + r)[1..] == r;
        assert Filter([s[0]] + r, p) == [s[0]] + Filter(r, p);
      } else {
        assert Filter(s, p) == r;
      }
    }
  }

  /** `s.map(f)`. */
  function Map<T, U>(s: seq<T>, f: T -> U): (r: seq<U>)
    ensures |r| == |s| && forall i :: 0 <= i < |s| ==> r[i] == f(s[i])
  {
    seq(|s|, i requires 0 <= i < |s| => f(s[i]))
  }

  /** A sum grows by the last element's term. */
  lemma {:induction false} SumByAppend<T>(s: seq<T>, x: T, f: T -> real)
    ensures Dict.SumBy(s + [x], f) == Dict.SumBy(s, f) + f(x)
  {
    if s == [] {
      assert [] + [x] == [x];
    } else {
      assert (s + [x])[1..] == s[1..] + [x];
      SumByAppend(s[1..], x, f);
    }
  }

  /** With non-negative terms, the sum over the kept elements lies between 0 and the whole sum. */
  lemma {:induction false} SumByFilter<T>(s: seq<T>, p: T -> bool, f: T -> real)
    requires forall i :: 0 <= i < |s| ==> f(s[i]) >= 0.0
    ensures 0.0 <= Dict.SumBy(Filter(s, p), f) <= Dict.SumBy(s, f)
  {
    if s != [] {
      assert forall i :: 0 <= i < |s[1..]| ==> s[1..][i] == s[i + 1];
      SumByFilter(s[1..], p, f);
      var t := Filter(s[1..], p);
      assert Dict.SumBy(s, f) == f(s[0]) + Dict.SumBy(s[1..], f);
      if p(s[0]) {
        assert Filter(s, p) == [s[0]] + t;
        assert ([s[0]] + t)[0] == s[0] && ([s[0]] + t)[1..] == t;
        assert Dict.SumBy(Filter(s, p), f) == f(s[0]) + Dict.SumBy(t, f);
      } else {
        assert Filter(s, p) == [] + t == t;
      }
    }
  }
}
