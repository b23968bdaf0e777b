/**
 * Sorting by a string key, as JavaScript's `Array.prototype.sort` does it with the default
 * comparator (ascending by `<` on strings) and with `(a, b) => (a < b ? 1 : -1)` (descending).
 * Both sorts only ever see distinct keys, so the result is the one strictly ordered
 * permutation whatever algorithm the engine uses.
 */
module Order {
  import opened Text

  /** Whether key `a` goes before key `b`. */
  predicate Before(a: string, b: string, desc: bool) {
    if desc then LexLess(b, a) else LexLess(a, b)
  }

  lemma BeforeTransitive(a: string, b: string, c: string, desc: bool)
    requires Before(a, b, desc) && Before(b, c, desc)
    ensures Before(a, c, desc)
  {
    if desc { LexLessTransitive(c, b, a); } else { LexLessTransitive(a, b, c); }
  }

  lemma BeforeTotal(a: string, b: string, desc: bool)
    ensures a != b ==> Before(a, b, desc) || Before(b, a, desc)
    ensures !(Before(a, b, desc) && Before(b, a, desc))
    ensures !Before(a, a, desc)
  {
    LexLessTotal(a, b);
    LexLessIrreflexive(a);
  }

  /** Every element strictly before the next one. */
  ghost predicate Sorted<T>(s: seq<T>, f: T -> string, desc: bool) {
    forall i, j :: 0 <= i < j < |s| ==> Before(f(s[i]), f(s[j]), desc)
  }

  ghost predicate DistinctKeys<T>(s: seq<T>, f: T -> string) {
    forall i, j :: 0 <= i < j < |s| ==> f(s[i]) != f(s[j])
  }

  /** Places `x` after every element whose key goes before its own. */
  function Insert<T>(x: T, t: seq<T>, f: T -> string, desc: bool): (r: seq<T>)
    ensures |r| == |t| + 1
  {
    if t != [] && Before(f(t[0]), f(x), desc) then [t[0]] + Insert(x, t[1..], f, desc) else [x] + t
  }

  /** Insertion sort by key. */
  function Sort<T>(s: seq<T>, f: T -> string, desc: bool): (r: seq<T>)
    ensures |r| == |s|
  {
    if s == [] then [] else Insert(s[0], Sort(s[1..], f, desc), f, desc)
  }

  lemma {:induction false} InsertPerm<T>(x: T, t: seq<T>, f: T -> string, desc: bool)
    ensures multiset(Insert(x, t, f, desc)) == multiset(t) + multiset{x}
  {
    if t != [] && Before(f(t[0]), f(x), desc) {
      InsertPerm(x, t[1..], f, desc);
      assert t == [t[0]] + t[1..];
    }
  }

  lemma {:induction false} InsertSorted<T>(x: T, t: seq<T>, f: T -> string, desc: bool)
    requires Sorted(t, f, desc)
    requires forall i :: 0 <= i < |t| ==> f(t[i]) != f(x)
    ensures Sorted(Insert(x, t, f, desc), f, desc)
  {
    var r := Insert(x, t, f, desc);
    if t != [] && Before(f(t[0]), f(x), desc) {
      var rest := Insert(x, t[1..], f, desc);
      InsertSorted(x, t[1..], f, desc);
      InsertPerm(x, t[1..], f, desc);
      forall j | 0 <= j < |rest| ensures Before(f(t[0]), f(rest[j]), desc) {
        var y := rest[j];
        assert y in multiset(rest);
        if y != x {
          assert y in multiset(t[1..]);
          var m :| 0 <= m < |t[1..]| && t[1..][m] == y;
          assert t[m + 1] == y;
        }
      }
      assert r == [t[0]] + rest;
    } else if t != [] {
      forall j | 0 <= j < |t| ensures Before(f(x), f(t[j]), desc) {
        BeforeTotal(f(x), f(t[0]), desc);
        if j > 0 {
          BeforeTransitive(f(x), f(t[0]), f(t[j]), desc);
        }
      }
      assert r == [x] + t;
    }
  }

  /** With distinct keys the sort is strictly ordered and a permutation. */
  lemma {:induction false} SortFacts<T>(s: seq<T>, f: T -> string, desc: bool)
    requires DistinctKeys(s, f)
    ensures Sorted(Sort(s, f, desc), f, desc)
    ensures multiset(Sort(s, f, desc)) == multiset(s)
  {
    if s != [] {
      var t := Sort(s[1..], f, desc);
      SortFacts(s[1..], f, desc);
      forall i | 0 <= i < |t| ensures f(t[i]) != f(s[0]) {
        assert t[i] in multiset(s[1..]);
        var m :| 0 <= m < |s[1..]| && s[1..][m] == t[i];
        assert s[m + 1] == t[i];
      }
      InsertSorted(s[0], t, f, desc);
      InsertPerm(s[0], t, f, desc);
      assert s == [s[0]] + s[1..];
    }
  }

  /** Two strictly ordered sequences holding the same elements start with the same element. */
  lemma SortedSameHead<T>(a: seq<T>, b: seq<T>, f: T -> string, desc: bool)
    requires Sorted(a, f, desc) && Sorted(b, f, desc)
    requires multiset(a) == multiset(b) && a != []
    ensures b != [] && a[0] == b[0]
  {
    assert a[0] in multiset(a);
    assert a[0] in multiset(b);
    assert b[0] in multiset(a);
    var i :| 0 <= i < |b| && b[i] == a[0];
    var j :| 0 <= j < |a| && a[j] == b[0];
    if a[0] != b[0] {
      BeforeTotal(f(a[0]), f(b[0]), desc);
      assert false;
    }
  }

  lemma SortedTail<T>(a: seq<T>, f: T -> string, desc: bool)
    requires Sorted(a, f, desc) && a != []
    ensures Sorted(a[1..], f, desc)
  {
    forall p, q | 0 <= p < q < |a[1..]| ensures Before(f(a[1..][p]), f(a[1..][q]), desc) {
      assert a[1..][p] == a[p + 1] && a[1..][q] == a[q + 1];
    }
  }

  /** Two strictly ordered sequences holding the same elements are equal: the sort is the only such order. */
  lemma {:induction false} SortedUnique<T>(a: seq<T>, b: seq<T>, f: T -> string, desc: bool)
    requires Sorted(a, f, desc) && Sorted(b, f, desc)
    requires multiset(a) == multiset(b)
    ensures a == b
  {
    if a != [] {
      SortedSameHead(a, b, f, desc);
      assert a == [a[0]] + a[1..] && b == [b[0]] + b[1..];
      assert multiset(a) == multiset([a[0]] + a[1..]) == multiset{a[0]} + multiset(a[1..]);
      assert multiset(b) == multiset([b[0]] + b[1..]) == multiset{a[0]} + multiset(b[1..]);
      forall y ensures multiset(a[1..])[y] == multiset(b[1..])[y] {
        assert multiset(a)[y] == multiset{a[0]}[y] + multiset(a[1..])[y];
        assert multiset(b)[y] == multiset{a[0]}[y] + multiset(b[1..])[y];
      }
      assert multiset(a[1..]) == multiset(b[1..]);
      SortedTail(a, f, desc);
      SortedTail(b, f, desc);
      SortedUnique(a[1..], b[1..], f, desc);
    }
  }
}
