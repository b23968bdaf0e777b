/**
 * Signup-month cohorts: per-month signup counts and the retention matrix, whose row for a
 * cohort counts, for each month offset, the members still active at that offset.
 */
module Cohorts {
  import opened Common
  import opened Dict

  /** A `(year, month)` cohort key. */
  type Month = (int, int)

  /** `month_bucket(d)`. */
  function MonthBucket(d: Date): (m: Month)
    ensures m.0 == d.year && m.1 == d.month
  {
    (d.year, d.month)
  }

  // ---------------------------------------------------------------------------------------
  // cohortize
  // ---------------------------------------------------------------------------------------

  /** A key's count in a `defaultdict(int)`. */
  function Count<K(==)>(d: seq<(K, int)>, k: K): int {
    Get(d, k).GetOr(0)
  }

  /** `counts[k] += 1`: an existing key keeps its place, a new key is appended with 1. */
  function Bump<K(==)>(d: seq<(K, int)>, k: K): seq<(K, int)> {
    if d == [] then [(k, 1)]
    else if d[0].0 == k then [(k, d[0].1 + 1)] + d[1..]
    else [d[0]] + Bump(d[1..], k)
  }

  lemma {:induction false} BumpIsPut<K>(d: seq<(K, int)>, k: K, w: int)
    requires w == Count(d, k) + 1
    ensures Bump(d, k) == Put(d, k, w)
  {
    if d != [] && d[0].0 != k {
      assert Count(d[1..], k) == Count(d, k);
      BumpIsPut(d[1..], k, w);
    }
  }

  lemma {:induction false} BumpFacts<K>(d: seq<(K, int)>, k: K, k': K)
    ensures Count(Bump(d, k), k') == Count(d, k') + (if k' == k then 1 else 0)
    ensures Keys(Bump(d, k)) == if k in Keys(d) then Keys(d) else Keys(d) + [k]
    ensures SumCounts(Bump(d, k)) == SumCounts(d) + 1
  {
    if d != [] {
      var r := Bump(d, k);
      assert Keys(d) == [d[0].0] + Keys(d[1..]);
      if d[0].0 != k {
        BumpFacts(d[1..], k, k');
        assert r[1..] == Bump(d[1..], k);
        assert Keys(r) == [d[0].0] + Keys(Bump(d[1..], k));
      } else {
        assert r[1..] == d[1..];
      }
    } else {
      assert Bump(d, k)[1..] == [];
    }
  }

  function SumCounts<K>(d: seq<(K, int)>): int {
    if d == [] then 0 else d[0].1 + SumCounts(d[1..])
  }

  /** What `cohortize(signup_dates)` returns: counts per month, months in first-seen order. */
  function Cohortized(ds: seq<Option<Date>>): seq<(Month, int)> {
    if ds == [] then []
    else
      var c := Cohortized(ds[..|ds| - 1]);
      match ds[|ds| - 1]
      case None => c
      case Some(d) => Bump(c, MonthBucket(d))
  }

  /** How many of the dates fall in month `m`. */
  function InMonth(ds: seq<Option<Date>>, m: Month): nat {
    if ds == [] then 0
    else
      var last := ds[|ds| - 1];
      InMonth(ds[..|ds| - 1], m) + (if last.Some? && MonthBucket(last.value) == m then 1 else 0)
  }

  /** How many of the dates are present. */
  function Present(ds: seq<Option<Date>>): nat {
    if ds == [] then 0 else Present(ds[..|ds| - 1]) + (if ds[|ds| - 1].Some? then 1 else 0)
  }

  /** `cohortize(signup_dates)`. */
  method Cohortize(ds: seq<Option<Date>>) returns (counts: seq<(Month, int)>)
    ensures counts == Cohortized(ds)
  {
    counts := [];
    for i := 0 to |ds|
      invariant counts == Cohortized(ds[..i])
    {
      assert ds[..i + 1][..i] == ds[..i];
      match ds[i] {
        case None =>
        case Some(d) =>
          var key := MonthBucket(d);
          var cur := Count(counts, key);
          BumpIsPut(counts, key, cur + 1);
          counts := Put(counts, key, cur + 1);
      }
    }
    assert ds[..|ds|] == ds;
  }

  /**
   * `None` dates are ignored; every month of a present date has a key, holding the number of
   * dates in that month; there are no other keys and no key twice; the counts add up to the
   * number of present dates.
   */
  lemma {:induction false} CohortizedFacts(ds: seq<Option<Date>>, m: Month)
    ensures Count(Cohortized(ds), m) == InMonth(ds, m)
    ensures m in Keys(Cohortized(ds)) <==> InMonth(ds, m) > 0
    ensures Distinct(Keys(Cohortized(ds)))
    ensures SumCounts(Cohortized(ds)) == Present(ds)
  {
    if ds != [] {
      var init := ds[..|ds| - 1];
      var c := Cohortized(init);
      CohortizedFacts(init, m);
      GetKeys(c, m);
      match ds[|ds| - 1] {
        case None =>
        case Some(d) =>
          var k := MonthBucket(d);
          BumpFacts(c, k, m);
          GetKeys(Bump(c, k), m);
          if k !in Keys(c) {
            assert Keys(Bump(c, k)) == Keys(c) + [k];
          }
      }
    } else {
      GetKeys(Cohortized(ds), m);
    }
  }

  // ---------------------------------------------------------------------------------------
  // retention_matrix
  // ---------------------------------------------------------------------------------------

  /** `cohorts[k].append(x)` on a `defaultdict(list)`. */
  function AppendTo<K(==)>(g: seq<(K, seq<int>)>, k: K, x: int): seq<(K, seq<int>)> {
    if g == [] then [(k, [x])]
    else if g[0].0 == k then [(k, g[0].1 + [x])] + g[1..]
    else [g[0]] + AppendTo(g[1..], k, x)
  }

  /** The list a key holds (`[]` when absent). */
  function ListAt<K(==)>(g: seq<(K, seq<int>)>, k: K): seq<int> {
    Get(g, k).GetOr([])
  }

  lemma {:induction false} AppendToIsPut<K>(g: seq<(K, seq<int>)>, k: K, x: int, w: seq<int>)
    requires w == ListAt(g, k) + [x]
    ensures AppendTo(g, k, x) == Put(g, k, w)
  {
    if g == [] {
      assert w == [x];
    } else if g[0].0 != k {
      assert ListAt(g[1..], k) == ListAt(g, k);
      AppendToIsPut(g[1..], k, x, w);
    }
  }

  lemma {:induction false} AppendToFacts<K>(g: seq<(K, seq<int>)>, k: K, x: int, k': K)
    ensures ListAt(AppendTo(g, k, x), k') == if k' == k then ListAt(g, k) + [x] else ListAt(g, k')
    ensures Keys(AppendTo(g, k, x)) == if k in Keys(g) then Keys(g) else Keys(g) + [k]
  {
    if g != [] {
      var r := AppendTo(g, k, x);
      assert Keys(g) == [g[0].0] + Keys(g[1..]);
      if g[0].0 != k {
        AppendToFacts(g[1..], k, x, k');
        assert r[1..] == AppendTo(g[1..], k, x);
        assert Keys(r) == [g[0].0] + Keys(AppendTo(g[1..], k, x));
      } else {
        assert r[1..] == g[1..];
      }
    } else {
      assert ListAt(g, k) + [x] == [x];
      assert AppendTo(g, k, x)[1..] == [];
    }
  }

  /** The `cohorts` grouping: each month's active-month counts, in input order. */
  function Groups(ps: seq<(Option<Date>, int)>): seq<(Month, seq<int>)> {
    if ps == [] then []
    else
      var g := Groups(ps[..|ps| - 1]);
      var p := ps[|ps| - 1];
      match p.0
      case None => g
      case Some(d) => AppendTo(g, MonthBucket(d), p.1)
  }

  /** The active months of the members of cohort `m`, in input order. */
  function MembersOf(ps: seq<(Option<Date>, int)>, m: Month): seq<int> {
    if ps == [] then []
    else
      var p := ps[|ps| - 1];
      MembersOf(ps[..|ps| - 1], m) + (if p.0.Some? && MonthBucket(p.0.value) == m then [p.1] else [])
  }

  /** `max(members_active) if members_active else 0`. */
  function MaxOrZero(ms: seq<int>): int {
    if ms == [] then 0
    else if |ms| == 1 then ms[0]
    else MaxInt(MaxOrZero(ms[..|ms| - 1]), ms[|ms| - 1])
  }

  /** The number of members active for more than `i` months. */
  function CountAbove(ms: seq<int>, i: int): nat {
    if ms == [] then 0 else CountAbove(ms[..|ms| - 1], i) + (if ms[|ms| - 1] > i then 1 else 0)
  }

  /** A cohort's row: entry `i` counts the members with more than `i` active months. */
  function Retention(ms: seq<int>): (r: seq<int>)
    ensures |r| == MaxInt(0, MaxOrZero(ms))
  {
    seq(MaxInt(0, MaxOrZero(ms)), i => CountAbove(ms, i))
  }

  /** The matrix: each cohort of `cohorts`, in its order, with its row. */
  function Rows(g: seq<(Month, seq<int>)>): (r: seq<(Month, seq<int>)>)
    ensures |r| == |g|
  {
    seq(|g|, i requires 0 <= i < |g| => (g[i].0, Retention(g[i].1)))
  }

  /** What `retention_matrix(pairs)` returns. */
  function Matrix(ps: seq<(Option<Date>, int)>): seq<(Month, seq<int>)> {
    Rows(Groups(ps))
  }

  /** `retention_matrix(signup_dates_and_active_months)`. */
  method RetentionMatrix(ps: seq<(Option<Date>, int)>) returns (matrix: seq<(Month, seq<int>)>)
    ensures matrix == Matrix(ps)
  {
    var cohorts := GroupByCohort(ps);
    GroupsDistinct(ps);
    matrix := CohortRows(cohorts);
  }

  /** The first loop: each dated pair's active months appended to its cohort's list. */
  method GroupByCohort(ps: seq<(Option<Date>, int)>) returns (cohorts: seq<(Month, seq<int>)>)
    ensures cohorts == Groups(ps)
  {
    cohorts := [];
    for i := 0 to |ps|
      invariant cohorts == Groups(ps[..i])
    {
      assert ps[..i + 1][..i] == ps[..i];
      var (signup, active) := ps[i];
      match signup {
        case None =>
        case Some(d) =>
          var cohort := MonthBucket(d);
          var cur := ListAt(cohorts, cohort);
          AppendToIsPut(cohorts, cohort, active, cur + [active]);
          cohorts := Put(cohorts, cohort, cur + [active]);
      }
    }
    assert ps[..|ps|] == ps;
  }

  /** The second loop: `matrix[cohort] = retention` for each cohort in order. */
  method CohortRows(cohorts: seq<(Month, seq<int>)>) returns (matrix: seq<(Month, seq<int>)>)
    requires Distinct(Keys(cohorts))
    ensures matrix == Rows(cohorts)
  {
    matrix := [];
    for j := 0 to |cohorts|
      invariant matrix == Rows(cohorts[..j])
      invariant Keys(matrix) == Keys(cohorts[..j])
    {
      var (cohort, members) := cohorts[j];
      var retention := RetentionCounts(members);
      FreshKey(cohorts, j);
      PutNew(matrix, cohort, retention);
      matrix := Put(matrix, cohort, retention);
      RowsStep(cohorts, j);
    }
    assert cohorts[..|cohorts|] == cohorts;
  }

  lemma FreshKey<K, V>(d: seq<(K, V)>, j: nat)
    requires j < |d| && Distinct(Keys(d))
    ensures d[j].0 !in Keys(d[..j])
  {
    forall t | 0 <= t < j ensures Keys(d[..j])[t] != d[j].0 {
      assert Keys(d)[t] == Keys(d[..j])[t];
      assert Keys(d)[j] == d[j].0;
    }
  }

  lemma RowsStep(cohorts: seq<(Month, seq<int>)>, j: nat)
    requires j < |cohorts|
    ensures Rows(cohorts[..j + 1]) == Rows(cohorts[..j]) + [(cohorts[j].0, Retention(cohorts[j].1))]
    ensures Keys(cohorts[..j + 1]) == Keys(cohorts[..j]) + [cohorts[j].0]
  {
    assert cohorts[..j + 1] == cohorts[..j] + [cohorts[j]];
  }

  /** One cohort's row, counted member by member as the nested loops do. */
  method RetentionCounts(members: seq<int>) returns (retention: seq<int>)
    ensures retention == Retention(members)
  {
    var maxMonths := if |members| > 0 then MaxOrZero(members) else 0;
    // `[0] * max_months` is empty for a non-positive `max_months`.
    var a := new int[if maxMonths > 0 then maxMonths else 0](_ => 0);
    for j := 0 to |members|
      invariant forall t :: 0 <= t < a.Length ==> a[t] == CountAbove(members[..j], t)
    {
      assert members[..j + 1][..j] == members[..j];
      var m := members[j];
      MaxOrZeroBound(members, j);
      // `for i in range(m)`: nothing for a non-positive `m`.
      for i := 0 to (if m > 0 then m else 0)
        invariant forall t :: 0 <= t < i ==> a[t] == CountAbove(members[..j + 1], t)
        invariant forall t :: i <= t < a.Length ==> a[t] == CountAbove(members[..j], t)
      {
        a[i] := a[i] + 1;
      }
    }
    assert members[..|members|] == members;
    retention := a[..];
  }

  lemma {:induction false} MaxOrZeroBound(ms: seq<int>, j: nat)
    requires j < |ms|
    ensures ms[j] <= MaxOrZero(ms)
  {
    if |ms| > 1 && j < |ms| - 1 {
      MaxOrZeroBound(ms[..|ms| - 1], j);
    }
  }

  lemma {:induction false} PutNew<K, V>(d: seq<(K, V)>, k: K, v: V)
    requires k !in Keys(d)
    ensures Put(d, k, v) == d + [(k, v)]
  {
    if d != [] {
      assert Keys(d) == [d[0].0] + Keys(d[1..]);
      PutNew(d[1..], k, v);
    }
  }

  lemma {:induction false} GroupsFacts(ps: seq<(Option<Date>, int)>, m: Month)
    ensures ListAt(Groups(ps), m) == MembersOf(ps, m)
    ensures m in Keys(Groups(ps)) <==> MembersOf(ps, m) != []
    ensures Distinct(Keys(Groups(ps)))
  {
    if ps != [] {
      var init := ps[..|ps| - 1];
      var g := Groups(init);
      GroupsFacts(init, m);
      GetKeys(g, m);
      var p := ps[|ps| - 1];
      match p.0 {
        case None =>
        case Some(d) =>
          var k := MonthBucket(d);
          AppendToFacts(g, k, p.1, m);
          GetKeys(AppendTo(g, k, p.1), m);
          if k !in Keys(g) {
            assert Keys(AppendTo(g, k, p.1)) == Keys(g) + [k];
          }
      }
    } else {
      GetKeys(Groups(ps), m);
    }
  }

  lemma GroupsDistinct(ps: seq<(Option<Date>, int)>)
    ensures Distinct(Keys(Groups(ps)))
  {
    GroupsFacts(ps, (0, 0));
  }

  /**
   * A pair without a signup date takes no part: the matrix has a row for exactly the months
   * of the dated pairs, and that row is the retention of that month's members.
   */
  lemma MatrixFacts(ps: seq<(Option<Date>, int)>, m: Month)
    ensures m in Keys(Matrix(ps)) <==> MembersOf(ps, m) != []
    ensures MembersOf(ps, m) != [] ==> Get(Matrix(ps), m) == Some(Retention(MembersOf(ps, m)))
    ensures Distinct(Keys(Matrix(ps)))
  {
    var g := Groups(ps);
    GroupsFacts(ps, m);
    GetKeys(g, m);
    assert Keys(Matrix(ps)) == Keys(g);
    if MembersOf(ps, m) != [] {
      var j :| 0 <= j < |g| && Keys(g)[j] == m;
      DistinctGet(g, j);
      DistinctGet(Matrix(ps), j);
    }
  }

  /** More months never count more members: every row is non-increasing. */
  lemma {:induction false} CountAboveMonotone(ms: seq<int>, i: int, j: int)
    requires i <= j
    ensures CountAbove(ms, j) <= CountAbove(ms, i) <= |ms|
  {
    if ms != [] {
      CountAboveMonotone(ms[..|ms| - 1], i, j);
    }
  }

  /** Some member is active past month `i` exactly when `i` is below the longest membership. */
  lemma {:induction false} CountAbovePositive(ms: seq<int>, i: int)
    requires ms != []
    ensures CountAbove(ms, i) > 0 <==> i < MaxOrZero(ms)
  {
    if |ms| > 1 {
      CountAbovePositive(ms[..|ms| - 1], i);
    }
  }

  /** With every member active at least one month, entry 0 is the cohort size. */
  lemma {:induction false} CountAboveAll(ms: seq<int>)
    requires forall t :: 0 <= t < |ms| ==> ms[t] >= 1
    ensures CountAbove(ms, 0) == |ms|
  {
    if ms != [] {
      CountAboveAll(ms[..|ms| - 1]);
    }
  }

  /**
   * A row has one entry per month up to the longest membership; its entries are positive and
   * non-increasing; with every member active at least one month it starts at the cohort size.
   */
  lemma RetentionFacts(ms: seq<int>)
    ensures |Retention(ms)| == MaxInt(0, MaxOrZero(ms))
    ensures forall i :: 0 <= i < |Retention(ms)| ==> Retention(ms)[i] > 0
    ensures forall i, j :: 0 <= i <= j < |Retention(ms)| ==> Retention(ms)[j] <= Retention(ms)[i]
    ensures (forall t :: 0 <= t < |ms| ==> ms[t] >= 1) && ms != [] ==> Retention(ms)[0] == |ms|
  {
    var r := Retention(ms);
    forall i | 0 <= i < |r| ensures r[i] > 0 {
      CountAbovePositive(ms, i);
    }
    forall i, j | 0 <= i <= j < |r| ensures r[j] <= r[i] {
      CountAboveMonotone(ms, i, j);
    }
    if (forall t :: 0 <= t < |ms| ==> ms[t] >= 1) && ms != [] {
      CountAboveAll(ms);
      assert MaxOrZero(ms) >= ms[0] by {
        MaxOrZeroBound(ms, 0);
      }
    }
  }

  /** Two January members active 3 and 1 months and one February member active 2 months. */
  lemma RetentionExample()
    ensures Matrix([(Some(Date(2024, 1, 5)), 3), (Some(Date(2024, 1, 20)), 1), (Some(Date(2024, 2, 1)), 2)])
         == [((2024, 1), [2, 1, 1]), ((2024, 2), [1, 1])]
    ensures Matrix([]) == []
  {
    var ps := [(Some(Date(2024, 1, 5)), 3), (Some(Date(2024, 1, 20)), 1), (Some(Date(2024, 2, 1)), 2)];
    assert ps[..2][..1] == ps[..1];
    assert ps[..1][..0] == ps[..0];
    assert Groups(ps[..1]) == [((2024, 1), [3])];
    var g1: seq<(Month, seq<int>)> := [((2024, 1), [3])];
    assert g1[1..] == [];
    assert [3] + [1] == [3, 1];
    assert AppendTo(g1, (2024, 1), 1) == [((2024, 1), [3, 1])];
    assert Groups(ps[..2]) == [((2024, 1), [3, 1])];
    var g2: seq<(Month, seq<int>)> := [((2024, 1), [3, 1])];
    assert g2[1..] == [];
    assert AppendTo(g2, (2024, 2), 2) == [((2024, 1), [3, 1]), ((2024, 2), [2])];
    assert Groups(ps) == [((2024, 1), [3, 1]), ((2024, 2), [2])] by {
      assert ps[..|ps| - 1] == ps[..2];
    }
    var jan := [3, 1];
    assert [3, 1][..1] == [3];
    assert MaxOrZero(jan) == 3;
    assert Retention(jan) == [2, 1, 1] by {
      assert CountAbove([3], 0) == 1 && CountAbove([3], 1) == 1 && CountAbove([3], 2) == 1;
      assert CountAbove(jan, 0) == 2 && CountAbove(jan, 1) == 1 && CountAbove(jan, 2) == 1;
    }
    assert Retention([2]) == [1, 1] by {
      assert CountAbove([2], 0) == 1 && CountAbove([2], 1) == 1;
    }
  }

  /** Two January dates, one February date and a missing date. */
  lemma CohortizeExample()
    ensures Cohortized([Some(Date(2024, 1, 5)), Some(Date(2024, 1, 20)), Some(Date(2024, 2, 1)), None])
         == [((2024, 1), 2), ((2024, 2), 1)]
  {
    var ds := [Some(Date(2024, 1, 5)), Some(Date(2024, 1, 20)), Some(Date(2024, 2, 1)), None];
    assert ds[..3][..2] == ds[..2];
    assert ds[..2][..1] == ds[..1];
    assert ds[..1][..0] == ds[..0];
    assert Cohortized(ds[..1]) == [((2024, 1), 1)];
    assert Cohortized(ds[..2]) == [((2024, 1), 2)];
    var c2: seq<(Month, int)> := [((2024, 1), 2)];
    assert c2[1..] == [];
    assert Bump(c2, (2024, 2)) == [((2024, 1), 2), ((2024, 2), 1)];
    assert Cohortized(ds[..3]) == [((2024, 1), 2), ((2024, 2), 1)];
    assert ds[..|ds| - 1] == ds[..3];
  }
}
