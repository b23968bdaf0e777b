/**
 * The browser's cohort helpers: month keys and month distances of dates, the cohort table
 * of summed values per signup month and month offset, its retention percentages, the top
 * customers by summed value, and the records behind one table cell.
 */
module ClientCohorts {
  import opened Common
  import opened Text
  import opened Js
  import Dict
  import Order

  // ---------------------------------------------------------------------------------------
  // monthKeyFromDate, monthsBetween
  // ---------------------------------------------------------------------------------------

  /** `` `${getFullYear()}-${String(getMonth() + 1).padStart(2, '0')}` ``. */
  function MonthKey(ld: LocalDate): string {
    IntToString(ld.year) + "-" + Pad2(ld.month)
  }

  /** `monthKeyFromDate(d)`: `None` is `null`. */
  function MonthKeyFromDate(d: JsValue, cal: Calendar): Option<string> {
    match NewDate(d, cal)
    case None => None
    case Some(t) => Some(MonthKey(cal.local(t)))
  }

  /** `monthsBetween(a, b)`: `None` is `null`. */
  function MonthsBetween(a: JsValue, b: JsValue, cal: Calendar): Option<int> {
    match (NewDate(a, cal), NewDate(b, cal))
    case (Some(ta), Some(tb)) =>
      var la := cal.local(ta);
      var lb := cal.local(tb);
      Some((lb.year - la.year) * 12 + (lb.month - la.month))
    case _ => None
  }

  /** A month key is the year's decimal text, a dash and the month in exactly two digits. */
  lemma MonthKeyShape(ld: LocalDate)
    ensures var k := MonthKey(ld);
      && |k| >= 4 && k[|k| - 3] == '-' && k[..|k| - 3] == IntToString(ld.year)
      && IsDigit(k[|k| - 2]) && IsDigit(k[|k| - 1]) && DigitsValue(k[|k| - 2..]) == ld.month
  {
    var y := IntToString(ld.year);
    var m := Pad2(ld.month);
    var k := MonthKey(ld);
    assert k[|k| - 2..] == m;
    assert k[..|k| - 3] == y;
  }

  /** Two dates share a key exactly when they fall in the same year and month. */
  lemma MonthKeyInjective(a: LocalDate, b: LocalDate)
    ensures MonthKey(a) == MonthKey(b) <==> a.year == b.year && a.month == b.month
  {
    if MonthKey(a) == MonthKey(b) {
      MonthKeyShape(a);
      MonthKeyShape(b);
      var k := MonthKey(a);
      IntToStringInjective(a.year, b.year);
    }
  }

  /** `null` exactly for an invalid date; otherwise the key of its local year and month. */
  lemma MonthKeyFromDateFacts(d: JsValue, cal: Calendar)
    ensures MonthKeyFromDate(d, cal).None? <==> NewDate(d, cal).None?
    ensures MonthKeyFromDate(d, cal).Some? ==> MonthKeyFromDate(d, cal).value != ""
    ensures d.JStr? && cal.parse(d.s).None? ==> MonthKeyFromDate(d, cal).None?
    ensures d.JUndefined? ==> MonthKeyFromDate(d, cal).None?
  {
  }

  /** The distance is `null` unless both dates are valid. */
  lemma MonthsBetweenNull(a: JsValue, b: JsValue, cal: Calendar)
    ensures MonthsBetween(a, b, cal).Some? <==> NewDate(a, cal).Some? && NewDate(b, cal).Some?
  {
  }

  /** From a date to itself the distance is 0, and swapping the dates changes its sign. */
  lemma MonthsBetweenAntisymmetric(a: JsValue, b: JsValue, cal: Calendar)
    ensures NewDate(a, cal).Some? ==> MonthsBetween(a, a, cal) == Some(0)
    ensures MonthsBetween(a, b, cal).Some? ==> MonthsBetween(b, a, cal) == Some(-MonthsBetween(a, b, cal).value)
  {
  }

  /** Distances add up along a chain of dates. */
  lemma MonthsBetweenAdds(a: JsValue, b: JsValue, c: JsValue, cal: Calendar)
    requires MonthsBetween(a, b, cal).Some? && MonthsBetween(b, c, cal).Some?
    ensures MonthsBetween(a, c, cal) == Some(MonthsBetween(a, b, cal).value + MonthsBetween(b, c, cal).value)
  {
  }

  lemma MonthDistanceZero(dy: int, dm: int)
    requires -11 <= dm <= 11
    ensures dy * 12 + dm == 0 <==> dy == 0 && dm == 0
  {
  }

  /** The distance is 0 exactly between two valid dates with the same month key. */
  lemma MonthsBetweenZero(a: JsValue, b: JsValue, cal: Calendar)
    ensures MonthsBetween(a, b, cal) == Some(0) <==>
      MonthKeyFromDate(a, cal).Some? && MonthKeyFromDate(a, cal) == MonthKeyFromDate(b, cal)
  {
    match (NewDate(a, cal), NewDate(b, cal))
    case (Some(ta), Some(tb)) =>
      LocalDistanceZero(cal.local(ta), cal.local(tb));
    case _ =>
  }

  /** Between two local dates the month distance is 0 exactly when their keys agree. */
  lemma LocalDistanceZero(la: LocalDate, lb: LocalDate)
    ensures (lb.year - la.year) * 12 + (lb.month - la.month) == 0 <==> MonthKey(la) == MonthKey(lb)
  {
    MonthKeyInjective(la, lb);
    MonthDistanceZero(lb.year - la.year, lb.month - la.month);
  }

  // ---------------------------------------------------------------------------------------
  // generateCohortTable
  // ---------------------------------------------------------------------------------------

  /** `{ dateKey = 'signup_date', valueKey = 'mrr', months = 12 }`. */
  datatype TableOptions = TableOptions(dateKey: string, valueKey: string, months: int)

  const DefaultOptions: TableOptions := TableOptions("signup_date", "mrr", 12)

  datatype CohortRow = CohortRow(cohort: string, values: seq<real>)

  datatype CohortTable = CohortTable(headers: seq<string>, rows: seq<CohortRow>)

  /** `r.event_date || r.date || signup`. */
  function EventDate(r: JsObject, signup: JsValue): JsValue {
    Or(Field(r, "event_date"), Or(Field(r, "date"), signup))
  }

  /**
   * The cell a record adds to: its signup month's key and the month offset of its event,
   * when the signup date is valid and the offset lies in `0 .. months - 1`.
   */
  function Cell(r: JsObject, dateKey: string, months: int, cal: Calendar): Option<(string, int)> {
    var signup := Field(r, dateKey);
    match MonthKeyFromDate(signup, cal)
    case None => None
    case Some(c) =>
      match MonthsBetween(signup, EventDate(r, signup), cal)
      case None => None
      case Some(offset) => if offset < 0 || offset >= months then None else Some((c, offset))
  }

  /** `Number(r[valueKey]) || 0`. */
  function Value(r: JsObject, valueKey: string): real {
    NumberOr0(Field(r, valueKey))
  }

  /** `new Array(n).fill(0)`. */
  function Zeros(n: nat): (z: seq<real>)
    ensures |z| == n && forall i :: 0 <= i < n ==> z[i] == 0.0
  {
    seq(n, _ => 0.0)
  }

  /** Every bucket holds exactly `months` sums. */
  ghost predicate Width(b: seq<(string, seq<real>)>, months: int) {
    forall e :: e in b ==> |e.1| == months
  }

  /** A cohort's bucket, or the fresh zero-filled one `buckets.set` would create. */
  function BucketOf(b: seq<(string, seq<real>)>, c: string, months: nat): (arr: seq<real>)
    requires Width(b, months)
    ensures |arr| == months
  {
    match Dict.Get(b, c)
    case Some(arr) => Dict.GetEntry(b, c); arr
    case None => Zeros(months)
  }

  /** `arr[offset] += val` in cohort `c`'s bucket, creating the bucket when it is missing. */
  function AddCell(b: seq<(string, seq<real>)>, c: string, offset: nat, v: real, months: nat): (r: seq<(string, seq<real>)>)
    requires offset < months && Width(b, months)
    ensures Width(r, months)
  {
    var arr := BucketOf(b, c, months);
    Dict.PutEntries(b, c, arr[offset := arr[offset] + v]);
    Dict.Put(b, c, arr[offset := arr[offset] + v])
  }

  /** Where one record lands (`Cell`) and what it adds (`Value`). */
  type Landing = (Option<(string, int)>, real)

  /** Each record's landing, in record order. */
  function Landings(records: seq<JsObject>, o: TableOptions, cal: Calendar): (ls: seq<Landing>)
    ensures |ls| == |records|
  {
    seq(|records|, i requires 0 <= i < |records| => (Cell(records[i], o.dateKey, o.months, cal), Value(records[i], o.valueKey)))
  }

  /** Whether landing `l` adds to cohort `c` inside the window. */
  predicate Lands(l: Landing, c: string, months: int) {
    l.0.Some? && l.0.value.0 == c && 0 <= l.0.value.1 < months
  }

  /** The buckets after one more landing: `l` adds its value to its cell when it lands in the window. */
  function Step(b: seq<(string, seq<real>)>, l: Landing, months: int): (r: seq<(string, seq<real>)>)
    requires Width(b, months)
    ensures Width(r, months)
  {
    match l.0
    case None => b
    case Some((c, offset)) => if 0 <= offset < months then AddCell(b, c, offset, l.1, months) else b
  }

  /** The buckets after adding the landings `ls` in order. */
  function Fill(ls: seq<Landing>, months: int): (b: seq<(string, seq<real>)>)
    ensures Width(b, months)
  {
    if ls == [] then [] else Step(Fill(ls[..|ls| - 1], months), ls[|ls| - 1], months)
  }

  /** A landing inside the window adds its value to its cell. */
  lemma FillAdd(p: seq<Landing>, l: Landing, months: int)
    requires l.0.Some? && 0 <= l.0.value.1 < months
    ensures Fill(p + [l], months) == AddCell(Fill(p, months), l.0.value.0, l.0.value.1, l.1, months)
  {
    assert (p + [l])[..|p|] == p;
  }

  /** Any other landing changes nothing. */
  lemma FillSkip(p: seq<Landing>, l: Landing, months: int)
    requires !(l.0.Some? && 0 <= l.0.value.1 < months)
    ensures Fill(p + [l], months) == Fill(p, months)
  {
    assert (p + [l])[..|p|] == p;
  }

  /** `Array.from({ length: months }).map((_, i) => String(i))`. */
  function Headers(months: int): (h: seq<string>)
    ensures |h| == MaxInt(0, months)
  {
    seq(MaxInt(0, months), i requires 0 <= i => NatToString(i))
  }

  function CohortKey(e: (string, seq<real>)): string { e.0 }

  function RowOf(e: (string, seq<real>)): CohortRow { CohortRow(e.0, e.1) }

  /** The rows for the landings `ls`: the buckets sorted by cohort key, descending. */
  function Rows(ls: seq<Landing>, months: int): seq<CohortRow> {
    var sorted := Order.Sort(Fill(ls, months), CohortKey, true);
    seq(|sorted|, i requires 0 <= i < |sorted| => RowOf(sorted[i]))
  }

  /** What `generateCohortTable(records, opts)` returns. */
  function Table(records: seq<JsObject>, o: TableOptions, cal: Calendar): CohortTable {
    CohortTable(Headers(o.months), Rows(Landings(records, o, cal), o.months))
  }

  /** One pass of the loop of `generateCohortTable`: record `r` updates `buckets`. */
  method AddRecord(buckets: seq<(string, seq<real>)>, r: JsObject, o: TableOptions, cal: Calendar)
    returns (next: seq<(string, seq<real>)>)
    requires Width(buckets, o.months)
    ensures next == Step(buckets, (Cell(r, o.dateKey, o.months, cal), Value(r, o.valueKey)), o.months)
  {
    var signup := Field(r, o.dateKey);
    var cohort := MonthKeyFromDate(signup, cal);
    if cohort.None? {
      assert Cell(r, o.dateKey, o.months, cal).None?;
      return buckets;
    }
    var eventDate := Or(Field(r, "event_date"), Or(Field(r, "date"), signup));
    assert eventDate == EventDate(r, signup);
    var offset := MonthsBetween(signup, eventDate, cal);
    if offset.None? || offset.value < 0 || offset.value >= o.months {
      assert Cell(r, o.dateKey, o.months, cal).None?;
      return buckets;
    }
    var val := NumberOr0(Field(r, o.valueKey));
    var c := cohort.value;
    assert Cell(r, o.dateKey, o.months, cal) == Some((c, offset.value));
    next := AddToBucket(buckets, c, offset.value, val, o.months);
  }

  /** `if (!buckets.has(c)) buckets.set(c, ...)` and `arr[offset] += val`. */
  method AddToBucket(buckets: seq<(string, seq<real>)>, c: string, offset: nat, val: real, months: nat)
    returns (next: seq<(string, seq<real>)>)
    requires offset < months && Width(buckets, months)
    ensures next == AddCell(buckets, c, offset, val, months)
  {
    var arr := BucketOf(buckets, c, months);
    arr := arr[offset := arr[offset] + val];
    next := Dict.Put(buckets, c, arr);
  }

  /** `generateCohortTable(records, opts)`; the Map's arrays are modelled as values. */
  method GenerateCohortTable(records: seq<JsObject>, o: TableOptions, cal: Calendar) returns (t: CohortTable)
    ensures t == Table(records, o, cal)
  {
    ghost var ls := Landings(records, o, cal);
    var buckets: seq<(string, seq<real>)> := [];
    for i := 0 to |records|
      invariant buckets == Fill(ls[..i], o.months)
    {
      assert ls[..i + 1][..i] == ls[..i];
      assert ls[..i + 1][i] == ls[i] == (Cell(records[i], o.dateKey, o.months, cal), Value(records[i], o.valueKey));
      buckets := AddRecord(buckets, records[i], o, cal);
    }
    assert ls[..|records|] == ls;
    var headers := Headers(o.months);
    var sorted := Order.Sort(buckets, CohortKey, true);
    t := CohortTable(headers, seq(|sorted|, j requires 0 <= j < |sorted| => RowOf(sorted[j])));
  }

  /** The sum of what the landings add to cell `(c, i)`. */
  function CellSum(ls: seq<Landing>, c: string, i: int): real {
    if ls == [] then 0.0
    else CellSum(ls[..|ls| - 1], c, i) + (if ls[|ls| - 1].0 == Some((c, i)) then ls[|ls| - 1].1 else 0.0)
  }

  /** Whether some landing adds to cohort `c` inside the window. */
  ghost predicate HasCohort(ls: seq<Landing>, c: string, months: int) {
    exists j :: 0 <= j < |ls| && Lands(ls[j], c, months)
  }

  /** A cohort has a bucket exactly when some landing adds to it inside the window; keys are distinct. */
  lemma {:induction false} FillKeys(ls: seq<Landing>, months: int, c: string)
    ensures Dict.Get(Fill(ls, months), c).Some? <==> HasCohort(ls, c, months)
    ensures Dict.Distinct(Dict.Keys(Fill(ls, months)))
  {
    if ls != [] {
      var p := ls[..|ls| - 1];
      var l := ls[|ls| - 1];
      var bp := Fill(p, months);
      FillKeys(p, months, c);
      HasCohortStep(p, l, c, months);
      assert ls == p + [l];
      if l.0.Some? && 0 <= l.0.value.1 < months {
        FillAdd(p, l, months);
        var (c', offset) := l.0.value;
        var arr := BucketOf(bp, c', months);
        Dict.GetPut(bp, c', arr[offset := arr[offset] + l.1], c);
        Dict.PutKeepsDistinct(bp, c', arr[offset := arr[offset] + l.1]);
      } else {
        FillSkip(p, l, months);
      }
    }
  }

  /** Each bucket has `months` sums, each the total of what lands in its cell. */
  lemma FillValues(ls: seq<Landing>, months: int, c: string)
    requires Dict.Get(Fill(ls, months), c).Some?
    ensures |Dict.Get(Fill(ls, months), c).value| == months
    ensures forall i :: 0 <= i < months ==> Dict.Get(Fill(ls, months), c).value[i] == CellSum(ls, c, i)
  {
    Dict.GetEntry(Fill(ls, months), c);
    forall i | 0 <= i < months ensures Dict.Get(Fill(ls, months), c).value[i] == CellSum(ls, c, i) {
      FillValue(ls, months, c, i);
    }
  }

  /** Cell `(c, i)` of a bucket holds the total of what lands in it. */
  lemma {:induction false} FillValue(ls: seq<Landing>, months: int, c: string, i: int)
    requires Dict.Get(Fill(ls, months), c).Some? && 0 <= i < months
    ensures |Dict.Get(Fill(ls, months), c).value| == months
    ensures Dict.Get(Fill(ls, months), c).value[i] == CellSum(ls, c, i)
  {
    var b := Fill(ls, months);
    Dict.GetEntry(b, c);
    var p := ls[..|ls| - 1];
    var l := ls[|ls| - 1];
    var bp := Fill(p, months);
    assert ls == p + [l];
    assert CellSum(ls, c, i) == CellSum(p, c, i) + (if l.0 == Some((c, i)) then l.1 else 0.0);
    if l.0.Some? && 0 <= l.0.value.1 < months {
      FillAdd(p, l, months);
      var (c', offset) := l.0.value;
      var arr := BucketOf(bp, c', months);
      Dict.GetPut(bp, c', arr[offset := arr[offset] + l.1], c);
      if c' == c {
        Dict.GetKeys(bp, c);
        if Dict.Get(bp, c).Some? {
          FillValue(p, months, c, i);
        } else {
          NoLandingCell(p, months, c, i);
        }
      } else {
        FillValue(p, months, c, i);
      }
    } else {
      FillSkip(p, l, months);
      FillValue(p, months, c, i);
    }
  }

  /** A cohort without a bucket has nothing in any cell of the window. */
  lemma NoLandingCell(ls: seq<Landing>, months: int, c: string, i: int)
    requires Dict.Get(Fill(ls, months), c).None? && 0 <= i < months
    ensures CellSum(ls, c, i) == 0.0
  {
    FillKeys(ls, months, c);
    NoLandingSum(ls, c, i, months);
  }

  lemma {:induction false} NoLandingSum(ls: seq<Landing>, c: string, i: int, months: int)
    requires 0 <= i < months && !HasCohort(ls, c, months)
    ensures CellSum(ls, c, i) == 0.0
  {
    if ls != [] {
      var p := ls[..|ls| - 1];
      HasCohortStep(p, ls[|ls| - 1], c, months);
      assert ls == p + [ls[|ls| - 1]];
      NoLandingSum(p, c, i, months);
    }
  }

  lemma HasCohortStep(p: seq<Landing>, l: Landing, c: string, months: int)
    ensures HasCohort(p + [l], c, months) <==> HasCohort(p, c, months) || Lands(l, c, months)
  {
    var s := p + [l];
    if HasCohort(s, c, months) && !Lands(l, c, months) {
      var j :| 0 <= j < |s| && Lands(s[j], c, months);
      assert j < |p| && s[j] == p[j];
    }
    if HasCohort(p, c, months) {
      var j :| 0 <= j < |p| && Lands(p[j], c, months);
      assert s[j] == p[j];
    }
    if Lands(l, c, months) {
      assert s[|p|] == l;
    }
  }

  /** The buckets have distinct keys, so their sort is strictly descending and a permutation of them. */
  lemma SortedBuckets(ls: seq<Landing>, months: int)
    ensures var b := Fill(ls, months);
      Order.Sorted(Order.Sort(b, CohortKey, true), CohortKey, true) && multiset(Order.Sort(b, CohortKey, true)) == multiset(b)
  {
    var b := Fill(ls, months);
    FillKeys(ls, months, "");
    assert Order.DistinctKeys(b, CohortKey) by {
      forall i, j | 0 <= i < j < |b| ensures CohortKey(b[i]) != CohortKey(b[j]) {
        assert Dict.Keys(b)[i] != Dict.Keys(b)[j];
      }
    }
    Order.SortFacts(b, CohortKey, true);
  }

  /** The rows are strictly descending by cohort key, so no cohort appears twice. */
  lemma RowsOrdered(ls: seq<Landing>, months: int)
    ensures var rows := Rows(ls, months);
      forall i, j :: 0 <= i < j < |rows| ==> LexLess(rows[j].cohort, rows[i].cohort)
  {
    SortedBuckets(ls, months);
  }

  /** Every row is a cohort some landing adds to, with `months` values: the sums of its cells. */
  lemma RowsContents(ls: seq<Landing>, months: int)
    ensures forall row :: row in Rows(ls, months) ==>
      && |row.values| == months && HasCohort(ls, row.cohort, months)
      && (forall i :: 0 <= i < months ==> row.values[i] == CellSum(ls, row.cohort, i))
  {
    var b := Fill(ls, months);
    var sorted := Order.Sort(b, CohortKey, true);
    var rows := Rows(ls, months);
    SortedBuckets(ls, months);
    forall row | row in rows
      ensures |row.values| == months && HasCohort(ls, row.cohort, months)
      ensures forall i :: 0 <= i < months ==> row.values[i] == CellSum(ls, row.cohort, i)
    {
      var k :| 0 <= k < |rows| && rows[k] == row;
      var e := sorted[k];
      assert row == RowOf(e);
      assert e in multiset(b);
      BucketContents(ls, months, e);
    }
  }

  /** A bucket belongs to a cohort some landing adds to, and holds the sums of its cells. */
  lemma BucketContents(ls: seq<Landing>, months: int, e: (string, seq<real>))
    requires e in Fill(ls, months)
    ensures |e.1| == months && HasCohort(ls, e.0, months)
    ensures forall i :: 0 <= i < months ==> e.1[i] == CellSum(ls, e.0, i)
  {
    var b := Fill(ls, months);
    var j :| 0 <= j < |b| && b[j] == e;
    FillKeys(ls, months, e.0);
    Dict.DistinctGet(b, j);
    FillValues(ls, months, e.0);
  }

  /** Every cohort some landing adds to has a row. */
  lemma RowsCover(ls: seq<Landing>, months: int)
    ensures forall c :: HasCohort(ls, c, months) ==> exists row :: row in Rows(ls, months) && row.cohort == c
  {
    var b := Fill(ls, months);
    var sorted := Order.Sort(b, CohortKey, true);
    var rows := Rows(ls, months);
    SortedBuckets(ls, months);
    forall c | HasCohort(ls, c, months)
      ensures exists row :: row in rows && row.cohort == c
    {
      FillKeys(ls, months, c);
      Dict.GetEntry(b, c);
      var e := (c, Dict.Get(b, c).value);
      assert e in multiset(sorted);
      var k :| 0 <= k < |sorted| && sorted[k] == e;
      assert rows[k] == RowOf(e);
    }
  }

  /**
   * The headers are `'0' .. String(months - 1)`; the rows are the cohorts some record lands
   * in, each once, strictly descending by key; every row has exactly `months` values, the
   * sums of the values landing in its cells.
   */
  lemma TableFacts(records: seq<JsObject>, o: TableOptions, cal: Calendar)
    ensures var t := Table(records, o, cal);
      && |t.headers| == MaxInt(0, o.months)
      && (forall i :: 0 <= i < |t.headers| ==> t.headers[i] == NatToString(i))
      && (forall i, j :: 0 <= i < j < |t.rows| ==> LexLess(t.rows[j].cohort, t.rows[i].cohort))
    ensures var ls := Landings(records, o, cal);
      forall row :: row in Table(records, o, cal).rows ==>
        && |row.values| == o.months && HasCohort(ls, row.cohort, o.months)
        && (forall i :: 0 <= i < o.months ==> row.values[i] == CellSum(ls, row.cohort, i))
    ensures forall c :: HasCohort(Landings(records, o, cal), c, o.months) ==>
      exists row :: row in Table(records, o, cal).rows && row.cohort == c
  {
    var ls := Landings(records, o, cal);
    RowsOrdered(ls, o.months);
    RowsContents(ls, o.months);
    RowsCover(ls, o.months);
  }

  /** A record whose signup date is invalid, or whose offset is outside the window, changes nothing. */
  lemma SkippedRecord(records: seq<JsObject>, r: JsObject, o: TableOptions, cal: Calendar)
    requires Cell(r, o.dateKey, o.months, cal).None?
    ensures Table(records + [r], o, cal) == Table(records, o, cal)
  {
    var ls := Landings(records + [r], o, cal);
    assert ls[..|records|] == Landings(records, o, cal);
  }

  /** Every record whose signup date is invalid lands nowhere. */
  lemma InvalidSignupSkipped(r: JsObject, o: TableOptions, cal: Calendar)
    requires NewDate(Field(r, o.dateKey), cal).None?
    ensures Cell(r, o.dateKey, o.months, cal).None?
  {
  }

  // ---------------------------------------------------------------------------------------
  // generateCohortRetention
  // ---------------------------------------------------------------------------------------

  datatype RetentionRow = RetentionRow(cohort: string, values: seq<real>, retention: seq<real>)

  /** `r.values.map(v => (baseline > 0 ? (v / baseline) * 100 : 0))` with `baseline = r.values[0] || 0`. */
  function Retention(values: seq<real>): seq<real> {
    var baseline := if |values| > 0 then values[0] else 0.0;
    seq(|values|, i requires 0 <= i < |values| => if baseline > 0.0 then values[i] / baseline * 100.0 else 0.0)
  }

  /** What `generateCohortRetention(records, opts)` returns. */
  function RetentionTable(records: seq<JsObject>, o: TableOptions, cal: Calendar): (seq<string>, seq<RetentionRow>) {
    var t := Table(records, o, cal);
    (t.headers, seq(|t.rows|, i requires 0 <= i < |t.rows| => RetentionRow(t.rows[i].cohort, t.rows[i].values, Retention(t.rows[i].values))))
  }

  /**
   * One percentage per value; with a positive month-0 value the first is 100 and each is the
   * value as a share of month 0, in the same order as the values; otherwise all are 0.
   */
  lemma RetentionFacts(values: seq<real>)
    ensures |Retention(values)| == |values|
    ensures |values| > 0 && values[0] > 0.0 ==> Retention(values)[0] == 100.0
    ensures |values| > 0 && values[0] > 0.0 ==>
      forall i :: 0 <= i < |values| ==> Retention(values)[i] * values[0] == 100.0 * values[i]
    ensures |values| > 0 && values[0] > 0.0 ==>
      forall i, j :: 0 <= i < |values| && 0 <= j < |values| && values[i] <= values[j] ==> Retention(values)[i] <= Retention(values)[j]
    ensures (|values| == 0 || values[0] <= 0.0) ==> forall i :: 0 <= i < |values| ==> Retention(values)[i] == 0.0
  {
    if |values| > 0 && values[0] > 0.0 {
      var b := values[0];
      assert b / b == 1.0;
      forall i, j | 0 <= i < |values| && 0 <= j < |values| && values[i] <= values[j]
        ensures Retention(values)[i] <= Retention(values)[j]
      {
        assert values[i] / b <= values[j] / b by {
          assert values[i] / b * b == values[i];
          assert values[j] / b * b == values[j];
        }
      }
    }
  }

  /** The retention table keeps the cohort table's headers, cohorts and values. */
  lemma RetentionKeepsTable(records: seq<JsObject>, o: TableOptions, cal: Calendar)
    ensures var (h, rows) := RetentionTable(records, o, cal);
      && h == Table(records, o, cal).headers
      && |rows| == |Table(records, o, cal).rows|
      && forall i :: 0 <= i < |rows| ==> CohortRow(rows[i].cohort, rows[i].values) == Table(records, o, cal).rows[i] && rows[i].retention == Retention(rows[i].values)
  {
  }

  // ---------------------------------------------------------------------------------------
  // topCustomers
  // ---------------------------------------------------------------------------------------

  /** `{ valueKey = 'mrr', idKey = 'customer_id', limit = 10 }`. */
  datatype TopOptions = TopOptions(valueKey: string, idKey: string, limit: int)

  /** `r[idKey] || r.id || r.name || 'unknown'`. */
  function CustomerId(r: JsObject, idKey: string): JsValue {
    Or(Field(r, idKey), Or(Field(r, "id"), Or(Field(r, "name"), JStr("unknown"))))
  }

  /** Each record's `(id, value)` pair, in record order. */
  function IdEntries(records: seq<JsObject>, o: TopOptions): (es: seq<(JsValue, real)>)
    ensures |es| == |records|
  {
    seq(|records|, i requires 0 <= i < |records| => (CustomerId(records[i], o.idKey), Value(records[i], o.valueKey)))
  }

  /** What `topCustomers(records, opts)` returns, as `(id, total)` pairs. */
  function Top(records: seq<JsObject>, o: TopOptions): seq<(JsValue, real)> {
    SliceTo(Dict.SortDesc(Dict.GroupSum(IdEntries(records, o)), Dict.Snd), o.limit)
  }

  /** `topCustomers(records, opts)`. */
  method TopCustomers(records: seq<JsObject>, o: TopOptions) returns (out: seq<(JsValue, real)>)
    ensures out == Top(records, o)
  {
    ghost var es := IdEntries(records, o);
    var m: seq<(JsValue, real)> := [];
    for i := 0 to |records|
      invariant m == Dict.GroupSum(es[..i])
    {
      assert es[..i + 1][..i] == es[..i];
      var r := records[i];
      var id := Or(Field(r, o.idKey), Or(Field(r, "id"), Or(Field(r, "name"), JStr("unknown"))));
      var v := NumberOr0(Field(r, o.valueKey));
      assert es[i] == (id, v);
      assert es[..i + 1][i] == es[i];
      ghost var next := Dict.AddTo(m, id, v);
      assert Dict.GroupSum(es[..i + 1]) == next;
      var total := Dict.Get(m, id).GetOr(0.0) + v;
      Dict.AddToIsPut(m, id, v, total);
      m := Dict.Put(m, id, total);
    }
    assert es[..|records|] == es;
    out := SliceTo(Dict.SortDesc(m, Dict.Snd), o.limit);
  }

  /** The id precedence: the first truthy of `r[idKey]`, `id`, `name`, else `'unknown'`. */
  lemma CustomerIdPrecedence(r: JsObject, idKey: string)
    ensures Truthy(Field(r, idKey)) ==> CustomerId(r, idKey) == Field(r, idKey)
    ensures !Truthy(Field(r, idKey)) && Truthy(Field(r, "id")) ==> CustomerId(r, idKey) == Field(r, "id")
    ensures !Truthy(Field(r, idKey)) && !Truthy(Field(r, "id")) && Truthy(Field(r, "name")) ==> CustomerId(r, idKey) == Field(r, "name")
    ensures !Truthy(Field(r, idKey)) && !Truthy(Field(r, "id")) && !Truthy(Field(r, "name")) ==> CustomerId(r, idKey) == JStr("unknown")
  {
  }

  /**
   * The list is sorted by total, largest first, keeps first-seen order among equal totals,
   * has at most `limit` entries and at most one per distinct id, and pairs each id of the
   * records with the sum of its records' values.
   */
  lemma TopFacts(records: seq<JsObject>, o: TopOptions)
    ensures Dict.SortedDesc(Top(records, o), Dict.Snd)
    ensures 0 <= o.limit ==> |Top(records, o)| <= o.limit
    ensures Dict.Distinct(Dict.Keys(Dict.GroupSum(IdEntries(records, o))))
    ensures |Top(records, o)| <= |Dict.GroupSum(IdEntries(records, o))|
    ensures Top(records, o) == Dict.SortDesc(Dict.GroupSum(IdEntries(records, o)), Dict.Snd)[..|Top(records, o)|]
    ensures forall v :: Dict.WithKey(Dict.SortDesc(Dict.GroupSum(IdEntries(records, o)), Dict.Snd), Dict.Snd, v)
                     == Dict.WithKey(Dict.GroupSum(IdEntries(records, o)), Dict.Snd, v)
    ensures forall e :: e in Top(records, o) ==>
      (exists i :: 0 <= i < |records| && CustomerId(records[i], o.idKey) == e.0) && e.1 == Dict.KeySum(IdEntries(records, o), e.0)
  {
    var es := IdEntries(records, o);
    var d := Dict.GroupSum(es);
    var full := Dict.SortDesc(d, Dict.Snd);
    var t := Top(records, o);
    Dict.SortDescFacts(d, Dict.Snd);
    Dict.GroupSumKeys(es, JUndefined);
    forall e | e in t
      ensures (exists i :: 0 <= i < |records| && CustomerId(records[i], o.idKey) == e.0) && e.1 == Dict.KeySum(es, e.0)
    {
      assert e in full;
      assert e in multiset(full);
      assert e in d;
      Dict.GroupSumEntry(es, e);
      var i :| 0 <= i < |es| && es[i].0 == e.0;
      assert CustomerId(records[i], o.idKey) == e.0;
    }
  }

  // ---------------------------------------------------------------------------------------
  // listCustomersForCell
  // ---------------------------------------------------------------------------------------

  /** A month key as the value `monthKeyFromDate` returns: a string or `null`. */
  function KeyValue(k: Option<string>): JsValue {
    match k
    case Some(s) => JStr(s)
    case None => JNull
  }

  /** `c === cohort` and `offset === monthIndex` for record `r`. */
  predicate InCell(r: JsObject, dateKey: string, cohort: JsValue, monthIndex: JsValue, cal: Calendar) {
    var signup := Field(r, dateKey);
    && KeyValue(MonthKeyFromDate(signup, cal)) == cohort
    && match MonthsBetween(signup, EventDate(r, signup), cal)
       case None => false
       case Some(offset) => monthIndex == JNum(offset as real)
  }

  /** The records of cell `(cohort, monthIndex)`, in input order. */
  function CellRecords(records: seq<JsObject>, dateKey: string, cohort: JsValue, monthIndex: JsValue, cal: Calendar): seq<JsObject> {
    if records == [] then []
    else
      var out := CellRecords(records[..|records| - 1], dateKey, cohort, monthIndex, cal);
      var r := records[|records| - 1];
      if InCell(r, dateKey, cohort, monthIndex, cal) then out + [r] else out
  }

  /** What `listCustomersForCell(records, { dateKey, cohort, monthIndex })` returns. */
  function ListForCell(records: seq<JsObject>, dateKey: string, cohort: JsValue, monthIndex: JsValue, cal: Calendar): seq<JsObject> {
    if !Truthy(cohort) || !IsNumberType(monthIndex) then [] else CellRecords(records, dateKey, cohort, monthIndex, cal)
  }

  /** `listCustomersForCell(records, { dateKey, cohort, monthIndex })`. */
  method ListCustomersForCell(records: seq<JsObject>, dateKey: string, cohort: JsValue, monthIndex: JsValue, cal: Calendar)
    returns (out: seq<JsObject>)
    ensures out == ListForCell(records, dateKey, cohort, monthIndex, cal)
  {
    if !Truthy(cohort) || !IsNumberType(monthIndex) {
      return [];
    }
    out := [];
    for i := 0 to |records|
      invariant out == CellRecords(records[..i], dateKey, cohort, monthIndex, cal)
    {
      assert records[..i + 1][..i] == records[..i];
      var r := records[i];
      var signup := Field(r, dateKey);
      var c := KeyValue(MonthKeyFromDate(signup, cal));
      if c != cohort {
        continue;
      }
      var eventDate := Or(Field(r, "event_date"), Or(Field(r, "date"), signup));
      var offset := MonthsBetween(signup, eventDate, cal);
      if offset.Some? && monthIndex == JNum(offset.value as real) {
        out := out + [r];
      }
    }
    assert records[..|records|] == records;
  }

  /** The total of the records' values. */
  function ValueSum(rs: seq<JsObject>, valueKey: string): real {
    if rs == [] then 0.0 else ValueSum(rs[..|rs| - 1], valueKey) + Value(rs[|rs| - 1], valueKey)
  }

  /** Without a cohort or a numeric month index the list is empty. */
  lemma ListNeedsCell(records: seq<JsObject>, dateKey: string, cohort: JsValue, monthIndex: JsValue, cal: Calendar)
    ensures !Truthy(cohort) ==> ListForCell(records, dateKey, cohort, monthIndex, cal) == []
    ensures !monthIndex.JNum? && !monthIndex.JNaN? ==> ListForCell(records, dateKey, cohort, monthIndex, cal) == []
  {
  }

  /** The list is exactly the input's records of that cell. */
  lemma {:induction false} CellRecordsMembers(records: seq<JsObject>, dateKey: string, cohort: JsValue, monthIndex: JsValue, cal: Calendar)
    ensures forall r :: r in CellRecords(records, dateKey, cohort, monthIndex, cal) <==>
      r in records && InCell(r, dateKey, cohort, monthIndex, cal)
  {
    if records != [] {
      var p := records[..|records| - 1];
      CellRecordsMembers(p, dateKey, cohort, monthIndex, cal);
      assert records == p + [records[|records| - 1]];
    }
  }

  /**
   * For a cell inside the window, the values of the listed records add up to that cell of
   * the cohort table built with the same date key.
   */
  lemma ListSumIsCell(records: seq<JsObject>, o: TableOptions, c: string, i: int, cal: Calendar)
    requires 0 <= i < o.months
    ensures ValueSum(ListForCell(records, o.dateKey, JStr(c), JNum(i as real), cal), o.valueKey) == CellSum(Landings(records, o, cal), c, i)
  {
    if c == "" {
      NoEmptyCohort(records, o, i, cal);
    } else {
      CellRecordsSum(records, o, c, i, cal);
    }
  }

  lemma {:induction false} CellRecordsSum(records: seq<JsObject>, o: TableOptions, c: string, i: int, cal: Calendar)
    requires 0 <= i < o.months
    ensures ValueSum(CellRecords(records, o.dateKey, JStr(c), JNum(i as real), cal), o.valueKey) == CellSum(Landings(records, o, cal), c, i)
  {
    if records != [] {
      var p := records[..|records| - 1];
      var r := records[|records| - 1];
      var ls := Landings(records, o, cal);
      assert ls[..|ls| - 1] == Landings(p, o, cal);
      assert ls[|ls| - 1] == (Cell(r, o.dateKey, o.months, cal), Value(r, o.valueKey));
      CellRecordsSum(p, o, c, i, cal);
      var out := CellRecords(p, o.dateKey, JStr(c), JNum(i as real), cal);
      InCellIsCell(r, o, c, i, cal);
      if InCell(r, o.dateKey, JStr(c), JNum(i as real), cal) {
        assert (out + [r])[..|out + [r]| - 1] == out;
      }
    }
  }

  /** The empty key names no cohort: every month key is non-empty. */
  lemma {:induction false} NoEmptyCohort(records: seq<JsObject>, o: TableOptions, i: int, cal: Calendar)
    ensures CellSum(Landings(records, o, cal), "", i) == 0.0
  {
    if records != [] {
      var p := records[..|records| - 1];
      var r := records[|records| - 1];
      var ls := Landings(records, o, cal);
      assert ls[..|ls| - 1] == Landings(p, o, cal);
      NoEmptyCohort(p, o, i, cal);
      MonthKeyFromDateFacts(Field(r, o.dateKey), cal);
    }
  }

  /** Inside the window, matching a cell and landing in it are the same. */
  lemma InCellIsCell(r: JsObject, o: TableOptions, c: string, i: int, cal: Calendar)
    requires 0 <= i < o.months
    ensures InCell(r, o.dateKey, JStr(c), JNum(i as real), cal) <==> Cell(r, o.dateKey, o.months, cal) == Some((c, i))
  {
  }
}
