/**
 * `computeMonthlySeries(records)`: customer records become one row per calendar month with
 * the month's total MRR and how it moved against the month before (new customers, expansion
 * and churn). The date field is found by inspection, customers are keyed by `id` or `name`,
 * and within a month the last record of a customer wins.
 */
module Analytics {
  import opened Common
  import opened Text
  import opened Js
  import Dict
  import Order
  import ClientCohorts

  /** One month's customers: customer key to MRR, in insertion order. */
  type Customers = seq<(string, real)>

  /** `monthCustomerMap`: month key to that month's customers, in insertion order. */
  type MonthMap = seq<(string, Customers)>

  /** `{ period, total, new, expansion, churn }`. */
  datatype SeriesRow = SeriesRow(period: string, total: real, gained: real, expansion: real, churn: real)

  // ---------------------------------------------------------------------------------------
  // Choosing the date field
  // ---------------------------------------------------------------------------------------

  /** The fields tried first, in order. */
  const DateKeys: seq<string> := ["date", "month", "created_at", "createdAt", "uploadedAt", "start_date", "signupDate"]

  /** The test inside `records.some(...)`: a non-empty string or a `Date` that gives a valid date. */
  predicate DateLike(v: JsValue, cal: Calendar) {
    && !(v.JUndefined? || v.JNull? || v == JStr(""))
    && (v.JStr? || v.JDate?)
    && NewDate(v, cal).Some?
  }

  /** `records.some(r => ...)` for field `k`. */
  predicate AnyDate(records: seq<JsObject>, k: string, cal: Calendar) {
    exists i :: 0 <= i < |records| && DateLike(Field(records[i], k), cal)
  }

  /** The first of `ks` that some record holds a date in. */
  function FirstDateKey(ks: seq<string>, records: seq<JsObject>, cal: Calendar): Option<string> {
    if ks == [] then None
    else if AnyDate(records, ks[0], cal) then Some(ks[0])
    else FirstDateKey(ks[1..], records, cal)
  }

  /**
   * `foundKey`: the first of `DateKeys` that works, else the first own field of `records[0]`
   * that works, unless that field is the empty string, which is falsy.
   */
  function FoundKey(records: seq<JsObject>, cal: Calendar): Option<string> {
    match FirstDateKey(DateKeys, records, cal)
    case Some(k) => Some(k)
    case None =>
      if records == [] then None
      else
        match FirstDateKey(Dict.Keys(records[0]), records, cal)
        case Some(k) => if k != "" then Some(k) else None
        case None => None
  }

  /** The `for ... of` loop over the fixed keys, and `Object.keys(records[0]).find(...)`. */
  method FindDateKey(ks: seq<string>, records: seq<JsObject>, cal: Calendar) returns (found: Option<string>)
    ensures found == FirstDateKey(ks, records, cal)
  {
    for j := 0 to |ks|
      invariant FirstDateKey(ks[j..], records, cal) == FirstDateKey(ks, records, cal)
    {
      assert ks[j..][1..] == ks[j + 1..];
      if AnyDate(records, ks[j], cal) {
        return Some(ks[j]);
      }
    }
    return None;
  }

  /** The first key that works and no earlier one does; if none works there is none. */
  lemma {:induction false} FirstDateKeyFacts(ks: seq<string>, records: seq<JsObject>, cal: Calendar)
    ensures FirstDateKey(ks, records, cal).Some? <==> exists j :: 0 <= j < |ks| && AnyDate(records, ks[j], cal)
    ensures FirstDateKey(ks, records, cal).Some? ==>
      exists j :: 0 <= j < |ks| && ks[j] == FirstDateKey(ks, records, cal).value && AnyDate(records, ks[j], cal)
        && forall j' :: 0 <= j' < j ==> !AnyDate(records, ks[j'], cal)
  {
    if ks != [] && !AnyDate(records, ks[0], cal) {
      FirstDateKeyFacts(ks[1..], records, cal);
      if exists j :: 0 <= j < |ks| && AnyDate(records, ks[j], cal) {
        var j :| 0 <= j < |ks| && AnyDate(records, ks[j], cal);
        assert ks[1..][j - 1] == ks[j];
      }
      if FirstDateKey(ks, records, cal).Some? {
        var j :| 0 <= j < |ks[1..]| && ks[1..][j] == FirstDateKey(ks, records, cal).value && AnyDate(records, ks[1..][j], cal)
          && forall j' :: 0 <= j' < j ==> !AnyDate(records, ks[1..][j'], cal);
        forall j' | 0 <= j' < j + 1 ensures !AnyDate(records, ks[j'], cal) {
          if j' > 0 {
            assert ks[j'] == ks[1..][j' - 1];
          }
        }
      }
    }
  }

  /**
   * The fixed keys take precedence: when one of them works the first such is the key; the
   * fallback to the first record's fields is taken only when none works, and a key is always
   * a field some record holds a date in.
   */
  lemma FoundKeyFacts(records: seq<JsObject>, cal: Calendar)
    ensures (exists j :: 0 <= j < |DateKeys| && AnyDate(records, DateKeys[j], cal)) ==>
      FoundKey(records, cal) == FirstDateKey(DateKeys, records, cal) && FoundKey(records, cal).Some?
    ensures FoundKey(records, cal).Some? ==> AnyDate(records, FoundKey(records, cal).value, cal)
    ensures FoundKey(records, cal).Some? ==> FoundKey(records, cal).value != ""
    ensures records != [] && !(exists j :: 0 <= j < |DateKeys| && AnyDate(records, DateKeys[j], cal)) ==>
      FoundKey(records, cal) == (var c := FirstDateKey(Dict.Keys(records[0]), records, cal); if c == Some("") then None else c)
  {
    FirstDateKeyFacts(DateKeys, records, cal);
    if records != [] {
      FirstDateKeyFacts(Dict.Keys(records[0]), records, cal);
    }
  }

  /** With no record there is no date to find. */
  lemma NoRecordsNoKey(cal: Calendar)
    ensures FoundKey([], cal).None?
  {
    FirstDateKeyFacts(DateKeys, [], cal);
  }

  // ---------------------------------------------------------------------------------------
  // The month map
  // ---------------------------------------------------------------------------------------

  /** The month a record's date field falls in: the guard, `new Date(raw)` and the key. */
  function Period(r: JsObject, key: string, cal: Calendar): Option<string> {
    var raw := Field(r, key);
    if raw.JUndefined? || raw.JNull? || raw == JStr("") then None
    else ClientCohorts.MonthKeyFromDate(raw, cal)
  }

  /**
   * `r.id || r.name || <random>` as a property key; `randomId(i)` is what the random fallback
   * produces for the record at index `i`.
   */
  function CustomerKey(r: JsObject, i: nat, pr: Printer, randomId: nat -> string): string {
    var v := Or(Field(r, "id"), Field(r, "name"));
    if Truthy(v) then ToStr(v, pr) else randomId(i)
  }

  /** What one record does to the month map: the month, the customer and the MRR it writes. */
  type Sighting = Option<(string, string, real)>

  function SightingOf(r: JsObject, i: nat, key: string, cal: Calendar, pr: Printer, randomId: nat -> string): Sighting {
    match Period(r, key, cal)
    case None => None
    case Some(p) => Some((p, CustomerKey(r, i, pr, randomId), NumberOr0(Field(r, "MRR"))))
  }

  /** Each record's sighting, in record order. */
  function Sightings(records: seq<JsObject>, key: string, cal: Calendar, pr: Printer, randomId: nat -> string): (ss: seq<Sighting>)
    ensures |ss| == |records|
  {
    seq(|records|, i requires 0 <= i < |records| => SightingOf(records[i], i, key, cal, pr, randomId))
  }

  /** `monthCustomerMap[m]`, or no customers. */
  function CustomersIn(m: MonthMap, p: string): Customers {
    Dict.Get(m, p).GetOr([])
  }

  /** `monthCustomerMap[key] = monthCustomerMap[key] || {}; monthCustomerMap[key][id] = value`. */
  function Place(m: MonthMap, s: Sighting): MonthMap {
    match s
    case None => m
    case Some((p, c, v)) => Dict.Put(m, p, Dict.Put(CustomersIn(m, p), c, v))
  }

  /** The month map after the sightings `ss`, in order. */
  function Months(ss: seq<Sighting>): MonthMap {
    if ss == [] then [] else Place(Months(ss[..|ss| - 1]), ss[|ss| - 1])
  }

  /** One step of `records.forEach(...)`. */
  method AddToMonths(m: MonthMap, r: JsObject, i: nat, key: string, cal: Calendar, pr: Printer, randomId: nat -> string)
    returns (next: MonthMap)
    ensures next == Place(m, SightingOf(r, i, key, cal, pr, randomId))
  {
    var raw := Field(r, key);
    if raw.JUndefined? || raw.JNull? || raw == JStr("") {
      return m;
    }
    var d := NewDate(raw, cal);
    if d.None? {
      return m;
    }
    var period := ClientCohorts.MonthKey(cal.local(d.value));
    var inner := Dict.Get(m, period).GetOr([]);
    var id := CustomerKey(r, i, pr, randomId);
    next := Dict.Put(m, period, Dict.Put(inner, id, NumberOr0(Field(r, "MRR"))));
  }

  /** Whether some sighting is in month `p`. */
  ghost predicate Seen(ss: seq<Sighting>, p: string) {
    exists i :: 0 <= i < |ss| && ss[i].Some? && ss[i].value.0 == p
  }

  /** The MRR of customer `c` in month `p` from the last record that wrote it. */
  function LastValue(ss: seq<Sighting>, p: string, c: string): Option<real> {
    if ss == [] then None
    else
      match ss[|ss| - 1]
      case Some((p', c', v)) => if p' == p && c' == c then Some(v) else LastValue(ss[..|ss| - 1], p, c)
      case None => LastValue(ss[..|ss| - 1], p, c)
  }

  lemma SeenStep(ss: seq<Sighting>, p: string)
    requires ss != []
    ensures Seen(ss, p) <==> Seen(ss[..|ss| - 1], p) || (ss[|ss| - 1].Some? && ss[|ss| - 1].value.0 == p)
  {
    var q := ss[..|ss| - 1];
    if Seen(ss, p) && !(ss[|ss| - 1].Some? && ss[|ss| - 1].value.0 == p) {
      var i :| 0 <= i < |ss| && ss[i].Some? && ss[i].value.0 == p;
      assert q[i] == ss[i];
    }
    if Seen(q, p) {
      var i :| 0 <= i < |q| && q[i].Some? && q[i].value.0 == p;
      assert ss[i] == q[i];
    }
  }

  /**
   * The map has a month exactly when some record falls in it; months and customers are
   * keyed uniquely; and a customer's MRR in a month is the one from its last record there.
   */
  lemma {:induction false} MonthsFacts(ss: seq<Sighting>, p: string, c: string)
    ensures p in Dict.Keys(Months(ss)) <==> Seen(ss, p)
    ensures Dict.Distinct(Dict.Keys(Months(ss)))
    ensures Dict.Distinct(Dict.Keys(CustomersIn(Months(ss), p)))
    ensures Dict.Get(CustomersIn(Months(ss), p), c) == LastValue(ss, p, c)
  {
    if ss != [] {
      var q := ss[..|ss| - 1];
      var m := Months(q);
      MonthsFacts(q, p, c);
      SeenStep(ss, p);
      Dict.GetKeys(m, p);
      Dict.GetKeys(Months(ss), p);
      match ss[|ss| - 1]
      case None =>
      case Some((p', c', v)) =>
        var inner := Dict.Put(CustomersIn(m, p'), c', v);
        MonthsFacts(q, p', c);
        Dict.PutKeepsDistinct(m, p', inner);
        Dict.GetPut(m, p', inner, p);
        Dict.PutKeepsDistinct(CustomersIn(m, p'), c', v);
        Dict.GetPut(CustomersIn(m, p'), c', v, c);
    }
  }

  // ---------------------------------------------------------------------------------------
  // Month-over-month movement
  // ---------------------------------------------------------------------------------------

  /** New revenue: the MRR of customers the previous month does not have. */
  function Gained(cur: Customers, prev: Customers): real {
    if cur == [] then 0.0
    else (if Dict.Get(prev, cur[0].0).None? then cur[0].1 else 0.0) + Gained(cur[1..], prev)
  }

  /** Expansion: the increases of customers present in both months. */
  function Expansion(cur: Customers, prev: Customers): real {
    if cur == [] then 0.0
    else
      var p := Dict.Get(prev, cur[0].0);
      (if p.Some? && cur[0].1 > p.value then cur[0].1 - p.value else 0.0) + Expansion(cur[1..], prev)
  }

  /** The decreases of customers present in both months. */
  function Drop(cur: Customers, prev: Customers): real {
    if cur == [] then 0.0
    else
      var p := Dict.Get(prev, cur[0].0);
      (if p.Some? && cur[0].1 < p.value then p.value - cur[0].1 else 0.0) + Drop(cur[1..], prev)
  }

  /** The previous MRR of customers whose current MRR is missing or zero (falsy). */
  function Lost(prev: Customers, cur: Customers): real {
    if prev == [] then 0.0
    else
      var c := Dict.Get(cur, prev[0].0);
      (if !(c.Some? && c.value != 0.0) then prev[0].1 else 0.0) + Lost(prev[1..], cur)
  }

  /** Churn: the decreases plus the previous MRR of customers gone or at zero. */
  function Churn(cur: Customers, prev: Customers): real {
    Drop(cur, prev) + Lost(prev, cur)
  }

  /** The previous MRR of customers still present at exactly zero: these count in churn twice. */
  function Doubled(prev: Customers, cur: Customers): real {
    if prev == [] then 0.0
    else (if Dict.Get(cur, prev[0].0) == Some(0.0) then prev[0].1 else 0.0) + Doubled(prev[1..], cur)
  }

  /** The two `forEach` loops of one later month, with their `let` accumulators. */
  method Movement(cur: Customers, prev: Customers) returns (gained: real, expansion: real, churn: real)
    requires Dict.Distinct(Dict.Keys(cur)) && Dict.Distinct(Dict.Keys(prev))
    ensures gained == Gained(cur, prev) && expansion == Expansion(cur, prev) && churn == Churn(cur, prev)
  {
    var ids := Dict.Keys(cur);
    gained, expansion, churn := 0.0, 0.0, 0.0;
    for i := 0 to |ids|
      invariant gained + Gained(cur[i..], prev) == Gained(cur, prev)
      invariant expansion + Expansion(cur[i..], prev) == Expansion(cur, prev)
      invariant churn + Drop(cur[i..], prev) == Drop(cur, prev)
    {
      assert cur[i..][1..] == cur[i + 1..];
      Dict.DistinctGet(cur, i);
      var c := Dict.Get(cur, ids[i]).GetOr(0.0);
      var p := Dict.Get(prev, ids[i]);
      if p.None? {
        gained := gained + c;
      } else if c > p.value {
        expansion := expansion + (c - p.value);
      } else if c < p.value {
        churn := churn + (p.value - c);
      }
    }
    var prevIds := Dict.Keys(prev);
    for j := 0 to |prevIds|
      invariant churn + Lost(prev[j..], cur) == Churn(cur, prev)
    {
      assert prev[j..][1..] == prev[j + 1..];
      Dict.DistinctGet(prev, j);
      var c := Dict.Get(cur, prevIds[j]);
      if !(c.Some? && c.value != 0.0) {
        churn := churn + Dict.Get(prev, prevIds[j]).value;
      }
    }
  }

  // ---------------------------------------------------------------------------------------
  // The series
  // ---------------------------------------------------------------------------------------

  function Id(s: string): string { s }

  /** `Object.keys(monthCustomerMap).sort()`. */
  function Periods(m: MonthMap): seq<string> {
    Order.Sort(Dict.Keys(m), Id, false)
  }

  /** The row for month `ps[idx]`. */
  function RowAt(m: MonthMap, ps: seq<string>, idx: nat): SeriesRow
    requires idx < |ps|
  {
    var cur := CustomersIn(m, ps[idx]);
    var total := Dict.SumValues(cur);
    if idx == 0 then SeriesRow(ps[0], total, total, 0.0, 0.0)
    else
      var prev := CustomersIn(m, ps[idx - 1]);
      SeriesRow(ps[idx], total, Gained(cur, prev), Expansion(cur, prev), Churn(cur, prev))
  }

  function Series(m: MonthMap, ps: seq<string>): (rows: seq<SeriesRow>)
    ensures |rows| == |ps|
  {
    seq(|ps|, idx requires 0 <= idx < |ps| => RowAt(m, ps, idx))
  }

  /** What `computeMonthlySeries(records)` returns; `None` is `null`. */
  function MonthlySeries(records: seq<JsObject>, cal: Calendar, pr: Printer, randomId: nat -> string): Option<seq<SeriesRow>> {
    if records == [] then None
    else
      match FoundKey(records, cal)
      case None => None
      case Some(k) =>
        SeriesOf(Sightings(records, k, cal, pr, randomId))
  }

  /** The series the sightings `ss` give; `None` when no record falls in any month. */
  function SeriesOf(ss: seq<Sighting>): Option<seq<SeriesRow>> {
    var m := Months(ss);
    var ps := Periods(m);
    if ps == [] then None else Some(Series(m, ps))
  }

  /** Every month's customers are keyed uniquely. */
  ghost predicate WellKeyed(m: MonthMap) {
    forall p :: Dict.Distinct(Dict.Keys(CustomersIn(m, p)))
  }

  lemma MonthsWellKeyed(ss: seq<Sighting>)
    ensures WellKeyed(Months(ss))
  {
    forall p ensures Dict.Distinct(Dict.Keys(CustomersIn(Months(ss), p))) {
      MonthsFacts(ss, p, "");
    }
  }

  /** `records.forEach(...)` filling `monthCustomerMap`. */
  method BuildMonths(records: seq<JsObject>, key: string, cal: Calendar, pr: Printer, randomId: nat -> string)
    returns (m: MonthMap)
    ensures m == Months(Sightings(records, key, cal, pr, randomId))
  {
    ghost var ss := Sightings(records, key, cal, pr, randomId);
    m := [];
    for i := 0 to |records|
      invariant m == Months(ss[..i])
    {
      assert ss[..i + 1][..i] == ss[..i];
      assert ss[..i + 1][i] == ss[i] == SightingOf(records[i], i, key, cal, pr, randomId);
      m := AddToMonths(m, records[i], i, key, cal, pr, randomId);
    }
    assert ss[..|records|] == ss;
  }

  /** `series.map((row, idx) => ...)`: each month's total and its movement against the month before. */
  method Enrich(m: MonthMap, months: seq<string>) returns (rows: seq<SeriesRow>)
    requires WellKeyed(m)
    ensures rows == Series(m, months)
  {
    rows := [];
    for idx := 0 to |months|
      invariant |rows| == idx
      invariant forall j :: 0 <= j < idx ==> rows[j] == RowAt(m, months, j)
    {
      var cur := Dict.Get(m, months[idx]).GetOr([]);
      var total := Dict.SumValues(cur);
      if idx == 0 {
        rows := rows + [SeriesRow(months[0], total, total, 0.0, 0.0)];
      } else {
        var prev := Dict.Get(m, months[idx - 1]).GetOr([]);
        assert cur == CustomersIn(m, months[idx]) && prev == CustomersIn(m, months[idx - 1]);
        var gained, expansion, churn := Movement(cur, prev);
        rows := rows + [SeriesRow(months[idx], total, gained, expansion, churn)];
      }
    }
  }

  /** `computeMonthlySeries(records)`. */
  method ComputeMonthlySeries(records: seq<JsObject>, cal: Calendar, pr: Printer, randomId: nat -> string)
    returns (out: Option<seq<SeriesRow>>)
    ensures out == MonthlySeries(records, cal, pr, randomId)
  {
    if |records| == 0 {
      return None;
    }
    var foundKey := FindDateKey(DateKeys, records, cal);
    if foundKey.None? {
      var candidate := FindDateKey(Dict.Keys(records[0]), records, cal);
      if candidate.Some? && candidate.value != "" {
        foundKey := candidate;
      }
    }
    if foundKey.None? {
      return None;
    }
    var m := BuildMonths(records, foundKey.value, cal, pr, randomId);
    var months := Order.Sort(Dict.Keys(m), Id, false);
    if |months| == 0 {
      return None;
    }
    MonthsWellKeyed(Sightings(records, foundKey.value, cal, pr, randomId));
    var rows := Enrich(m, months);
    return Some(rows);
  }

  // ---------------------------------------------------------------------------------------
  // Properties
  // ---------------------------------------------------------------------------------------

  /** A field that passes the key search also passes the `forEach` guard. */
  lemma DateLikeHasPeriod(r: JsObject, key: string, cal: Calendar)
    requires DateLike(Field(r, key), cal)
    ensures Period(r, key, cal).Some?
  {
  }

  /**
   * `null` comes exactly from an empty list or from finding no date field: once a field is
   * found some record falls in a month, so the later `months.length === 0` test never fires.
   */
  lemma SeriesNullCases(records: seq<JsObject>, cal: Calendar, pr: Printer, randomId: nat -> string)
    ensures MonthlySeries(records, cal, pr, randomId).None? <==> records == [] || FoundKey(records, cal).None?
  {
    if records != [] && FoundKey(records, cal).Some? {
      var k := FoundKey(records, cal).value;
      FoundKeyFacts(records, cal);
      var i :| 0 <= i < |records| && DateLike(Field(records[i], k), cal);
      DateLikeHasPeriod(records[i], k, cal);
      var ss := Sightings(records, k, cal, pr, randomId);
      var p := Period(records[i], k, cal).value;
      assert ss[i].Some? && ss[i].value.0 == p;
      MonthsFacts(ss, p, "");
      assert |Periods(Months(ss))| == |Dict.Keys(Months(ss))| > 0;
    }
  }

  /** The series of the month map `m`: its months in ascending order, each once. */
  lemma PeriodsFacts(ss: seq<Sighting>)
    ensures forall i, j :: 0 <= i < j < |Periods(Months(ss))| ==> LexLess(Periods(Months(ss))[i], Periods(Months(ss))[j])
    ensures forall p :: p in Periods(Months(ss)) <==> Seen(ss, p)
  {
    var m := Months(ss);
    var ks := Dict.Keys(m);
    MonthsFacts(ss, "", "");
    assert Order.DistinctKeys(ks, Id) by {
      forall i, j | 0 <= i < j < |ks| ensures Id(ks[i]) != Id(ks[j]) {
      }
    }
    Order.SortFacts(ks, Id, false);
    forall p ensures p in Periods(m) <==> Seen(ss, p) {
      MonthsFacts(ss, p, "");
      assert p in Periods(m) <==> p in multiset(Periods(m));
      assert p in ks <==> p in multiset(ks);
    }
  }

  /**
   * The rows are the months some record falls in, ascending; each row's total is the sum of
   * its customers' MRR, and a customer's MRR in a month is that of its last record there.
   */
  lemma SeriesOfFacts(ss: seq<Sighting>)
    requires SeriesOf(ss).Some?
    ensures var rows := SeriesOf(ss).value;
      && (forall i, j :: 0 <= i < j < |rows| ==> LexLess(rows[i].period, rows[j].period))
      && (forall p :: (exists i :: 0 <= i < |rows| && rows[i].period == p) <==> Seen(ss, p))
      && (forall i :: 0 <= i < |rows| ==> rows[i].total == Dict.SumValues(CustomersIn(Months(ss), rows[i].period)))
      && (forall p, c :: Dict.Get(CustomersIn(Months(ss), p), c) == LastValue(ss, p, c))
  {
    var rows := SeriesOf(ss).value;
    var ps := Periods(Months(ss));
    PeriodsFacts(ss);
    assert forall i :: 0 <= i < |rows| ==> rows[i].period == ps[i];
    forall i, j | 0 <= i < j < |rows| ensures LexLess(rows[i].period, rows[j].period) {
      assert rows[i].period == ps[i] && rows[j].period == ps[j];
    }
    forall p ensures (exists i :: 0 <= i < |rows| && rows[i].period == p) <==> Seen(ss, p) {
      if p in ps {
        var i :| 0 <= i < |ps| && ps[i] == p;
        assert rows[i].period == p;
      }
    }
    forall p, c ensures Dict.Get(CustomersIn(Months(ss), p), c) == LastValue(ss, p, c) {
      MonthsFacts(ss, p, c);
    }
  }

  /** `SeriesOfFacts` for the records' own sightings under the key found. */
  lemma SeriesFacts(records: seq<JsObject>, cal: Calendar, pr: Printer, randomId: nat -> string)
    requires MonthlySeries(records, cal, pr, randomId).Some?
    ensures var rows := MonthlySeries(records, cal, pr, randomId).value;
      var ss := Sightings(records, FoundKey(records, cal).value, cal, pr, randomId);
      && (forall i, j :: 0 <= i < j < |rows| ==> LexLess(rows[i].period, rows[j].period))
      && (forall p :: (exists i :: 0 <= i < |rows| && rows[i].period == p) <==> Seen(ss, p))
      && (forall i :: 0 <= i < |rows| ==> rows[i].total == Dict.SumValues(CustomersIn(Months(ss), rows[i].period)))
      && (forall p, c :: Dict.Get(CustomersIn(Months(ss), p), c) == LastValue(ss, p, c))
  {
    SeriesOfFacts(Sightings(records, FoundKey(records, cal).value, cal, pr, randomId));
  }

  /** The first month counts all its revenue as new, with no expansion and no churn. */
  lemma FirstMonthIsNew(records: seq<JsObject>, cal: Calendar, pr: Printer, randomId: nat -> string)
    requires MonthlySeries(records, cal, pr, randomId).Some?
    ensures var rows := MonthlySeries(records, cal, pr, randomId).value;
      |rows| > 0 && rows[0].gained == rows[0].total && rows[0].expansion == 0.0 && rows[0].churn == 0.0
  {
  }

  /** The MRR the previous month had for customers still present, summed in the current month's order. */
  function SharedCur(cur: Customers, prev: Customers): real {
    if cur == [] then 0.0
    else
      var p := Dict.Get(prev, cur[0].0);
      (if p.Some? then p.value else 0.0) + SharedCur(cur[1..], prev)
  }

  /** The same amounts, summed in the previous month's order. */
  function SharedPrev(prev: Customers, cur: Customers): real {
    if prev == [] then 0.0
    else (if Dict.Get(cur, prev[0].0).Some? then prev[0].1 else 0.0) + SharedPrev(prev[1..], cur)
  }

  /** A month's total splits into new revenue, the returning customers' old MRR and their changes. */
  lemma {:induction false} CurrentSplit(cur: Customers, prev: Customers)
    ensures Dict.SumValues(cur) == Gained(cur, prev) + SharedCur(cur, prev) + Expansion(cur, prev) - Drop(cur, prev)
  {
    if cur != [] {
      CurrentSplit(cur[1..], prev);
    }
  }

  /** The previous total splits into what returning customers had and what is lost, less the double count. */
  lemma {:induction false} PreviousSplit(prev: Customers, cur: Customers)
    ensures Dict.SumValues(prev) == SharedPrev(prev, cur) + Lost(prev, cur) - Doubled(prev, cur)
  {
    if prev != [] {
      PreviousSplit(prev[1..], cur);
    }
  }

  lemma DistinctTail(d: Customers)
    requires d != [] && Dict.Distinct(Dict.Keys(d))
    ensures Dict.Distinct(Dict.Keys(d[1..])) && Dict.Get(d[1..], d[0].0).None?
  {
    var ks := Dict.Keys(d);
    var ts := Dict.Keys(d[1..]);
    forall i, j | 0 <= i < j < |ts| ensures ts[i] != ts[j] {
      assert ts[i] == ks[i + 1] && ts[j] == ks[j + 1];
    }
    Dict.GetKeys(d[1..], d[0].0);
  }

  lemma {:induction false} SharedCurEmpty(cur: Customers)
    ensures SharedCur(cur, []) == 0.0
  {
    if cur != [] {
      SharedCurEmpty(cur[1..]);
    }
  }

  /** Adding a previous customer `k` adds its old MRR once, when it is still present. */
  lemma {:induction false} SharedCurCons(cur: Customers, k: string, v: real, q: Customers)
    requires Dict.Distinct(Dict.Keys(cur)) && Dict.Get(q, k).None?
    ensures SharedCur(cur, [(k, v)] + q) == SharedCur(cur, q) + (if Dict.Get(cur, k).Some? then v else 0.0)
  {
    if cur != [] {
      DistinctTail(cur);
      SharedCurCons(cur[1..], k, v, q);
      assert ([(k, v)] + q)[1..] == q;
    }
  }

  /** The returning customers' old MRR is the same in either month's order. */
  lemma {:induction false} SharedSymmetric(cur: Customers, prev: Customers)
    requires Dict.Distinct(Dict.Keys(cur)) && Dict.Distinct(Dict.Keys(prev))
    ensures SharedCur(cur, prev) == SharedPrev(prev, cur)
  {
    if prev == [] {
      SharedCurEmpty(cur);
    } else {
      DistinctTail(prev);
      SharedSymmetric(cur, prev[1..]);
      assert prev == [(prev[0].0, prev[0].1)] + prev[1..];
      SharedCurCons(cur, prev[0].0, prev[0].1, prev[1..]);
    }
  }

  /**
   * The total moves by new revenue plus expansion minus churn, except that a customer present
   * in both months whose MRR falls to zero is counted in churn twice (once as a decrease and
   * once as lost): `Doubled` adds that second count back.
   */
  lemma MovementLaw(cur: Customers, prev: Customers)
    requires Dict.Distinct(Dict.Keys(cur)) && Dict.Distinct(Dict.Keys(prev))
    ensures Dict.SumValues(cur) - Dict.SumValues(prev)
      == Gained(cur, prev) + Expansion(cur, prev) - Churn(cur, prev) + Doubled(prev, cur)
  {
    CurrentSplit(cur, prev);
    PreviousSplit(prev, cur);
    SharedSymmetric(cur, prev);
  }

  /** Without a returning customer at zero, the double count is empty. */
  lemma {:induction false} NoZeroNoDouble(prev: Customers, cur: Customers)
    requires forall i :: 0 <= i < |prev| ==> Dict.Get(cur, prev[i].0) != Some(0.0)
    ensures Doubled(prev, cur) == 0.0
  {
    if prev != [] {
      assert forall i :: 0 <= i < |prev[1..]| ==> prev[1..][i] == prev[i + 1];
      NoZeroNoDouble(prev[1..], cur);
    }
  }

  /** The law on the series: every later row against the one before it. */
  lemma SeriesMovement(records: seq<JsObject>, cal: Calendar, pr: Printer, randomId: nat -> string, i: nat)
    requires MonthlySeries(records, cal, pr, randomId).Some?
    requires 0 < i < |MonthlySeries(records, cal, pr, randomId).value|
    ensures var rows := MonthlySeries(records, cal, pr, randomId).value;
      var m := Months(Sightings(records, FoundKey(records, cal).value, cal, pr, randomId));
      rows[i].total - rows[i - 1].total
        == rows[i].gained + rows[i].expansion - rows[i].churn
           + Doubled(CustomersIn(m, rows[i - 1].period), CustomersIn(m, rows[i].period))
  {
    var ss := Sightings(records, FoundKey(records, cal).value, cal, pr, randomId);
    var rows := MonthlySeries(records, cal, pr, randomId).value;
    MonthsFacts(ss, rows[i].period, "");
    MonthsFacts(ss, rows[i - 1].period, "");
    MovementLaw(CustomersIn(Months(ss), rows[i].period), CustomersIn(Months(ss), rows[i - 1].period));
  }

  /** A customer going from 100 to 0 churns 200 while the total falls by 100. */
  lemma ZeroCountsTwice()
    ensures Churn([("a", 0.0)], [("a", 100.0)]) == 200.0
    ensures Dict.SumValues([("a", 0.0)]) - Dict.SumValues([("a", 100.0)]) == -100.0
  {
  }
}
