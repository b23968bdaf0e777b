/**
 * CSV normalization (analysis/normalize.py): a forgiving reader that guesses the id, revenue
 * and date columns of an uploaded CSV and turns each row into a billing record.
 * pandas' `read_csv` and `to_datetime` are parameters of the model.
 */
module Normalize {
  import opened Common
  import opened Text
  import opened Numbers
  import opened Py
  import Dict

  // ---------------------------------------------------------------------------------------
  // Amount coercion
  // ---------------------------------------------------------------------------------------

  /** The characters the pattern `[^0-9.\-]` does NOT match, i.e. the ones the cleanup keeps. */
  predicate AmountChar(c: char) { IsDigit(c) || c == '.' || c == '-' }

  /** `re.sub(r"[^0-9.\-]", "", s)`: deletes every character other than digits, `.` and `-`. */
  function KeepAmountChars(s: string): (r: string)
    ensures |r| <= |s|
    ensures forall i :: 0 <= i < |r| ==> AmountChar(r[i])
  {
    if s == [] then [] else (if AmountChar(s[0]) then [s[0]] else []) + KeepAmountChars(s[1..])
  }

  lemma {:induction false} KeepAmountCharsAppend(a: string, b: string)
    ensures KeepAmountChars(a + b) == KeepAmountChars(a) + KeepAmountChars(b)
  {
    if a != [] {
      var x := if AmountChar(a[0]) then [a[0]] else [];
      assert (a + b)[0] == a[0];
      assert (a + b)[1..] == a[1..] + b;
      KeepAmountCharsAppend(a[1..], b);
      calc {
        KeepAmountChars(a + b);
        x + KeepAmountChars(a[1..] + b);
        x + (KeepAmountChars(a[1..]) + KeepAmountChars(b));
        (x + KeepAmountChars(a[1..])) + KeepAmountChars(b);
        KeepAmountChars(a) + KeepAmountChars(b);
      }
    } else {
      assert a + b == b;
    }
  }

  /** The cleanup leaves a string of amount characters alone and removes all others. */
  lemma {:induction false} KeepAmountCharsFacts(s: string)
    ensures (forall i :: 0 <= i < |s| ==> AmountChar(s[i])) ==> KeepAmountChars(s) == s
    ensures (forall i :: 0 <= i < |s| ==> !AmountChar(s[i])) ==> KeepAmountChars(s) == []
  {
    if s != [] {
      KeepAmountCharsFacts(s[1..]);
    }
  }

  lemma WhitespaceIsNotAmount(c: char)
    requires IsPyWhitespace(c)
    ensures !AmountChar(c)
  {
  }

  /** A run of white space is deleted entirely. */
  lemma {:induction false} DropBlank(s: string)
    requires forall i :: 0 <= i < |s| ==> IsPyWhitespace(s[i])
    ensures KeepAmountChars(s) == []
  {
    if s != [] {
      WhitespaceIsNotAmount(s[0]);
      DropBlank(s[1..]);
    }
  }

  lemma {:induction false} KeepAmountCharsTrimStart(s: string)
    ensures KeepAmountChars(TrimStart(s, IsPyWhitespace)) == KeepAmountChars(s)
  {
    var a := TrimStart(s, IsPyWhitespace);
    var k := |s| - |a|;
    var pre := s[..k];
    forall i | 0 <= i < k ensures IsPyWhitespace(pre[i]) {
      TrimStartRemoved(s, IsPyWhitespace, i);
    }
    DropBlank(pre);
    assert s == pre + a;
    KeepAmountCharsAppend(pre, a);
  }

  lemma {:induction false} KeepAmountCharsTrimEnd(a: string)
    ensures KeepAmountChars(TrimEnd(a, IsPyWhitespace)) == KeepAmountChars(a)
  {
    var b := TrimEnd(a, IsPyWhitespace);
    var post := a[|b|..];
    forall i | 0 <= i < |post| ensures IsPyWhitespace(post[i]) {
      TrimEndRemoved(a, IsPyWhitespace, i + |b|);
    }
    DropBlank(post);
    assert a == b + post;
    KeepAmountCharsAppend(b, post);
  }

  /** White space is never kept, so stripping before the cleanup changes nothing. */
  lemma {:induction false} KeepAmountCharsTrim(s: string)
    ensures KeepAmountChars(Trim(s, IsPyWhitespace)) == KeepAmountChars(s)
  {
    KeepAmountCharsTrimStart(s);
    KeepAmountCharsTrimEnd(TrimStart(s, IsPyWhitespace));
  }

  /**
   * `_clean_amount`: `None` is 0.0, numbers pass through as floats, a string is stripped
   * (blank gives 0.0), cleaned of every non-amount character and parsed, 0.0 when that fails.
   */
  function CleanAmount(v: PyValue): real {
    match v
    case PNone => 0.0
    case PBool(b) => if b then 1.0 else 0.0
    case PInt(i) => i as real
    case PFloat(x) => x
    case PStr(s) => CleanAmountText(s)
  }

  /** The string case: strip, 0.0 when blank, otherwise parse what the cleanup keeps. */
  function CleanAmountText(s: string): real {
    var t := Trim(s, IsPyWhitespace);
    if t == "" then 0.0 else ParseOr0(KeepAmountChars(t))
  }

  function ParseOr0(s: string): real {
    PyFloat(s).GetOr(0.0)
  }

  /**
   * `None` gives 0.0, ints and floats pass through, and a string gives the parse of its amount
   * characters, 0.0 when they do not parse; in particular a blank string gives 0.0.
   */
  lemma CleanAmountFacts(v: PyValue)
    ensures v.PNone? ==> CleanAmount(v) == 0.0
    ensures v.PInt? ==> CleanAmount(v) == v.i as real
    ensures v.PFloat? ==> CleanAmount(v) == v.x
    ensures v.PStr? ==> CleanAmount(v) == ParseOr0(KeepAmountChars(v.s))
    ensures v.PStr? && (forall i :: 0 <= i < |v.s| ==> IsPyWhitespace(v.s[i])) ==> CleanAmount(v) == 0.0
  {
    if v.PStr? {
      assert CleanAmount(v) == CleanAmountText(v.s);
      CleanAmountString(v.s);
      if forall i :: 0 <= i < |v.s| ==> IsPyWhitespace(v.s[i]) {
        DropBlank(v.s);
        ParseEmpty();
      }
    }
  }

  /** Stripping first changes nothing: the cleanup drops white space anyway. */
  lemma {:induction false} CleanAmountString(s: string)
    ensures CleanAmountText(s) == ParseOr0(KeepAmountChars(s))
  {
    KeepAmountCharsTrim(s);
    ParseEmpty();
  }

  /** Nothing left to parse gives 0.0. */
  lemma ParseEmpty()
    ensures ParseOr0([]) == 0.0
  {
    assert PyFloat([]).None?;
  }

  /**
   * Currency signs, letters, commas and spaces around or inside an amount are ignored: only the
   * digits, dots and dashes are parsed (so `"$200.00"` gives 200.0).
   */
  lemma {:induction false} CleanAmountIgnoresSymbols(pre: string, num: string, post: string)
    requires forall i :: 0 <= i < |pre| ==> !AmountChar(pre[i])
    requires forall i :: 0 <= i < |post| ==> !AmountChar(post[i])
    requires forall i :: 0 <= i < |num| ==> AmountChar(num[i])
    ensures CleanAmount(PStr(pre + num + post)) == ParseOr0(num)
  {
    var whole := pre + num + post;
    CleanAmountFacts(PStr(whole));
    KeepAmountCharsFacts(pre);
    KeepAmountCharsFacts(num);
    KeepAmountCharsFacts(post);
    KeepAmountCharsAppend(pre, num);
    assert KeepAmountChars(pre + num) == num by {
      assert [] + num == num;
    }
    KeepAmountCharsAppend(pre + num, post);
    assert KeepAmountChars(whole) == num by {
      assert num + [] == num;
    }
  }

  // ---------------------------------------------------------------------------------------
  // Column detection
  // ---------------------------------------------------------------------------------------

  /**
   * `{c.lower(): c for c in df.columns}`: lower-cased header to header. Headers that differ only
   * by case share one entry, at the position of the first of them, holding the last of them.
   */
  function LowerIndex(columns: seq<string>): seq<(string, string)>
  {
    if columns == [] then []
    else
      var last := columns[|columns| - 1];
      Dict.Put(LowerIndex(columns[..|columns| - 1]), Lower(last), last)
  }

  /** The distinct lower-cased headers, in order of first appearance. */
  function FirstAppearances(names: seq<string>): (r: seq<string>)
  {
    if names == [] then []
    else
      var prev := FirstAppearances(names[..|names| - 1]);
      var last := names[|names| - 1];
      if last in prev then prev else prev + [last]
  }

  function LowerAll(columns: seq<string>): (r: seq<string>)
    ensures |r| == |columns| && forall i :: 0 <= i < |columns| ==> r[i] == Lower(columns[i])
  {
    if columns == [] then [] else LowerAll(columns[..|columns| - 1]) + [Lower(columns[|columns| - 1])]
  }

  /** The entries of the index are the lower-cased headers in order of first appearance. */
  lemma {:induction false} LowerIndexKeys(columns: seq<string>)
    ensures Dict.Keys(LowerIndex(columns)) == FirstAppearances(LowerAll(columns))
  {
    if columns != [] {
      var init := columns[..|columns| - 1];
      LowerIndexKeys(init);
      var last := columns[|columns| - 1];
      Dict.PutKeys(LowerIndex(init), Lower(last), last);
      assert LowerAll(columns)[..|columns| - 1] == LowerAll(init);
    }
  }

  /** Each lower-cased header maps to the LAST header with that lower-case form. */
  lemma {:induction false} LowerIndexValue(columns: seq<string>, j: nat)
    requires j < |columns|
    requires forall k :: j < k < |columns| ==> Lower(columns[k]) != Lower(columns[j])
    ensures Dict.Get(LowerIndex(columns), Lower(columns[j])) == Some(columns[j])
  {
    var init := columns[..|columns| - 1];
    var last := columns[|columns| - 1];
    Dict.GetPut(LowerIndex(init), Lower(last), last, Lower(columns[j]));
    if j < |columns| - 1 {
      LowerIndexValue(init, j);
    }
  }

  /** `ln == c or ln in c or c in ln`: equal, or one contains the other. */
  predicate Matches(ln: string, c: string) {
    ln == c || Contains(c, ln) || Contains(ln, c)
  }

  /** The header of the first index entry whose key matches `ln`. */
  function FirstMatching(ln: string, cols: seq<(string, string)>): (r: Option<nat>)
    ensures r.Some? ==>
              r.value < |cols| && Matches(ln, cols[r.value].0)
              && forall j :: 0 <= j < r.value ==> !Matches(ln, cols[j].0)
    ensures r.None? ==> forall j :: 0 <= j < |cols| ==> !Matches(ln, cols[j].0)
  {
    if cols == [] then None
    else if Matches(ln, cols[0].0) then Some(0)
    else match FirstMatching(ln, cols[1..])
      case Some(j) => Some(j + 1)
      case None => None
  }

  /**
   * The nested `find`: the first candidate (in priority order) that matches some index key;
   * for it, the first matching key in index order; the header stored under that key.
   */
  function FindColumn(names: seq<string>, cols: seq<(string, string)>): (r: Option<string>)
  {
    if names == [] then None
    else match FirstMatching(Lower(names[0]), cols)
      case Some(j) => Some(cols[j].1)
      case None => FindColumn(names[1..], cols)
  }

  /** Candidate `i` meets key `j` first: nothing earlier in priority or index order matches. */
  ghost predicate FirstHit(names: seq<string>, cols: seq<(string, string)>, i: int, j: int) {
    0 <= i < |names| && 0 <= j < |cols| && Matches(Lower(names[i]), cols[j].0)
    && (forall i', j' :: 0 <= i' < i && 0 <= j' < |cols| ==> !Matches(Lower(names[i']), cols[j'].0))
    && (forall j' :: 0 <= j' < j ==> !Matches(Lower(names[i]), cols[j'].0))
  }

  /** `find` fails exactly when no candidate matches any key, and otherwise returns the first hit. */
  lemma {:induction false} FindColumnSpec(names: seq<string>, cols: seq<(string, string)>)
    ensures FindColumn(names, cols).None? <==>
      forall i, j :: 0 <= i < |names| && 0 <= j < |cols| ==> !Matches(Lower(names[i]), cols[j].0)
    ensures FindColumn(names, cols).Some? ==>
      exists i, j :: FirstHit(names, cols, i, j) && FindColumn(names, cols) == Some(cols[j].1)
  {
    if names != [] {
      match FirstMatching(Lower(names[0]), cols)
      case Some(j) =>
        assert FirstHit(names, cols, 0, j);
      case None =>
        FindColumnSpec(names[1..], cols);
        if FindColumn(names, cols).Some? {
          var i, j :| FirstHit(names[1..], cols, i, j) && FindColumn(names[1..], cols) == Some(cols[j].1);
          assert FirstHit(names, cols, i + 1, j) by {
            forall i', j' | 0 <= i' < i + 1 && 0 <= j' < |cols|
              ensures !Matches(Lower(names[i']), cols[j'].0)
            {
              if i' > 0 {
                assert names[i'] == names[1..][i' - 1];
              }
            }
          }
        } else {
          forall i, j | 0 <= i < |names| && 0 <= j < |cols| ensures !Matches(Lower(names[i]), cols[j].0) {
            if i > 0 {
              assert names[i] == names[1..][i - 1];
            }
          }
        }
    }
  }

  /** The nested loops of `find`, with the early return. */
  method Find(names: seq<string>, cols: seq<(string, string)>) returns (r: Option<string>)
    ensures r == FindColumn(names, cols)
  {
    var i := 0;
    while i < |names|
      invariant 0 <= i <= |names|
      invariant FindColumn(names[i..], cols) == FindColumn(names, cols)
    {
      var ln := Lower(names[i]);
      var j := 0;
      while j < |cols|
        invariant 0 <= j <= |cols|
        invariant forall j' :: 0 <= j' < j ==> !Matches(ln, cols[j'].0)
      {
        var c := cols[j].0;
        if ln == c || Contains(c, ln) || Contains(ln, c) {
          assert FirstMatching(ln, cols) == Some(j) by {
            FirstMatchingIs(ln, cols, j);
          }
          return Some(cols[j].1);
        }
        j := j + 1;
      }
      assert FirstMatching(ln, cols).None?;
      assert names[i..][1..] == names[i + 1..];
      i := i + 1;
    }
    return None;
  }

  lemma {:induction false} FirstMatchingIs(ln: string, cols: seq<(string, string)>, j: nat)
    requires j < |cols| && Matches(ln, cols[j].0)
    requires forall j' :: 0 <= j' < j ==> !Matches(ln, cols[j'].0)
    ensures FirstMatching(ln, cols) == Some(j)
  {
    if j > 0 {
      FirstMatchingIs(ln, cols[1..], j - 1);
    }
  }

  const IdCandidates: seq<string> := ["id", "customer_id", "customer", "name"]
  const MrrCandidates: seq<string> := ["mrr", "revenue", "amount", "price", "monthly_revenue", "value"]
  const DateCandidates: seq<string> := ["date", "signup_date", "start_date", "created_at", "uploadedat"]

  // ---------------------------------------------------------------------------------------
  // Rows to records
  // ---------------------------------------------------------------------------------------

  /** A parsed CSV: the header row and the data rows (missing trailing cells read as `None`). */
  datatype Table = Table(columns: seq<string>, rows: seq<seq<PyValue>>)

  /**
   * The library calls the normalizer relies on: `read_csv(text)` with the default engine
   * (`false`) or `engine='python'` (`true`), `None` when it raises; `to_datetime(v,
   * errors='coerce')` followed by `.date()`, `None` for NaT or an exception; and float `repr`.
   */
  datatype Pandas = Pandas(
    readCsv: (string, bool) -> Option<Table>,
    toDate: PyValue -> Option<Date>,
    floatRepr: real -> string)

  datatype NormRecord = NormRecord(
    customerId: Option<string>,
    mrr: real,
    signupDate: Option<Date>,
    raw: seq<(string, PyValue)>)

  /** The three detected columns (`None` when nothing matched). */
  datatype Detected = Detected(idCol: Option<string>, mrrCol: Option<string>, dateCol: Option<string>)

  function ColumnIndex(columns: seq<string>, col: string): (r: Option<nat>)
    ensures r.Some? ==> r.value < |columns| && columns[r.value] == col
    ensures r.None? ==> col !in columns
  {
    if columns == [] then None
    else if columns[0] == col then Some(0)
    else match ColumnIndex(columns[1..], col)
      case Some(k) => Some(k + 1)
      case None => None
  }

  /** `row.get(col)`: the cell under that header, `None` when there is none. */
  function CellAt(t: Table, row: seq<PyValue>, col: string): PyValue {
    match ColumnIndex(t.columns, col)
    case Some(k) => if k < |row| then row[k] else PNone
    case None => PNone
  }

  /** `row.to_dict()`: header to cell, in header order. */
  function RowDict(columns: seq<string>, row: seq<PyValue>): seq<(string, PyValue)> {
    if columns == [] then []
    else
      var n := |columns| - 1;
      Dict.Put(RowDict(columns[..n], row), columns[n], if n < |row| then row[n] else PNone)
  }

  /** `if col:` on a detected header name. */
  predicate Usable(col: Option<string>) { col.Some? && col.value != "" }

  function Detect(columns: seq<string>): Detected {
    var cols := LowerIndex(columns);
    Detected(FindColumn(IdCandidates, cols), FindColumn(MrrCandidates, cols), FindColumn(DateCandidates, cols))
  }

  /** The record built from one row. */
  function RecordOf(t: Table, d: Detected, row: seq<PyValue>, pd: Pandas): NormRecord {
    var cid := if Usable(d.idCol) then CellAt(t, row, d.idCol.value) else PNone;
    NormRecord(
      if cid.PNone? then None else Some(Str(cid, pd.floatRepr)),
      if Usable(d.mrrCol) then CleanAmount(CellAt(t, row, d.mrrCol.value)) else 0.0,
      if Usable(d.dateCol) then pd.toDate(CellAt(t, row, d.dateCol.value)) else None,
      RowDict(t.columns, row))
  }

  /** How many rows the `idx >= sample_lines` break lets through. */
  function RowLimit(sampleLines: Option<int>, n: nat): (r: nat)
    ensures r <= n
    ensures sampleLines.None? ==> r == n
    ensures sampleLines.Some? ==> r == if sampleLines.value <= 0 then 0 else MinInt(sampleLines.value, n)
  {
    if sampleLines.None? then n
    else if sampleLines.value <= 0 then 0
    else MinInt(sampleLines.value, n)
  }

  /** `read_csv`, then `read_csv(engine='python')` when the first attempt raises. */
  function ReadTable(text: string, pd: Pandas): Option<Table> {
    match pd.readCsv(text, false)
    case Some(t) => Some(t)
    case None => pd.readCsv(text, true)
  }

  predicate Blank(text: string) { Trim(text, IsPyWhitespace) == "" }

  /** The records of the first `RowLimit` rows, reading the columns `d`. */
  function RowRecords(t: Table, d: Detected, sampleLines: Option<int>, pd: Pandas): (r: seq<NormRecord>)
    ensures |r| == RowLimit(sampleLines, |t.rows|)
  {
    FirstRecords(t, d, RowLimit(sampleLines, |t.rows|), pd)
  }

  /** The records of the first `n` rows, in row order. */
  function FirstRecords(t: Table, d: Detected, n: nat, pd: Pandas): (r: seq<NormRecord>)
    requires n <= |t.rows|
    ensures |r| == n
  {
    if n == 0 then [] else FirstRecords(t, d, n - 1, pd) + [RecordOf(t, d, t.rows[n - 1], pd)]
  }

  /** What `normalize_csv_text` returns. */
  function Normalized(text: string, sampleLines: Option<int>, pd: Pandas): seq<NormRecord> {
    if Blank(text) then []
    else match ReadTable(text, pd)
      case None => []
      case Some(t) => RowRecords(t, Detect(t.columns), sampleLines, pd)
  }

  /** `normalize_csv_text(csv_text, sample_lines)`. */
  method NormalizeCsvText(text: string, sampleLines: Option<int>, pd: Pandas) returns (out: seq<NormRecord>)
    ensures out == Normalized(text, sampleLines, pd)
  {
    if text == "" || Trim(text, IsPyWhitespace) == "" {
      return [];
    }
    var df: Table;
    match pd.readCsv(text, false) {
      case Some(t) => df := t;
      case None =>
        match pd.readCsv(text, true) {
          case Some(t) => df := t;
          case None => return [];
        }
    }
    assert ReadTable(text, pd) == Some(df);
    var cols := LowerIndex(df.columns);
    var idCol := Find(IdCandidates, cols);
    var mrrCol := Find(MrrCandidates, cols);
    var dateCol := Find(DateCandidates, cols);
    var d := Detected(idCol, mrrCol, dateCol);
    assert d == Detect(df.columns);
    out := ConvertRows(df, d, sampleLines, pd);
    NormalizedRead(text, sampleLines, pd, df);
  }

  lemma {:induction false} NormalizedRead(text: string, sampleLines: Option<int>, pd: Pandas, t: Table)
    requires !Blank(text) && ReadTable(text, pd) == Some(t)
    ensures Normalized(text, sampleLines, pd) == RowRecords(t, Detect(t.columns), sampleLines, pd)
  {
  }

  /** The row loop with its early `break`. */
  method ConvertRows(df: Table, d: Detected, sampleLines: Option<int>, pd: Pandas) returns (out: seq<NormRecord>)
    ensures out == RowRecords(df, d, sampleLines, pd)
  {
    out := [];
    var idx := 0;
    while idx < |df.rows|
      invariant 0 <= idx <= RowLimit(sampleLines, |df.rows|)
      invariant out == FirstRecords(df, d, idx, pd)
    {
      if sampleLines.Some? && idx >= sampleLines.value {
        break;
      }
      var rec := RecordOf(df, d, df.rows[idx], pd);
      out := out + [rec];
      idx := idx + 1;
    }
    assert idx == RowLimit(sampleLines, |df.rows|);
  }

  lemma {:induction false} FirstRecordsAt(t: Table, d: Detected, n: nat, pd: Pandas, i: nat)
    requires i < n <= |t.rows|
    ensures FirstRecords(t, d, n, pd)[i] == RecordOf(t, d, t.rows[i], pd)
  {
    if i < n - 1 {
      FirstRecordsAt(t, d, n - 1, pd, i);
    }
  }

  lemma {:induction false} RowRecordsAt(t: Table, d: Detected, sampleLines: Option<int>, pd: Pandas, i: nat)
    requires i < RowLimit(sampleLines, |t.rows|)
    ensures RowRecords(t, d, sampleLines, pd)[i] == RecordOf(t, d, t.rows[i], pd)
  {
    FirstRecordsAt(t, d, RowLimit(sampleLines, |t.rows|), pd, i);
  }

  /** Blank text gives no records. */
  lemma {:induction false} NormalizedBlank(text: string, sampleLines: Option<int>, pd: Pandas)
    requires forall i :: 0 <= i < |text| ==> IsPyWhitespace(text[i])
    ensures Normalized(text, sampleLines, pd) == []
  {
    TrimFacts(text, IsPyWhitespace);
  }

  /**
   * One record per row, in row order, up to the row cap; each record is built from its row and
   * the columns detected on the headers.
   */
  lemma {:induction false} NormalizedRows(text: string, sampleLines: Option<int>, pd: Pandas, t: Table, i: nat)
    requires !Blank(text) && ReadTable(text, pd) == Some(t)
    ensures |Normalized(text, sampleLines, pd)| == RowLimit(sampleLines, |t.rows|)
    ensures i < RowLimit(sampleLines, |t.rows|) ==>
      Normalized(text, sampleLines, pd)[i] == RecordOf(t, Detect(t.columns), t.rows[i], pd)
  {
    NormalizedRead(text, sampleLines, pd, t);
    if i < RowLimit(sampleLines, |t.rows|) {
      RowRecordsAt(t, Detect(t.columns), sampleLines, pd, i);
    }
  }

  /**
   * A role without a column leaves its field at the default: no id, mrr 0.0, no signup date;
   * a role with a column reads that column's cell.
   */
  lemma {:induction false} RecordOfFields(t: Table, d: Detected, row: seq<PyValue>, pd: Pandas)
    ensures !Usable(d.mrrCol) ==> RecordOf(t, d, row, pd).mrr == 0.0
    ensures Usable(d.mrrCol) ==> RecordOf(t, d, row, pd).mrr == CleanAmount(CellAt(t, row, d.mrrCol.value))
    ensures !Usable(d.idCol) ==> RecordOf(t, d, row, pd).customerId.None?
    ensures !Usable(d.dateCol) ==> RecordOf(t, d, row, pd).signupDate.None?
    ensures Usable(d.dateCol) ==> RecordOf(t, d, row, pd).signupDate == pd.toDate(CellAt(t, row, d.dateCol.value))
    ensures RecordOf(t, d, row, pd).raw == RowDict(t.columns, row)
  {
  }

  /** No column for a role exactly when no candidate matches any lower-cased header. */
  lemma {:induction false} DetectNone(columns: seq<string>)
    ensures Detect(columns).mrrCol.None? <==>
      forall i, j :: 0 <= i < |MrrCandidates| && 0 <= j < |LowerIndex(columns)| ==>
        !Matches(Lower(MrrCandidates[i]), LowerIndex(columns)[j].0)
  {
    FindColumnSpec(MrrCandidates, LowerIndex(columns));
  }
}
