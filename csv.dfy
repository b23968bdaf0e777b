/**
 * The client's CSV helpers: `toCSV` writes a header line and one line of quoted cells per
 * row, and `parseCSV` reads a simple comma-separated text (no quoting) into objects keyed by
 * the header cells, turning plain decimal cells into numbers.
 */
module Csv {
  import opened Common
  import opened Text
  import opened Numbers
  import opened Js
  import Dict

  // ---------------------------------------------------------------------------------------
  // Joining and splitting
  // ---------------------------------------------------------------------------------------

  /** `parts.join(sep)`. */
  function Join(parts: seq<string>, sep: string): string {
    if |parts| == 0 then ""
    else if |parts| == 1 then parts[0]
    else parts[0] + sep + Join(parts[1..], sep)
  }

  /** `s.split(c)` for a one-character separator: the pieces between the separators. */
  function Split(s: string, c: char): (r: seq<string>)
    ensures |r| >= 1
  {
    if s == [] then [""]
    else if s[0] == c then [""] + Split(s[1..], c)
    else
      var t := Split(s[1..], c);
      [[s[0]] + t[0]] + t[1..]
  }

  /** No piece holds the separator. */
  lemma {:induction false} SplitPieces(s: string, c: char)
    ensures forall i :: 0 <= i < |Split(s, c)| ==> c !in Split(s, c)[i]
  {
    if s != [] {
      SplitPieces(s[1..], c);
      if s[0] != c {
        var t := Split(s[1..], c);
        assert c !in t[0];
        forall i | 0 <= i < |Split(s, c)| ensures c !in Split(s, c)[i] {
          if i > 0 {
            assert Split(s, c)[i] == t[i];
          }
        }
      }
    }
  }

  lemma JoinCons(a: string, t: seq<string>, sep: string)
    requires t != []
    ensures Join([a] + t, sep) == a + sep + Join(t, sep)
  {
    assert ([a] + t)[1..] == t;
  }

  /** Joining the pieces with the separator gives the text back. */
  lemma {:induction false} SplitJoin(s: string, c: char)
    ensures Join(Split(s, c), [c]) == s
  {
    if s != [] {
      SplitJoin(s[1..], c);
      if s[0] == c {
        SplitJoinAtSeparator(s, c);
      } else {
        SplitJoinAtOther(s, c);
      }
    }
  }

  lemma SplitJoinAtSeparator(s: string, c: char)
    requires s != [] && s[0] == c && Join(Split(s[1..], c), [c]) == s[1..]
    ensures Join(Split(s, c), [c]) == s
  {
    var t := Split(s[1..], c);
    assert Split(s, c) == [""] + t;
    JoinCons("", t, [c]);
    assert s == [s[0]] + s[1..];
  }

  lemma SplitJoinAtOther(s: string, c: char)
    requires s != [] && s[0] != c && Join(Split(s[1..], c), [c]) == s[1..]
    ensures Join(Split(s, c), [c]) == s
  {
    var t := Split(s[1..], c);
    var x := [s[0]] + t[0];
    assert Split(s, c) == [x] + t[1..];
    assert s == [s[0]] + s[1..];
    if |t| == 1 {
      assert Join([x], [c]) == x;
      assert t[0] == Join(t, [c]);
    } else {
      var j := Join(t[1..], [c]);
      JoinCons(x, t[1..], [c]);
      assert t == [t[0]] + t[1..];
      JoinCons(t[0], t[1..], [c]);
      AppendAssoc(x, [c], j);
      AppendAssoc([s[0]], t[0], [c] + j);
      AppendAssoc(t[0], [c], j);
    }
  }

  /** A text without the separator stays in front of the first piece of what follows it. */
  lemma {:induction false} SplitPrefix(a: string, rest: string, c: char)
    requires c !in a
    ensures Split(a + rest, c) == [a + Split(rest, c)[0]] + Split(rest, c)[1..]
  {
    if a != [] {
      SplitPrefix(a[1..], rest, c);
      assert (a + rest)[1..] == a[1..] + rest;
      assert [a[0]] + (a[1..] + Split(rest, c)[0]) == a + Split(rest, c)[0];
    } else {
      var t := Split(rest, c);
      assert a + rest == rest;
      assert a + t[0] == t[0];
      assert t == [t[0]] + t[1..];
    }
  }

  /** Splitting joined pieces that hold no separator gives the pieces back. */
  lemma {:induction false} JoinSplit(parts: seq<string>, c: char)
    requires |parts| >= 1 && forall i :: 0 <= i < |parts| ==> c !in parts[i]
    ensures Split(Join(parts, [c]), c) == parts
  {
    if |parts| == 1 {
      SplitPrefix(parts[0], "", c);
      assert parts[0] + "" == parts[0];
    } else {
      var rest := parts[1..];
      JoinSplit(rest, c);
      var j := Join(rest, [c]);
      assert Join(parts, [c]) == parts[0] + ([c] + j);
      SplitPrefix(parts[0], [c] + j, c);
      assert ([c] + j)[1..] == j;
      assert parts[0] + "" == parts[0];
      assert parts == [parts[0]] + rest;
    }
  }

  // ---------------------------------------------------------------------------------------
  // toCSV
  // ---------------------------------------------------------------------------------------

  /** `v.replace(/"/g, '""')`: every double quote doubled (section 2, rule 7 of RFC 4180). */
  function Escape(v: string): string {
    if v == [] then []
    else (if v[0] == '"' then "\"\"" else [v[0]]) + Escape(v[1..])
  }

  /** A cell wrapped in double quotes (section 2, rule 5 of RFC 4180). */
  function Quote(v: string): string {
    "\"" + Escape(v) + "\""
  }

  /** `row[h] == null ? '' : String(row[h])`. */
  function CellText(row: JsObject, h: string, pr: Printer): string {
    if IsNullish(Field(row, h)) then "" else ToStr(Field(row, h), pr)
  }

  /** The cell texts of a row, in header order. */
  function Values(row: JsObject, headers: seq<string>, pr: Printer): (r: seq<string>)
    ensures |r| == |headers|
  {
    seq(|headers|, i requires 0 <= i < |headers| => CellText(row, headers[i], pr))
  }

  function Quoted(vals: seq<string>): (r: seq<string>)
    ensures |r| == |vals|
  {
    seq(|vals|, i requires 0 <= i < |vals| => Quote(vals[i]))
  }

  /** One row's line: its quoted cells in header order, joined by commas. */
  function Line(row: JsObject, headers: seq<string>, pr: Printer): string {
    Join(Quoted(Values(row, headers, pr)), ",")
  }

  /** The `all` list: the raw header line when there are headers, then one line per row. */
  function CsvLines(rows: seq<JsObject>, headers: seq<string>, pr: Printer): seq<string> {
    (if |headers| > 0 then [Join(headers, ",")] else [])
    + seq(|rows|, i requires 0 <= i < |rows| => Line(rows[i], headers, pr))
  }

  /** `toCSV(rows, headers)`: the lines joined by `'\n'` (not the CRLF of section 2, rule 1 of RFC 4180). */
  method ToCsv(rows: seq<JsObject>, headers: seq<string>, pr: Printer) returns (text: string)
    ensures text == Join(CsvLines(rows, headers, pr), "\n")
  {
    var all: seq<string> := [];
    if |headers| > 0 {
      all := all + [Join(headers, ",")];
    }
    var h := |all|;
    for i := 0 to |rows|
      invariant |all| == h + i
      invariant all == CsvLines(rows[..i], headers, pr)
    {
      var line := Join(Quoted(Values(rows[i], headers, pr)), ",");
      CsvLinesSnoc(rows, headers, pr, i);
      all := all + [line];
    }
    assert rows[..|rows|] == rows;
    text := Join(all, "\n");
  }

  /** One more row adds its line at the end. */
  lemma CsvLinesSnoc(rows: seq<JsObject>, headers: seq<string>, pr: Printer, i: nat)
    requires i < |rows|
    ensures CsvLines(rows[..i + 1], headers, pr) == CsvLines(rows[..i], headers, pr) + [Line(rows[i], headers, pr)]
  {
    var hs: seq<string> := if |headers| > 0 then [Join(headers, ",")] else [];
    var a := seq(i + 1, k requires 0 <= k < i + 1 => Line(rows[..i + 1][k], headers, pr));
    var b := seq(i, k requires 0 <= k < i => Line(rows[..i][k], headers, pr));
    assert a == b + [Line(rows[i], headers, pr)];
    assert CsvLines(rows[..i + 1], headers, pr) == hs + a;
    assert CsvLines(rows[..i], headers, pr) == hs + b;
  }

  /**
   * Reading one quoted cell back: the text up to the closing quote, a doubled quote standing
   * for one quote, and what follows the closing quote; `None` when the quote never closes.
   */
  function ReadCell(s: string): (r: Option<(string, string)>)
    ensures r.Some? ==> |r.value.1| < |s|
  {
    if s == [] then None
    else if s[0] == '"' then
      if |s| >= 2 && s[1] == '"' then
        match ReadCell(s[2..])
        case None => None
        case Some((v, rest)) => Some(("\"" + v, rest))
      else Some(("", s[1..]))
    else
      match ReadCell(s[1..])
      case None => None
      case Some((v, rest)) => Some(([s[0]] + v, rest))
  }

  /** Reading a comma-separated list of quoted cells. */
  function ReadCells(s: string): Option<seq<string>>
    decreases |s|
  {
    if s == [] || s[0] != '"' then None
    else
      match ReadCell(s[1..])
      case None => None
      case Some((v, rest)) =>
        if rest == [] then Some([v])
        else if rest[0] == ',' then
          match ReadCells(rest[1..])
          case None => None
          case Some(vs) => Some([v] + vs)
        else None
  }

  /** Reading a line of quoted cells; the empty line has no cells. */
  function ReadLine(s: string): Option<seq<string>> {
    if s == [] then Some([]) else ReadCells(s)
  }

  /** An escaped text followed by the closing quote reads back as that text. */
  lemma {:induction false} ReadEscaped(v: string, rest: string)
    requires rest == [] || rest[0] != '"'
    ensures ReadCell(Escape(v) + "\"" + rest) == Some((v, rest))
  {
    var s := Escape(v) + "\"" + rest;
    if v == [] {
      assert s == "\"" + rest;
    } else if v[0] == '"' {
      ReadEscaped(v[1..], rest);
      assert s == "\"\"" + (Escape(v[1..]) + "\"" + rest);
      assert s[2..] == Escape(v[1..]) + "\"" + rest;
      assert v == "\"" + v[1..];
    } else {
      ReadEscaped(v[1..], rest);
      assert s == [v[0]] + (Escape(v[1..]) + "\"" + rest);
      assert s[1..] == Escape(v[1..]) + "\"" + rest;
      assert v == [v[0]] + v[1..];
    }
  }

  /** A line of quoted cells reads back as the cells' texts. */
  lemma {:induction false} ReadQuoted(vals: seq<string>)
    ensures ReadLine(Join(Quoted(vals), ",")) == Some(vals)
  {
    if |vals| == 1 {
      ReadQuotedOne(vals[0]);
      assert vals == [vals[0]];
    } else if |vals| > 1 {
      var tail := vals[1..];
      ReadQuoted(tail);
      ReadQuotedCons(vals[0], tail);
      assert vals == [vals[0]] + tail;
    }
  }

  /** A joined list of one or more quoted cells starts with a quote. */
  lemma QuotedStartsWithQuote(vals: seq<string>)
    requires vals != []
    ensures var j := Join(Quoted(vals), ","); j != [] && j[0] == '"'
  {
    assert Quoted(vals) == [Quote(vals[0])] + Quoted(vals)[1..];
    if |vals| > 1 {
      JoinCons(Quote(vals[0]), Quoted(vals)[1..], ",");
    }
  }

  /** A single quoted cell reads back as its text. */
  lemma ReadQuotedOne(v: string)
    ensures ReadLine(Join(Quoted([v]), ",")) == Some([v])
  {
    ReadEscaped(v, "");
    var s := Join(Quoted([v]), ",");
    assert Quoted([v]) == [Quote(v)];
    assert s == Quote(v);
    assert s[1..] == Escape(v) + "\"" + "";
    assert ReadCell(s[1..]) == Some((v, ""));
  }

  /** One more quoted cell in front of a line that reads back adds its text in front. */
  lemma ReadQuotedCons(v: string, tail: seq<string>)
    requires tail != [] && ReadLine(Join(Quoted(tail), ",")) == Some(tail)
    ensures ReadLine(Join(Quoted([v] + tail), ",")) == Some([v] + tail)
  {
    var j := Join(Quoted(tail), ",");
    QuotedStartsWithQuote(tail);
    assert ReadCells(j) == Some(tail);
    assert Quoted([v] + tail) == [Quote(v)] + Quoted(tail);
    JoinCons(Quote(v), Quoted(tail), ",");
    var s := Join(Quoted([v] + tail), ",");
    assert s == "\"" + (Escape(v) + "\"" + ("," + j));
    assert s[1..] == Escape(v) + "\"" + ("," + j);
    ReadEscaped(v, "," + j);
    assert ReadCell(s[1..]) == Some((v, "," + j));
    assert ("," + j)[1..] == j;
  }

  /**
   * The text's lines: the header line exactly when there are headers, then each row's line,
   * which reads back as that row's cell texts in header order (`""` for a missing or
   * null/undefined cell); with no headers every row's line is empty.
   */
  lemma CsvLinesFacts(rows: seq<JsObject>, headers: seq<string>, pr: Printer, i: nat)
    requires i < |rows|
    ensures var ls := CsvLines(rows, headers, pr);
      var h := if |headers| > 0 then 1 else 0;
      && |ls| == |rows| + h
      && (|headers| > 0 ==> ls[0] == Join(headers, ","))
      && ReadLine(ls[h + i]) == Some(Values(rows[i], headers, pr))
      && (headers == [] ==> ls[h + i] == "")
  {
    ReadQuoted(Values(rows[i], headers, pr));
  }

  /** A missing or null/undefined cell is written as `""`; a string cell as itself. */
  lemma CellTextFacts(row: JsObject, h: string, pr: Printer)
    ensures h !in Dict.Keys(row) ==> CellText(row, h, pr) == ""
    ensures Field(row, h).JNull? ==> CellText(row, h, pr) == ""
    ensures Field(row, h).JStr? ==> CellText(row, h, pr) == Field(row, h).s
  {
  }

  // ---------------------------------------------------------------------------------------
  // parseCSV
  // ---------------------------------------------------------------------------------------

  /** Drops the one `'\r'` that `/\r?\n/` takes in front of a line break. */
  function StripCr(p: string): string {
    if p != [] && p[|p| - 1] == '\r' then p[..|p| - 1] else p
  }

  /** `s.split(/\r?\n/)`. */
  function BreakLines(s: string): (r: seq<string>)
    ensures |r| == |Split(s, '\n')|
  {
    var ps := Split(s, '\n');
    seq(|ps|, i requires 0 <= i < |ps| => if i < |ps| - 1 then StripCr(ps[i]) else ps[i])
  }

  /** `.filter(Boolean)` on strings: the non-empty ones, in order. */
  function NonEmpty(ps: seq<string>): seq<string> {
    if ps == [] then [] else (if ps[0] == "" then [] else [ps[0]]) + NonEmpty(ps[1..])
  }

  lemma {:induction false} NonEmptyFacts(ps: seq<string>)
    ensures forall p :: p in NonEmpty(ps) <==> p in ps && p != ""
    ensures |NonEmpty(ps)| <= |ps|
  {
    if ps != [] {
      NonEmptyFacts(ps[1..]);
      assert ps == [ps[0]] + ps[1..];
    }
  }

  /** `csvText.trim().split(/\r?\n/).filter(Boolean)`. */
  function TextLines(s: string): seq<string> {
    NonEmpty(BreakLines(Trim(s, IsJsWhitespace)))
  }

  /** Every line kept is non-empty and holds no line break. */
  lemma TextLinesFacts(s: string)
    ensures forall l :: l in TextLines(s) ==> l != "" && '\n' !in l
  {
    var t := Trim(s, IsJsWhitespace);
    var ps := Split(t, '\n');
    SplitPieces(t, '\n');
    NonEmptyFacts(BreakLines(t));
    forall l | l in BreakLines(t) ensures '\n' !in l {
      var i :| 0 <= i < |ps| && BreakLines(t)[i] == l;
      assert '\n' !in ps[i];
      if i < |ps| - 1 && ps[i] != [] && ps[i][|ps[i]| - 1] == '\r' {
        assert forall k :: 0 <= k < |l| ==> l[k] == ps[i][k];
      }
    }
  }

  /** `l.split(',').map(c => c.trim())`. */
  function Cells(l: string): (r: seq<string>)
    ensures |r| == |Split(l, ',')|
  {
    var ps := Split(l, ',');
    seq(|ps|, i requires 0 <= i < |ps| => Trim(ps[i], IsJsWhitespace))
  }

  /** Cells are split on every comma: a line joined from comma-free pieces gives the trimmed pieces back. */
  lemma CellsOfJoin(parts: seq<string>)
    requires |parts| >= 1 && forall i :: 0 <= i < |parts| ==> ',' !in parts[i]
    ensures Cells(Join(parts, ",")) == seq(|parts|, i requires 0 <= i < |parts| => Trim(parts[i], IsJsWhitespace))
  {
    JoinSplit(parts, ',');
  }

  predicate AllDigits(s: string) {
    forall i :: 0 <= i < |s| ==> IsDigit(s[i])
  }

  /** The text after an optional leading `-`. */
  function Unsigned(v: string): string {
    if v != [] && v[0] == '-' then v[1..] else v
  }

  /** `/^-?\d+(?:\.\d+)?$/.test(v)`. */
  predicate IsNumeric(v: string) {
    var b := Unsigned(v);
    var w := DigitRun(b);
    w > 0 && (w == |b| || (b[w] == '.' && w + 1 < |b| && AllDigits(b[w + 1..])))
  }

  /** The exact value of a numeric cell. */
  function NumericValue(v: string): real
    requires IsNumeric(v)
  {
    var b := Unsigned(v);
    var w := DigitRun(b);
    var m := if w == |b| then DigitsValue(b) as real
             else DigitsValue(b[..w]) as real + DigitsValue(b[w + 1..]) as real / Pow10(|b| - w - 1) as real;
    if v[0] == '-' then -m else m
  }

  /** A numeric cell becomes `Number(v)`; every other cell stays the string. */
  function CellValue(v: string): JsValue {
    if IsNumeric(v) then JNum(NumericValue(v)) else JStr(v)
  }

  /** `cols[i] === undefined ? '' : cols[i]`. */
  function Col(cols: seq<string>, i: nat): string {
    if i < |cols| then cols[i] else ""
  }

  /** The object after `headers.forEach((h, i) => obj[h] = ...)` over the first headers. */
  function RowObject(hs: seq<string>, cols: seq<string>): JsObject {
    if hs == [] then []
    else Dict.Put(RowObject(hs[..|hs| - 1], cols), hs[|hs| - 1], CellValue(Col(cols, |hs| - 1)))
  }

  /** The `forEach` that fills one row's object. */
  method FillRow(headers: seq<string>, cols: seq<string>) returns (obj: JsObject)
    ensures obj == RowObject(headers, cols)
  {
    obj := [];
    for i := 0 to |headers|
      invariant obj == RowObject(headers[..i], cols)
    {
      assert headers[..i + 1][..i] == headers[..i];
      var v := if i < |cols| then cols[i] else "";
      if IsNumeric(v) {
        obj := Dict.Put(obj, headers[i], JNum(NumericValue(v)));
      } else {
        obj := Dict.Put(obj, headers[i], JStr(v));
      }
    }
    assert headers[..|headers|] == headers;
  }

  /** The objects for the lines after the header line, keyed by the header cells. */
  function Rows(ls: seq<string>): (r: seq<JsObject>)
    ensures |r| == if ls == [] then 0 else |ls| - 1
  {
    if ls == [] then []
    else
      var hs := Cells(ls[0]);
      seq(|ls| - 1, i requires 0 <= i < |ls| - 1 => RowObject(hs, Cells(ls[i + 1])))
  }

  /** `parseCSV(csvText)`. */
  function ParseCsv(text: JsValue): seq<JsObject> {
    if !text.JStr? || text.s == "" then [] else Rows(TextLines(text.s))
  }

  /** The object holds each header once. */
  lemma {:induction false} RowObjectDistinct(hs: seq<string>, cols: seq<string>)
    ensures Dict.Distinct(Dict.Keys(RowObject(hs, cols)))
  {
    if hs != [] {
      RowObjectDistinct(hs[..|hs| - 1], cols);
      Dict.PutKeepsDistinct(RowObject(hs[..|hs| - 1], cols), hs[|hs| - 1], CellValue(Col(cols, |hs| - 1)));
    }
  }

  /** A key that is not a header is absent. */
  lemma {:induction false} RowObjectOther(hs: seq<string>, cols: seq<string>, h: string)
    requires h !in hs
    ensures Dict.Get(RowObject(hs, cols), h).None?
  {
    if hs != [] {
      var p := hs[..|hs| - 1];
      assert h !in p by {
        assert forall y :: y in p ==> y in hs;
      }
      RowObjectOther(p, cols, h);
      Dict.GetPut(RowObject(p, cols), hs[|hs| - 1], CellValue(Col(cols, |hs| - 1)), h);
    }
  }

  /** A header's value is the cell under its last occurrence. */
  lemma {:induction false} RowObjectAt(hs: seq<string>, cols: seq<string>, i: nat)
    requires i < |hs| && forall j :: i < j < |hs| ==> hs[j] != hs[i]
    ensures Dict.Get(RowObject(hs, cols), hs[i]) == Some(CellValue(Col(cols, i)))
  {
    var p := hs[..|hs| - 1];
    Dict.GetPut(RowObject(p, cols), hs[|hs| - 1], CellValue(Col(cols, |hs| - 1)), hs[i]);
    if i < |hs| - 1 {
      assert p[i] == hs[i];
      assert forall j :: i < j < |p| ==> p[j] == hs[j];
      RowObjectAt(p, cols, i);
    }
  }

  /**
   * The object holds a key per header, each once; a header's value is the cell under its last
   * occurrence (`''` past the row's end); any other key is `undefined`.
   */
  lemma RowObjectFacts(hs: seq<string>, cols: seq<string>, h: string, i: nat)
    ensures Dict.Distinct(Dict.Keys(RowObject(hs, cols)))
    ensures h !in hs ==> Field(RowObject(hs, cols), h) == JUndefined
    ensures i < |hs| && (forall j :: i < j < |hs| ==> hs[j] != hs[i]) ==>
      Field(RowObject(hs, cols), hs[i]) == CellValue(Col(cols, i))
  {
    RowObjectDistinct(hs, cols);
    if h !in hs {
      RowObjectOther(hs, cols, h);
    }
    if i < |hs| && (forall j :: i < j < |hs| ==> hs[j] != hs[i]) {
      RowObjectAt(hs, cols, i);
    }
  }

  /** A numeric cell starts with `-` or a digit and ends with a digit. */
  lemma NumericEnds(v: string)
    requires IsNumeric(v)
    ensures v != [] && (v[0] == '-' || IsDigit(v[0])) && IsDigit(v[|v| - 1])
    ensures |v| > 1 ==> IsDigit(v[1]) || v[1] == '.'
  {
    var b := Unsigned(v);
    var w := DigitRun(b);
    if w < |b| {
      assert b[|b| - 1] == b[w + 1..][|b| - w - 2];
    }
    assert v[|v| - 1] == b[|b| - 1];
    if v[0] == '-' {
      assert b == v[1..];
      assert |v| > 1 ==> v[1] == b[0];
    } else {
      assert b == v;
      assert |v| > 1 ==> w == 1 || IsDigit(v[1]);
    }
  }

  /** Trimming leaves a numeric cell alone, and it is no radix literal. */
  lemma NumericPlain(v: string)
    requires v != [] && (v[0] == '-' || IsDigit(v[0])) && IsDigit(v[|v| - 1])
    requires |v| > 1 ==> IsDigit(v[1]) || v[1] == '.'
    ensures Trim(v, IsJsWhitespace) == v
    ensures ParseRadixLiteral(v).None?
  {
    assert !IsJsWhitespace(v[0]);
    assert TrimStart(v, IsJsWhitespace) == v;
    assert !IsJsWhitespace(v[|v| - 1]);
  }

  /** The unsigned part denotes the cell's magnitude. */
  lemma MagnitudeParses(v: string)
    requires IsNumeric(v)
    ensures var b := Unsigned(v);
      ParseUnsignedDecimal(b) == Some(if v[0] == '-' then -NumericValue(v) else NumericValue(v))
  {
    var b := Unsigned(v);
    var w := DigitRun(b);
    assert AllDigits(b[..w]);
    if w == |b| {
      assert b[..w] == b;
      ParseDigits(b);
    } else {
      assert b == b[..w] + "." + b[w + 1..];
      ParseFixedPoint(b[..w], b[w + 1..]);
    }
  }

  /** A matching cell is exactly JavaScript's `Number(v)`. */
  lemma NumericIsNumber(v: string)
    requires IsNumeric(v)
    ensures JsStringToNumber(v) == Some(NumericValue(v))
  {
    NumericEnds(v);
    NumericPlain(v);
    MagnitudeParses(v);
    if v[0] == '-' {
      assert Unsigned(v) == v[1..];
    } else {
      assert Unsigned(v) == v;
    }
  }

  /** No object for a value that is not a string, or for the empty string. */
  lemma ParseCsvNoText(text: JsValue)
    requires !text.JStr? || text.s == ""
    ensures ParseCsv(text) == []
  {
  }

  /**
   * No object for header-only text; otherwise one object per non-empty line after the header
   * line.
   */
  lemma ParseCsvRows(s: string)
    requires s != ""
    ensures |TextLines(s)| <= 1 ==> ParseCsv(JStr(s)) == []
    ensures |TextLines(s)| >= 1 ==> |ParseCsv(JStr(s))| == |TextLines(s)| - 1
  {
  }

  /** A blank text has no lines at all. */
  lemma BlankHasNoLines(s: string)
    requires forall i :: 0 <= i < |s| ==> IsJsWhitespace(s[i])
    ensures TextLines(s) == [] && ParseCsv(JStr(s)) == []
  {
    TrimFacts(s, IsJsWhitespace);
    assert BreakLines("") == [""];
  }
}
