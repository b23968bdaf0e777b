/**
 * Decimal number literals and the string-to-number conversions built on them:
 * Python's `float(str)`, JavaScript's `Number(str)` (the StringToNumber operation of
 * ECMA-262, section 7.1.4.1.1) and JavaScript's `parseFloat`.
 * Numbers are exact reals: binary floating-point rounding is not modelled.
 */
module Numbers {
  import opened Common
  import opened Text

  function Pow10(n: nat): (r: nat)
    ensures r >= 1
  {
    if n == 0 then 1 else 10 * Pow10(n - 1)
  }

  /** The length of the longest prefix of `s` made of decimal digits. */
  function DigitRun(s: string): (n: nat)
    ensures n <= |s|
    ensures forall i :: 0 <= i < n ==> IsDigit(s[i])
    ensures n < |s| ==> !IsDigit(s[n])
  {
    if s != [] && IsDigit(s[0]) then 1 + DigitRun(s[1..]) else 0
  }

  /**
   * The pieces of an unsigned decimal literal
   * `digits [ "." [digits] ] [ ("e" | "E") [sign] digits ]` or `"." digits [exponent]`.
   */
  datatype Literal = Literal(whole: string, hasDot: bool, frac: string, expNeg: bool, exp: string)
  {
    ghost predicate Valid() {
      (forall i :: 0 <= i < |whole| ==> IsDigit(whole[i]))
      && (forall i :: 0 <= i < |frac| ==> IsDigit(frac[i]))
      && (forall i :: 0 <= i < |exp| ==> IsDigit(exp[i]))
      && (hasDot || frac == [])
      && |whole| + |frac| > 0
    }

    /** The exact value the literal denotes. */
    function Value(): real
      requires Valid()
    {
      var m := DigitsValue(whole) as real + DigitsValue(frac) as real / Pow10(|frac|) as real;
      if exp == [] then m
      else if expNeg then m / Pow10(DigitsValue(exp)) as real
      else m * Pow10(DigitsValue(exp)) as real
    }
  }

  /** `digits [ "." [digits] ]` or `"." digits` at the start of `s`, with its length. */
  function ScanMantissa(s: string): (r: Option<(string, bool, string, nat)>)
    ensures r.Some? ==> var (whole, hasDot, frac, n) := r.value;
      n <= |s| && |whole| + |frac| > 0 && (hasDot || frac == [])
      && (forall i :: 0 <= i < |whole| ==> IsDigit(whole[i]))
      && (forall i :: 0 <= i < |frac| ==> IsDigit(frac[i]))
      && n == |whole| + (if hasDot then 1 + |frac| else 0)
      && s[..n] == whole + (if hasDot then "." + frac else "")
  {
    var w := DigitRun(s);
    if w < |s| && s[w] == '.' then
      var f := DigitRun(s[w + 1..]);
      if w + f == 0 then None
      else
        assert s[..w + 1 + f] == s[..w] + "." + s[w + 1..][..f];
        Some((s[..w], true, s[w + 1..][..f], w + 1 + f))
    else if w == 0 then None
    else Some((s[..w], false, "", w))
  }

  /**
   * `("e" | "E") [sign] digits` at the start of `s`: whether it is negative, its digits and
   * its length; length 0 when `s` does not start with a complete exponent.
   */
  function ScanExponent(s: string): (r: (bool, string, nat))
    ensures r.2 <= |s| && (r.2 == 0 <==> r.1 == [])
    ensures forall i :: 0 <= i < |r.1| ==> IsDigit(r.1[i])
    ensures r.2 > 0 ==> s[r.2 - 1] == r.1[|r.1| - 1]
  {
    if s != [] && (s[0] == 'e' || s[0] == 'E') then
      var signed := |s| > 1 && (s[1] == '+' || s[1] == '-');
      var at := if signed then 2 else 1;
      var e := DigitRun(s[at..]);
      if e == 0 then (false, "", 0) else (signed && s[1] == '-', s[at..][..e], at + e)
    else (false, "", 0)
  }

  /**
   * The longest prefix of `s` that is an unsigned decimal literal, with its length;
   * `None` when not even one digit (before or after a dot) starts `s`.
   * An `e` not followed by an exponent is not part of the literal.
   */
  function ScanDecimal(s: string): (r: Option<(Literal, nat)>)
    ensures r.Some? ==> r.value.0.Valid() && r.value.1 <= |s|
  {
    match ScanMantissa(s)
    case None => None
    case Some((whole, hasDot, frac, n)) =>
      var (neg, exp, m) := ScanExponent(s[n..]);
      Some((Literal(whole, hasDot, frac, neg, exp), n + m))
  }

  /** `s` is exactly one unsigned decimal literal; its value. */
  function ParseUnsignedDecimal(s: string): (r: Option<real>)
    ensures r.Some? <==> ScanDecimal(s).Some? && ScanDecimal(s).value.1 == |s|
  {
    match ScanDecimal(s)
    case Some((lit, n)) => if n == |s| then Some(lit.Value()) else None
    case None => None
  }

  function Negate(r: Option<real>): Option<real> {
    match r case Some(v) => Some(-v) case None => None
  }

  /** An optional `+`/`-` sign followed by an unsigned decimal literal filling all of `s`. */
  function ParseSignedDecimal(s: string): (r: Option<real>)
    ensures s != [] && IsDigit(s[0]) ==> r == ParseUnsignedDecimal(s)
  {
    if s != [] && s[0] == '-' then Negate(ParseUnsignedDecimal(s[1..]))
    else if s != [] && s[0] == '+' then ParseUnsignedDecimal(s[1..])
    else ParseUnsignedDecimal(s)
  }

  /**
   * Python's `float(s)` on a string: surrounding whitespace is ignored; `None` stands for the
   * `ValueError` it raises. The spellings `inf`, `nan` and digit-group underscores are not
   * modelled.
   */
  function PyFloat(s: string): (r: Option<real>)
    ensures Trim(s, IsPyWhitespace) == [] ==> r.None?
  {
    var t := Trim(s, IsPyWhitespace);
    if t == [] then None else ParseSignedDecimal(t)
  }

  /** The digit values of radix 2, 8 and 16 literals (`0b`, `0o`, `0x`, either case). */
  function RadixDigit(c: char, radix: nat): Option<nat> {
    var v := if '0' <= c <= '9' then c as int - '0' as int
             else if 'a' <= c <= 'f' then c as int - 'a' as int + 10
             else if 'A' <= c <= 'F' then c as int - 'A' as int + 10
             else 16;
    if v < radix then Some(v) else None
  }

  function RadixValue(s: string, radix: nat): Option<nat> {
    if s == [] then Some(0)
    else match (RadixValue(s[..|s| - 1], radix), RadixDigit(s[|s| - 1], radix))
      case (Some(a), Some(d)) => Some(a * radix + d)
      case _ => None
  }

  /** `0x1F`, `0o17`, `0b101`: a non-empty digit string after the prefix. */
  function ParseRadixLiteral(s: string): Option<real> {
    if |s| > 2 && s[0] == '0' then
      var radix := if s[1] in "xX" then 16 else if s[1] in "oO" then 8 else if s[1] in "bB" then 2 else 0;
      if radix == 0 then None
      else match RadixValue(s[2..], radix)
        case Some(v) => Some(v as real)
        case None => None
    else None
  }

  /**
   * JavaScript's `Number(s)` on a string: surrounding white space is ignored, the empty string
   * is 0, and `None` stands for `NaN`. `Infinity` is not modelled.
   */
  function JsStringToNumber(s: string): (r: Option<real>)
    ensures Trim(s, IsJsWhitespace) == [] ==> r == Some(0.0)
  {
    var t := Trim(s, IsJsWhitespace);
    if t == [] then Some(0.0)
    else if ParseRadixLiteral(t).Some? then ParseRadixLiteral(t)
    else ParseSignedDecimal(t)
  }

  /**
   * JavaScript's `parseFloat(s)`: leading white space is skipped and the longest prefix that
   * is a signed decimal literal is read; `None` (NaN) when there is none.
   */
  function JsParseFloat(s: string): Option<real> {
    var t := TrimStart(s, IsJsWhitespace);
    var neg := t != [] && t[0] == '-';
    var body := if t != [] && (t[0] == '-' || t[0] == '+') then t[1..] else t;
    match ScanDecimal(body)
    case Some((lit, _)) => Some(if neg then -lit.Value() else lit.Value())
    case None => None
  }

  /** A blank string has no number prefix: NaN. */
  lemma JsParseFloatBlank(s: string)
    requires forall i :: 0 <= i < |s| ==> IsJsWhitespace(s[i])
    ensures JsParseFloat(s).None?
  {
    TrimStartBlank(s, IsJsWhitespace);
    assert ScanMantissa([]).None?;
  }

  /** A string that starts with a letter (not a digit, dot, sign or white space) has no number prefix. */
  lemma JsParseFloatLetter(s: string)
    requires s != [] && !IsJsWhitespace(s[0]) && !IsDigit(s[0]) && s[0] != '.' && s[0] != '+' && s[0] != '-'
    ensures JsParseFloat(s).None?
  {
    assert TrimStart(s, IsJsWhitespace) == s;
    assert DigitRun(s) == 0;
    assert ScanMantissa(s).None?;
  }

  lemma {:induction false} DigitRunAppend(d: string, t: string)
    requires forall i :: 0 <= i < |d| ==> IsDigit(d[i])
    ensures DigitRun(d + t) == |d| + DigitRun(t)
  {
    if d != [] {
      assert (d + t)[1..] == d[1..] + t;
      DigitRunAppend(d[1..], t);
    } else {
      assert d + t == t;
    }
  }

  /** A plain `digits.digits` literal denotes its whole part plus its fraction. */
  lemma {:induction false} ParseFixedPoint(whole: string, frac: string)
    requires forall i :: 0 <= i < |whole| ==> IsDigit(whole[i])
    requires forall i :: 0 <= i < |frac| ==> IsDigit(frac[i])
    requires |whole| + |frac| > 0
    ensures ParseUnsignedDecimal(whole + "." + frac)
         == Some(DigitsValue(whole) as real + DigitsValue(frac) as real / Pow10(|frac|) as real)
  {
    ScanFixedPoint(whole, frac);
    var lit := Literal(whole, true, frac, false, "");
    assert ParseUnsignedDecimal(whole + "." + frac) == Some(lit.Value());
  }

  lemma {:induction false} ScanFixedPoint(whole: string, frac: string)
    requires forall i :: 0 <= i < |whole| ==> IsDigit(whole[i])
    requires forall i :: 0 <= i < |frac| ==> IsDigit(frac[i])
    requires |whole| + |frac| > 0
    ensures ScanDecimal(whole + "." + frac)
         == Some((Literal(whole, true, frac, false, ""), |whole| + 1 + |frac|))
  {
    var s := whole + "." + frac;
    MantissaFixedPoint(whole, frac);
    assert s[|s|..] == [];
  }

  lemma {:induction false} MantissaFixedPoint(whole: string, frac: string)
    requires forall i :: 0 <= i < |whole| ==> IsDigit(whole[i])
    requires forall i :: 0 <= i < |frac| ==> IsDigit(frac[i])
    requires |whole| + |frac| > 0
    ensures ScanMantissa(whole + "." + frac) == Some((whole, true, frac, |whole| + 1 + |frac|))
  {
    var s := whole + "." + frac;
    DigitRunAppend(whole, "." + frac);
    assert s == whole + ("." + frac);
    assert DigitRun("." + frac) == 0;
    assert s[|whole|] == '.';
    assert s[|whole| + 1..] == frac + "";
    DigitRunAppend(frac, "");
    assert s[..|whole|] == whole;
    assert s[|whole| + 1..][..|frac|] == frac;
  }

  /** A string of digits denotes its decimal value. */
  lemma {:induction false} ParseDigits(whole: string)
    requires forall i :: 0 <= i < |whole| ==> IsDigit(whole[i])
    requires whole != []
    ensures ParseUnsignedDecimal(whole) == Some(DigitsValue(whole) as real)
  {
    DigitRunAppend(whole, "");
    assert whole + "" == whole;
    assert whole[..|whole|] == whole;
    assert ScanMantissa(whole) == Some((whole, false, "", |whole|));
    assert whole[|whole|..] == [];
    var lit := Literal(whole, false, "", false, "");
    assert ScanDecimal(whole) == Some((lit, |whole|));
    assert lit.Value() == DigitsValue(whole) as real;
  }
}
