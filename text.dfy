/**
 * Character and string helpers shared by the Python and JavaScript parts of the model:
 * ASCII case mapping, substring search, whitespace trimming, decimal and hexadecimal text.
 */
module Text {
  predicate IsDigit(c: char) { '0' <= c <= '9' }

  function DigitValue(c: char): nat
    requires IsDigit(c)
  {
    c as int - '0' as int
  }

  /** `str.lower()` restricted to ASCII: `A`-`Z` map to `a`-`z`, everything else is kept. */
  function LowerChar(c: char): char {
    if 'A' <= c <= 'Z' then (c as int + 32) as char else c
  }

  function Lower(s: string): (r: string)
    ensures |r| == |s|
    ensures forall i :: 0 <= i < |s| ==> r[i] == LowerChar(s[i])
  {
    if s == [] then [] else [LowerChar(s[0])] + Lower(s[1..])
  }

  /** Lowering twice is lowering once. */
  lemma LowerIdempotent(s: string)
    ensures Lower(Lower(s)) == Lower(s)
  {
  }

  /** Python's `p in s` on strings, JavaScript's `s.includes(p)`. */
  predicate Contains(s: string, p: string)
    decreases |s|
  {
    p <= s || (s != [] && Contains(s[1..], p))
  }

  predicate OccursAt(s: string, p: string, i: int) {
    0 <= i <= |s| - |p| && s[i..i + |p|] == p
  }

  lemma {:induction false} ContainsIff(s: string, p: string)
    ensures Contains(s, p) <==> exists i :: OccursAt(s, p, i)
    decreases |s|
  {
    if p <= s {
      assert OccursAt(s, p, 0);
    } else if s != [] {
      ContainsIff(s[1..], p);
      if Contains(s, p) {
        var i :| OccursAt(s[1..], p, i);
        assert OccursAt(s, p, i + 1);
      }
      if exists i :: OccursAt(s, p, i) {
        var i :| OccursAt(s, p, i);
        assert i != 0;
        assert OccursAt(s[1..], p, i - 1);
      }
    }
  }

  /** Every string contains itself and the empty string. */
  lemma ContainsSelf(s: string)
    ensures Contains(s, s) && Contains(s, "")
  {
  }

  // ---------------------------------------------------------------------------------------
  // Whitespace
  // ---------------------------------------------------------------------------------------

  /** The characters for which Python's `str.isspace()` holds; `str.strip()` removes them. */
  predicate IsPyWhitespace(c: char) {
    c == ' ' || '\t' <= c <= '\r' || '\U{1c}' <= c <= '\U{1f}' || c == '\U{85}' || c == '\U{a0}'
    || c == '\U{1680}' || '\U{2000}' <= c <= '\U{200a}' || c == '\U{2028}' || c == '\U{2029}'
    || c == '\U{202f}' || c == '\U{205f}' || c == '\U{3000}'
  }

  /**
   * The characters JavaScript's `String.prototype.trim` removes: the WhiteSpace and
   * LineTerminator productions of ECMA-262 (sections 12.2 and 12.3).
   */
  predicate IsJsWhitespace(c: char) {
    c == ' ' || '\t' <= c <= '\r' || c == '\U{a0}' || c == '\U{feff}' || c == '\U{1680}'
    || '\U{2000}' <= c <= '\U{200a}' || c == '\U{2028}' || c == '\U{2029}' || c == '\U{202f}'
    || c == '\U{205f}' || c == '\U{3000}'
  }

  function TrimStart(s: string, ws: char -> bool): (r: string)
    ensures |r| <= |s| && r == s[|s| - |r|..]
  {
    if s != [] && ws(s[0]) then TrimStart(s[1..], ws) else s
  }

  function TrimEnd(s: string, ws: char -> bool): (r: string)
    ensures |r| <= |s| && r == s[..|r|]
  {
    if s != [] && ws(s[|s| - 1]) then TrimEnd(s[..|s| - 1], ws) else s
  }

  /** What `TrimStart` keeps does not start with a `ws` character. */
  lemma {:induction false} TrimStartFirst(s: string, ws: char -> bool)
    ensures TrimStart(s, ws) == [] || !ws(TrimStart(s, ws)[0])
  {
    if s != [] && ws(s[0]) {
      TrimStartFirst(s[1..], ws);
    }
  }

  /** What `TrimEnd` keeps does not end with a `ws` character. */
  lemma {:induction false} TrimEndLast(s: string, ws: char -> bool)
    ensures TrimEnd(s, ws) == [] || !ws(TrimEnd(s, ws)[|TrimEnd(s, ws)| - 1])
  {
    if s != [] && ws(s[|s| - 1]) {
      TrimEndLast(s[..|s| - 1], ws);
    }
  }

  /** `TrimStart` removes everything exactly from an all-`ws` string. */
  lemma TrimStartBlank(s: string, ws: char -> bool)
    ensures TrimStart(s, ws) == [] <==> forall i :: 0 <= i < |s| ==> ws(s[i])
  {
    var t := TrimStart(s, ws);
    if t == [] {
      forall i | 0 <= i < |s| ensures ws(s[i]) {
        TrimStartRemoved(s, ws, i);
      }
    } else {
      TrimStartFirst(s, ws);
      assert t[0] == s[|s| - |t|];
    }
  }

  /** Everything `TrimStart` removes satisfies `ws`. */
  lemma {:induction false} TrimStartRemoved(s: string, ws: char -> bool, i: int)
    requires 0 <= i < |s| - |TrimStart(s, ws)|
    ensures ws(s[i])
  {
    if s != [] && ws(s[0]) && i > 0 {
      TrimStartRemoved(s[1..], ws, i - 1);
    }
  }

  /** Everything `TrimEnd` removes satisfies `ws`. */
  lemma {:induction false} TrimEndRemoved(s: string, ws: char -> bool, i: int)
    requires |TrimEnd(s, ws)| <= i < |s|
    ensures ws(s[i])
  {
    if s != [] && ws(s[|s| - 1]) && i < |s| - 1 {
      TrimEndRemoved(s[..|s| - 1], ws, i);
    }
  }

  /** Removes leading and trailing characters satisfying `ws` (Python `strip`, JS `trim`). */
  function Trim(s: string, ws: char -> bool): (r: string)
    ensures |r| <= |s|
  {
    TrimEnd(TrimStart(s, ws), ws)
  }

  /** The trimmed string is empty exactly for all-blank input. */
  lemma TrimFacts(s: string, ws: char -> bool)
    ensures Trim(s, ws) == [] <==> forall i :: 0 <= i < |s| ==> ws(s[i])
  {
    var a := TrimStart(s, ws);
    var k := |s| - |a|;
    if Trim(s, ws) == [] {
      forall i | 0 <= i < |s| ensures ws(s[i]) {
        if i < k {
          TrimStartRemoved(s, ws, i);
        } else {
          TrimEndRemoved(a, ws, i - k);
        }
      }
    } else {
      TrimStartFirst(s, ws);
      assert Trim(s, ws)[0] == a[0] == s[k];
    }
  }

  /** Trimming twice is trimming once. */
  lemma TrimIdempotent(s: string, ws: char -> bool)
    ensures Trim(Trim(s, ws), ws) == Trim(s, ws)
  {
    var t := Trim(s, ws);
    TrimStartFirst(s, ws);
    TrimEndLast(TrimStart(s, ws), ws);
    if t != [] {
      assert t[0] == TrimStart(s, ws)[0];
      assert TrimStart(t, ws) == t;
      assert TrimEnd(t, ws) == t;
    }
  }

  // ---------------------------------------------------------------------------------------
  // Decimal and hexadecimal text
  // ---------------------------------------------------------------------------------------

  /** The decimal value of a string of digits (`""` is 0). */
  function DigitsValue(s: string): nat
    requires forall i :: 0 <= i < |s| ==> IsDigit(s[i])
  {
    if s == [] then 0 else DigitsValue(s[..|s| - 1]) * 10 + DigitValue(s[|s| - 1])
  }

  /** `String(n)` for a natural number: decimal digits, no leading zero. */
  function NatToString(n: nat): (r: string)
    ensures r != [] && forall i :: 0 <= i < |r| ==> IsDigit(r[i])
    ensures |r| > 1 ==> r[0] != '0'
    ensures DigitsValue(r) == n
  {
    if n < 10 then ["0123456789"[n]]
    else
      var p := NatToString(n / 10);
      var r := p + ["0123456789"[n % 10]];
      assert r[..|r| - 1] == p;
      r
  }

  /** `String(i)` / `str(i)` for an integer. */
  function IntToString(i: int): (r: string)
    ensures r != []
    ensures i < 0 <==> r[0] == '-'
  {
    if i < 0 then "-" + NatToString(-i) else NatToString(i)
  }

  /** Decimal text is injective: distinct integers print differently. */
  lemma {:induction false} IntToStringInjective(i: int, j: int)
    requires IntToString(i) == IntToString(j)
    ensures i == j
  {
    if i < 0 {
      assert j < 0;
      assert NatToString(-i) == IntToString(i)[1..] == IntToString(j)[1..] == NatToString(-j);
    } else {
      assert j >= 0;
    }
  }

  /** `String(n).padStart(2, '0')`. */
  function Pad2(n: nat): (r: string)
    ensures |r| >= 2 && forall i :: 0 <= i < |r| ==> IsDigit(r[i])
    ensures DigitsValue(r) == n
    ensures n < 100 ==> |r| == 2
  {
    var s := NatToString(n);
    if |s| < 2 then
      var r := "0" + s;
      assert r[..1] == "0";
      r
    else
      assert n < 100 ==> |NatToString(n / 10)| == 1;
      s
  }

  predicate IsLowerHexDigit(c: char) { '0' <= c <= '9' || 'a' <= c <= 'f' }

  function HexDigitValue(c: char): nat
    requires IsLowerHexDigit(c)
  {
    if '0' <= c <= '9' then c as int - '0' as int else c as int - 'a' as int + 10
  }

  function HexValue(s: string): nat
    requires forall i :: 0 <= i < |s| ==> IsLowerHexDigit(s[i])
  {
    if s == [] then 0 else HexValue(s[..|s| - 1]) * 16 + HexDigitValue(s[|s| - 1])
  }

  /** The lowercase hexadecimal digit of `d`. */
  function HexChar(d: nat): (c: char)
    requires d < 16
    ensures IsLowerHexDigit(c) && HexDigitValue(c) == d
    ensures c == '0' <==> d == 0
  {
    if d < 10 then ('0' as int + d) as char else ('a' as int + d - 10) as char
  }

  /** `n.toString(16)`: lowercase hexadecimal, no padding, no leading zero. */
  function NatToHex(n: nat): (r: string)
    ensures r != [] && forall i :: 0 <= i < |r| ==> IsLowerHexDigit(r[i])
    ensures |r| > 1 ==> r[0] != '0'
    ensures HexValue(r) == n
  {
    if n < 16 then [HexChar(n)]
    else
      var p := NatToHex(n / 16);
      var r := p + [HexChar(n % 16)];
      assert r[..|r| - 1] == p;
      r
  }

  /** Hexadecimal text is injective. */
  lemma NatToHexInjective(m: nat, n: nat)
    requires NatToHex(m) == NatToHex(n)
    ensures m == n
  {
  }

  function Pow16(k: nat): nat { if k == 0 then 1 else 16 * Pow16(k - 1) }

  /** A value below `16^k` prints in at most `k` hexadecimal digits. */
  lemma {:induction false} NatToHexLength(n: nat, k: nat)
    requires 1 <= k && n < Pow16(k)
    ensures |NatToHex(n)| <= k
  {
    if n >= 16 {
      assert k >= 2 by {
        if k == 1 { assert false; }
      }
      HexLengthStep(n);
      NatToHexLength(n / 16, k - 1);
    }
  }

  lemma HexLengthStep(m: nat)
    requires m >= 16
    ensures |NatToHex(m)| == |NatToHex(m / 16)| + 1
  {
  }

  // ---------------------------------------------------------------------------------------
  // UTF-16
  // ---------------------------------------------------------------------------------------

  /** A UTF-16 code unit. */
  type CodeUnit = x: int | 0 <= x < 0x1_0000

  /**
   * The UTF-16 code units of one character (section 3.9 of the Unicode Standard, definition
   * D91): a character below U+10000 is one unit, its own value; any other is a high surrogate
   * followed by a low surrogate.
   */
  function CharUnits(c: char): (u: seq<CodeUnit>)
    ensures 1 <= |u| <= 2
  {
    var v := c as int;
    if v < 0x1_0000 then [v]
    else [0xD800 + (v - 0x1_0000) / 1024, 0xDC00 + (v - 0x1_0000) % 1024]
  }

  /** The code units of a string, as JavaScript's `length` and `charCodeAt` see them. */
  function Utf16(s: string): (u: seq<CodeUnit>)
    ensures |s| <= |u| <= 2 * |s|
  {
    if s == [] then [] else CharUnits(s[0]) + Utf16(s[1..])
  }

  /** Encoding a concatenation concatenates the encodings. */
  lemma {:induction false} Utf16Append(s: string, t: string)
    ensures Utf16(s + t) == Utf16(s) + Utf16(t)
  {
    if s == [] {
      assert s + t == t;
    } else {
      assert (s + t)[0] == s[0];
      assert (s + t)[1..] == s[1..] + t;
      Utf16Append(s[1..], t);
    }
  }

  /** Text made of characters below U+10000 is one code unit per character, of the same value. */
  lemma {:induction false} Utf16Bmp(s: string)
    requires forall i :: 0 <= i < |s| ==> s[i] as int < 0x1_0000
    ensures |Utf16(s)| == |s|
    ensures forall i :: 0 <= i < |s| ==> Utf16(s)[i] == s[i] as int
  {
    if s != [] {
      Utf16Bmp(s[1..]);
      assert Utf16(s) == [s[0] as int] + Utf16(s[1..]);
    }
  }

  /** A character above U+FFFF is two units, a surrogate pair: U+1F600 is D83D then DE00. */
  lemma SurrogatePair()
    ensures Utf16("\U{1F600}") == [0xD83D, 0xDE00]
  {
    assert "\U{1F600}"[1..] == [];
  }

  /** The units of a character determine it. */
  lemma CharUnitsInjective(c: char, d: char)
    requires CharUnits(c)[0] == CharUnits(d)[0]
    requires |CharUnits(c)| == |CharUnits(d)| == 2 ==> CharUnits(c)[1] == CharUnits(d)[1]
    ensures c == d
  {
    var v, w := c as int, d as int;
    if v >= 0x1_0000 && w >= 0x1_0000 {
      assert v - 0x1_0000 == (v - 0x1_0000) / 1024 * 1024 + (v - 0x1_0000) % 1024;
      assert w - 0x1_0000 == (w - 0x1_0000) / 1024 * 1024 + (w - 0x1_0000) % 1024;
    }
  }

  /** Distinct strings have distinct code units. */
  lemma {:induction false} Utf16Injective(a: string, b: string)
    requires Utf16(a) == Utf16(b)
    ensures a == b
  {
    if a != [] && b != [] {
      var ua, ub := CharUnits(a[0]), CharUnits(b[0]);
      assert Utf16(a) == ua + Utf16(a[1..]) && Utf16(b) == ub + Utf16(b[1..]);
      assert ua[0] == Utf16(a)[0] == ub[0];
      // The first unit is a high surrogate exactly when the character is above U+FFFF.
      assert |ua| == |ub|;
      if |ua| == 2 {
        assert ua[1] == Utf16(a)[1] == ub[1];
      }
      CharUnitsInjective(a[0], b[0]);
      assert Utf16(a[1..]) == Utf16(a)[|ua|..] == Utf16(b)[|ub|..] == Utf16(b[1..]);
      Utf16Injective(a[1..], b[1..]);
      assert a == [a[0]] + a[1..] && b == [b[0]] + b[1..];
    }
  }

  // ---------------------------------------------------------------------------------------
  // String order
  // ---------------------------------------------------------------------------------------

  /** Code unit by code unit, a proper prefix coming first. */
  predicate UnitsLess(a: seq<CodeUnit>, b: seq<CodeUnit>) {
    if a == [] then b != []
    else if b == [] then false
    else if a[0] != b[0] then a[0] < b[0]
    else UnitsLess(a[1..], b[1..])
  }

  /**
   * `a < b` on strings (ECMA-262 section 7.2.13): the strings' UTF-16 code units compared in
   * order, a proper prefix coming first.
   */
  predicate LexLess(a: string, b: string) {
    UnitsLess(Utf16(a), Utf16(b))
  }

  lemma {:induction false} UnitsLessIrreflexive(a: seq<CodeUnit>)
    ensures !UnitsLess(a, a)
  {
    if a != [] {
      UnitsLessIrreflexive(a[1..]);
    }
  }

  lemma {:induction false} UnitsLessTransitive(a: seq<CodeUnit>, b: seq<CodeUnit>, c: seq<CodeUnit>)
    requires UnitsLess(a, b) && UnitsLess(b, c)
    ensures UnitsLess(a, c)
  {
    if a != [] && a[0] == b[0] && b[0] == c[0] {
      UnitsLessTransitive(a[1..], b[1..], c[1..]);
    }
  }

  lemma {:induction false} UnitsLessTotal(a: seq<CodeUnit>, b: seq<CodeUnit>)
    ensures a != b ==> UnitsLess(a, b) || UnitsLess(b, a)
    ensures !(UnitsLess(a, b) && UnitsLess(b, a))
  {
    if a != [] && b != [] && a[0] == b[0] {
      UnitsLessTotal(a[1..], b[1..]);
      if a != b {
        assert a == [a[0]] + a[1..] && b == [b[0]] + b[1..];
      }
    }
  }

  lemma LexLessIrreflexive(a: string)
    ensures !LexLess(a, a)
  {
    UnitsLessIrreflexive(Utf16(a));
  }

  lemma LexLessTransitive(a: string, b: string, c: string)
    requires LexLess(a, b) && LexLess(b, c)
    ensures LexLess(a, c)
  {
    UnitsLessTransitive(Utf16(a), Utf16(b), Utf16(c));
  }

  /** Distinct strings are ordered one way or the other, and never both. */
  lemma LexLessTotal(a: string, b: string)
    ensures a != b ==> LexLess(a, b) || LexLess(b, a)
    ensures !(LexLess(a, b) && LexLess(b, a))
  {
    UnitsLessTotal(Utf16(a), Utf16(b));
    if Utf16(a) == Utf16(b) {
      Utf16Injective(a, b);
    }
  }

  /**
   * Code unit order is not code point order: U+1F600 (units D83D DE00) sorts before U+FFFD,
   * although its code point is larger.
   */
  lemma UnitOrderNotCodePointOrder()
    ensures LexLess("\U{1F600}", "\U{FFFD}")
  {
    SurrogatePair();
    assert "\U{FFFD}"[1..] == [];
    assert Utf16("\U{FFFD}") == [0xFFFD];
  }
}
