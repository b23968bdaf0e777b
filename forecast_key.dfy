/**
 * The forecast page's input key: a streaming 32-bit FNV-1a hash (FNV offset basis 2166136261,
 * FNV prime 16777619, as in the IETF FNV draft, draft-eastlake-fnv, section 2) over the
 * settings and the rows, printed as unpadded lowercase hexadecimal, and the check that skips a
 * recomputation when the key has not changed. The hash reads the text's UTF-16 code units,
 * as `length` and `charCodeAt` do, so a character above U+FFFF is fed as its two surrogates.
 * The hash state is the unsigned 32-bit value `h >>> 0`; the XOR of
 * `h ^= c` and the wrap-around of `Math.imul(h, p) >>> 0` are written out on integers.
 */
module ForecastKey {
  import opened Common
  import opened Text
  import opened Js

  /** An unsigned 32-bit value. */
  type U32 = x: int | 0 <= x < 0x1_0000_0000

  /** The 32-bit FNV offset basis; the 32-bit FNV prime, 16777619, is written out in `Step`. */
  const OffsetBasis: U32 := 2166136261

  /** Bitwise exclusive or of two non-negative integers. */
  function Xor(a: nat, b: nat): nat
    decreases a + b
  {
    if a == 0 then b
    else if b == 0 then a
    else 2 * Xor(a / 2, b / 2) + (if a % 2 == b % 2 then 0 else 1)
  }

  /** One code unit: `h ^= c; h = Math.imul(h, 16777619) >>> 0`. */
  function Step(h: U32, c: CodeUnit): U32 {
    (Xor(h, c) * 16777619) % 0x1_0000_0000
  }

  /** The hash state after feeding the code units `u` to `h`, one at a time from the left. */
  function Update(h: U32, u: seq<CodeUnit>): U32 {
    if u == [] then h else Step(Update(h, u[..|u| - 1]), u[|u| - 1])
  }

  /** `fnv1aUpdate(h, str)`: the loop over `str.charCodeAt(i)` for `i < str.length`. */
  method FnvUpdate(h: U32, str: string) returns (r: U32)
    ensures r == Update(h, Utf16(str))
  {
    var units := Utf16(str);
    r := h;
    for i := 0 to |units|
      invariant r == Update(h, units[..i])
    {
      assert units[..i + 1][..i] == units[..i];
      r := Step(r, units[i]);
    }
    assert units[..|units|] == units;
  }

  /** `fnv1aDigest(h)`: `(h >>> 0).toString(16)`. */
  function Digest(h: U32): (d: string)
    ensures d != [] && forall i :: 0 <= i < |d| ==> IsLowerHexDigit(d[i])
    ensures |d| > 1 ==> d[0] != '0'
    ensures HexValue(d) == h
  {
    NatToHex(h)
  }

  // ---------------------------------------------------------------------------------------
  // The input key
  // ---------------------------------------------------------------------------------------

  /** The forecast settings the key covers. */
  datatype Settings = Settings(
    forecastMethod: JsValue,
    monthsOut: JsValue,
    holtAlpha: JsValue,
    holtBeta: JsValue,
    holtBootstrap: JsValue,
    holtBootstrapSamples: JsValue,
    holtBootstrapAsync: JsValue)

  /** The settings, each followed by `|`; the two flags become `b`/`n` and `a`/`s`. */
  function SettingsText(st: Settings, pr: Printer): string {
    ToStr(st.forecastMethod, pr) + "|" + ToStr(st.monthsOut, pr) + "|" + ToStr(st.holtAlpha, pr) + "|"
    + ToStr(st.holtBeta, pr) + "|" + (if Truthy(st.holtBootstrap) then "b" else "n") + "|"
    + ToStr(st.holtBootstrapSamples, pr) + "|" + (if Truthy(st.holtBootstrapAsync) then "a" else "s") + "|"
  }

  /** `'|' + String(period) + ':' + String(value)` per row. */
  function RowText(period: JsValue, value: JsValue, pr: Printer): string {
    "|" + ToStr(period, pr) + ":" + ToStr(value, pr)
  }

  /** A monthly-series row contributes its `period` and `total`. */
  function SeriesRowText(ms: JsObject, pr: Printer): string {
    RowText(Field(ms, "period"), Field(ms, "total"), pr)
  }

  /** A record contributes `r.period || r.date || ''` and `r.total || r.MRR || ''`. */
  function RecordText(r: JsObject, pr: Printer): string {
    RowText(Or(Or(Field(r, "period"), Field(r, "date")), JStr("")),
            Or(Or(Field(r, "total"), Field(r, "MRR")), JStr("")), pr)
  }

  /** The texts of the rows, one chunk per row. */
  function SeriesChunks(rows: seq<JsObject>, pr: Printer): (cs: seq<string>)
    ensures |cs| == |rows| && forall i :: 0 <= i < |rows| ==> cs[i] == SeriesRowText(rows[i], pr)
  {
    seq(|rows|, i requires 0 <= i < |rows| => SeriesRowText(rows[i], pr))
  }

  function RecordChunks(rows: seq<JsObject>, pr: Printer): (cs: seq<string>)
    ensures |cs| == |rows| && forall i :: 0 <= i < |rows| ==> cs[i] == RecordText(rows[i], pr)
  {
    seq(|rows|, i requires 0 <= i < |rows| => RecordText(rows[i], pr))
  }

  /** The chunks one after the other. */
  function Concat(cs: seq<string>): string {
    if cs == [] then "" else Concat(cs[..|cs| - 1]) + cs[|cs| - 1]
  }

  /**
   * Everything the key hashes, in order: the settings; then the monthly series (its length,
   * then its rows) when it is non-empty, else the records likewise, else `0`. A count prints
   * as its decimal digits.
   */
  function KeyText(st: Settings, series: seq<JsObject>, records: seq<JsObject>, pr: Printer): string {
    SettingsText(st, pr) + RowsText(series, records, pr)
  }

  /** What follows the settings. */
  function RowsText(series: seq<JsObject>, records: seq<JsObject>, pr: Printer): string {
    if series != [] then NatToString(|series|) + Concat(SeriesChunks(series, pr))
    else if records != [] then NatToString(|records|) + Concat(RecordChunks(records, pr))
    else "0"
  }

  /** The key of the whole input: the digest of the hash of `KeyText`. */
  function Key(st: Settings, series: seq<JsObject>, records: seq<JsObject>, pr: Printer): string {
    Digest(Update(OffsetBasis, Utf16(KeyText(st, series, records, pr))))
  }

  /**
   * The effect's streaming computation of `inputKey`. The settings are fed as one chunk here,
   * where the effect feeds each setting and each `|` separately; by the streaming law the
   * state is the same.
   */
  method InputKey(st: Settings, series: seq<JsObject>, records: seq<JsObject>, pr: Printer) returns (key: string)
    ensures key == Key(st, series, records, pr)
  {
    var settings := SettingsText(st, pr);
    assert "" + settings == settings;
    var h := Feed(OffsetBasis, "", settings);
    h := FeedData(h, settings, series, records, pr);
    key := Digest(h);
  }

  /** The rows of the monthly series if there are any, else of the records, else `0`. */
  method FeedData(h0: U32, ghost before: string, series: seq<JsObject>, records: seq<JsObject>, pr: Printer)
    returns (h: U32)
    requires h0 == Update(OffsetBasis, Utf16(before))
    ensures h == Update(OffsetBasis, Utf16(before + RowsText(series, records, pr)))
  {
    if series != [] {
      h := FeedCounted(h0, before, |series|, SeriesChunks(series, pr));
    } else if records != [] {
      h := FeedCounted(h0, before, |records|, RecordChunks(records, pr));
    } else {
      h := Feed(h0, before, "0");
    }
  }

  /** The row count, then the rows. */
  method FeedCounted(h0: U32, ghost before: string, n: nat, chunks: seq<string>) returns (h: U32)
    requires h0 == Update(OffsetBasis, Utf16(before))
    ensures h == Update(OffsetBasis, Utf16(before + (NatToString(n) + Concat(chunks))))
  {
    h := Feed(h0, before, NatToString(n));
    h := FeedRows(h, before + NatToString(n), chunks);
    AppendAssoc(before, NatToString(n), Concat(chunks));
  }

  /** The loop over the rows: each row's chunk is fed in turn. */
  method FeedRows(h0: U32, ghost before: string, chunks: seq<string>) returns (h: U32)
    requires h0 == Update(OffsetBasis, Utf16(before))
    ensures h == Update(OffsetBasis, Utf16(before + Concat(chunks)))
  {
    h := h0;
    ghost var done := before;
    assert chunks[..0] == [];
    assert done == before + Concat(chunks[..0]);
    for i := 0 to |chunks|
      invariant done == before + Concat(chunks[..i])
      invariant h == Update(OffsetBasis, Utf16(done))
    {
      var chunk := chunks[i];
      h := Feed(h, done, chunk);
      assert chunks[..i + 1][..i] == chunks[..i];
      assert Concat(chunks[..i + 1]) == Concat(chunks[..i]) + chunk;
      done := done + chunk;
    }
    assert chunks[..|chunks|] == chunks;
  }

  /** One `fnv1aUpdate` call on a state that has already hashed `before`. */
  method Feed(h: U32, ghost before: string, chunk: string) returns (r: U32)
    requires h == Update(OffsetBasis, Utf16(before))
    ensures r == Update(OffsetBasis, Utf16(before + chunk))
  {
    r := FnvUpdate(h, chunk);
    Streaming(OffsetBasis, Utf16(before), Utf16(chunk));
    Utf16Append(before, chunk);
  }

  /**
   * `prevForecastInputKeyRef`: the last key a forecast ran for (`None` is the initial `null`).
   */
  class KeyCache {
    var prev: Option<string>

    constructor()
      ensures prev == None
    {
      prev := None;
    }

    /** The skip-if-unchanged check: skip when the key equals the stored one, else store it. */
    method ShouldSkip(key: string) returns (skip: bool)
      modifies this
      ensures skip <==> old(prev) == Some(key)
      ensures prev == Some(key)
    {
      skip := prev == Some(key);
      if !skip {
        prev := Some(key);
      }
    }
  }

  // ---------------------------------------------------------------------------------------
  // Properties
  // ---------------------------------------------------------------------------------------

  /** The streaming law: hashing `s` and then `t` equals hashing `s + t`. */
  lemma {:induction false} Streaming(h: U32, s: seq<CodeUnit>, t: seq<CodeUnit>)
    ensures Update(Update(h, s), t) == Update(h, s + t)
  {
    if t == [] {
      assert s + t == s;
    } else {
      Streaming(h, s, t[..|t| - 1]);
      assert (s + t)[..|s + t| - 1] == s + t[..|t| - 1];
      assert (s + t)[|s + t| - 1] == t[|t| - 1];
    }
  }

  /** The digest reads back to the hash: unpadded lowercase hex of at most 8 digits, one per hash. */
  lemma DigestFacts(h: U32, h': U32)
    ensures |Digest(h)| <= 8
    ensures Digest(h) == Digest(h') ==> h == h'
  {
    assert Pow16(8) == 0x1_0000_0000;
    NatToHexLength(h, 8);
    if Digest(h) == Digest(h') {
      NatToHexInjective(h, h');
    }
  }

  /** A non-empty monthly series takes precedence: the records do not affect the key. */
  lemma SeriesFirst(st: Settings, series: seq<JsObject>, records: seq<JsObject>, records': seq<JsObject>, pr: Printer)
    requires series != []
    ensures Key(st, series, records, pr) == Key(st, series, records', pr)
  {
  }

  /** FNV-1a over octets, the reference the draft defines. */
  function Fnv1a(h: U32, bytes: seq<Byte>): U32 {
    if bytes == [] then h else (Xor(Fnv1a(h, bytes[..|bytes| - 1]), bytes[|bytes| - 1]) * 16777619) % 0x1_0000_0000
  }

  type Byte = x: int | 0 <= x < 256

  /** A string whose characters are all ASCII, as octets. */
  function AsciiBytes(s: string): (b: seq<Byte>)
    requires forall i :: 0 <= i < |s| ==> s[i] < 128 as char
    ensures |b| == |s| && forall i :: 0 <= i < |s| ==> b[i] == s[i] as int
  {
    if s == [] then [] else AsciiBytes(s[..|s| - 1]) + [s[|s| - 1] as int]
  }

  /** On ASCII text the hash is exactly 32-bit FNV-1a over the text's octets. */
  lemma AsciiIsFnv1a(h: U32, s: string)
    requires forall i :: 0 <= i < |s| ==> s[i] < 128 as char
    ensures Update(h, Utf16(s)) == Fnv1a(h, AsciiBytes(s))
  {
    Utf16Bmp(s);
    UnitsAsBytes(h, Utf16(s), AsciiBytes(s));
  }

  /** Code units that are all octets hash as FNV-1a over those octets. */
  lemma {:induction false} UnitsAsBytes(h: U32, u: seq<CodeUnit>, b: seq<Byte>)
    requires |u| == |b| && forall i :: 0 <= i < |u| ==> u[i] == b[i]
    ensures Update(h, u) == Fnv1a(h, b)
  {
    if u != [] {
      UnitsAsBytes(h, u[..|u| - 1], b[..|b| - 1]);
    }
  }

  /**
   * A character above U+FFFF is hashed as its two surrogates, high then low: U+1F600 takes
   * two steps, with D83D and then DE00.
   */
  lemma SurrogatesHashed(h: U32, before: string)
    ensures Update(h, Utf16(before + "\U{1F600}")) == Step(Step(Update(h, Utf16(before)), 0xD83D), 0xDE00)
  {
    Utf16Append(before, "\U{1F600}");
    SurrogatePair();
    var u := Utf16(before);
    Streaming(h, u, [0xD83D, 0xDE00]);
    assert [0xD83D, 0xDE00][..1] == [0xD83D];
    assert [0xD83D][..0] == [];
  }

  /** The empty input hashes to the offset basis, printed `811c9dc5`. */
  lemma EmptyDigest()
    ensures Digest(Update(OffsetBasis, Utf16(""))) == "811c9dc5"
  {
    assert NatToHex(0x8) == "8";
    assert NatToHex(0x81) == "81";
    assert NatToHex(0x811) == "811";
    assert NatToHex(0x811c) == "811c";
    assert NatToHex(0x811c9) == "811c9";
    assert NatToHex(0x811c9d) == "811c9d";
    assert NatToHex(0x811c9dc) == "811c9dc";
    assert NatToHex(0x811c9dc5) == "811c9dc5";
  }
}
