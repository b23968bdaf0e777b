/**
 * `bytes.decode('utf-8', errors='ignore')`: well-formed UTF-8 (Table 3-7 of the Unicode
 * Standard, section 3.9) decodes to its scalar values, and each maximal ill-formed subpart
 * is dropped, decoding resuming at the first byte that broke the sequence.
 */
module Utf8 {
  import opened Common
  import opened Storage

  predicate IsContinuation(b: byte) { 0x80 <= b <= 0xBF }

  /** A lead byte's sequence length and the range its second byte must fall in; length 0 for a byte that cannot start a sequence. */
  datatype LeadInfo = LeadInfo(len: nat, lo: byte, hi: byte)

  function Lead(b: byte): (l: LeadInfo)
    ensures l.len == 0 || 2 <= l.len <= 4
    ensures l.len == 0 <==> b < 0xC2 || 0xF5 <= b
  {
    if 0xC2 <= b <= 0xDF then LeadInfo(2, 0x80, 0xBF)
    else if b == 0xE0 then LeadInfo(3, 0xA0, 0xBF)
    else if b == 0xED then LeadInfo(3, 0x80, 0x9F)
    else if 0xE1 <= b <= 0xEF then LeadInfo(3, 0x80, 0xBF)
    else if b == 0xF0 then LeadInfo(4, 0x90, 0xBF)
    else if 0xF1 <= b <= 0xF3 then LeadInfo(4, 0x80, 0xBF)
    else if b == 0xF4 then LeadInfo(4, 0x80, 0x8F)
    else LeadInfo(0, 0, 0)
  }

  /** How many bytes after the lead continue the sequence correctly (at most `len - 1`). */
  function ValidTail(bs: seq<byte>, l: LeadInfo): (k: nat)
    requires |bs| >= 1 && l.len >= 2
    ensures k < l.len && k < |bs|
  {
    if |bs| < 2 || !(l.lo <= bs[1] <= l.hi) then 0
    else if l.len == 2 || |bs| < 3 || !IsContinuation(bs[2]) then 1
    else if l.len == 3 || |bs| < 4 || !IsContinuation(bs[3]) then 2
    else 3
  }

  /** The scalar value of a complete 2-, 3- or 4-byte sequence. */
  function CodePoint(bs: seq<byte>, len: nat): int
    requires 2 <= len <= 4 && |bs| >= len
  {
    var b0, b1 := bs[0] as int, bs[1] as int;
    if len == 2 then (b0 - 0xC0) * 64 + (b1 - 0x80)
    else
      var b2 := bs[2] as int;
      if len == 3 then (b0 - 0xE0) * 4096 + (b1 - 0x80) * 64 + (b2 - 0x80)
      else (b0 - 0xF0) * 262144 + (b1 - 0x80) * 4096 + (b2 - 0x80) * 64 + (bs[3] as int - 0x80)
  }

  predicate IsScalar(cp: int) { 0 <= cp < 0xD800 || 0xE000 <= cp < 0x11_0000 }

  /** The first unit of `bs`: how many bytes it spans and the character it decodes to, if any. */
  datatype Unit = Unit(size: nat, ch: Option<char>)

  function FirstUnit(bs: seq<byte>): (u: Unit)
    requires |bs| >= 1
    ensures 1 <= u.size <= |bs| && u.size <= 4
  {
    var b := bs[0];
    if b < 0x80 then Unit(1, Some(b as char))
    else
      var l := Lead(b);
      if l.len == 0 then Unit(1, None)
      else
        var k := ValidTail(bs, l);
        if k + 1 < l.len then Unit(k + 1, None)
        else
          var cp := CodePoint(bs, l.len);
          LeadRange(bs, l);
          Unit(l.len, Some(cp as char))
  }

  lemma LeadRange(bs: seq<byte>, l: LeadInfo)
    requires |bs| >= 1 && l == Lead(bs[0]) && l.len >= 2 && ValidTail(bs, l) + 1 == l.len
    ensures IsScalar(CodePoint(bs, l.len))
  {
  }

  /** `bytes.decode('utf-8', errors='ignore')`. */
  function DecodeIgnore(bs: seq<byte>): (s: string)
    ensures |s| <= |bs|
    decreases |bs|
  {
    if bs == [] then ""
    else
      var u := FirstUnit(bs);
      var rest := DecodeIgnore(bs[u.size..]);
      if u.ch.Some? then [u.ch.value] + rest else rest
  }

  /** The UTF-8 encoding of one character. */
  function EncodeChar(c: char): (r: seq<byte>)
    ensures 1 <= |r| <= 4
  {
    var cp := c as int;
    if cp < 0x80 then [cp as byte]
    else if cp < 0x800 then [(0xC0 + cp / 64) as byte, (0x80 + cp % 64) as byte]
    else if cp < 0x1_0000 then [(0xE0 + cp / 4096) as byte, (0x80 + cp / 64 % 64) as byte, (0x80 + cp % 64) as byte]
    else [(0xF0 + cp / 262144) as byte, (0x80 + cp / 4096 % 64) as byte, (0x80 + cp / 64 % 64) as byte, (0x80 + cp % 64) as byte]
  }

  /** `str.encode('utf-8')`. */
  function Encode(s: string): (r: seq<byte>)
    ensures |s| <= |r| <= 4 * |s|
  {
    if s == "" then [] else EncodeChar(s[0]) + Encode(s[1..])
  }

  /** Decoding reads an encoded character back in one unit, whatever follows it. */
  lemma FirstUnitEncodeChar(c: char, rest: seq<byte>)
    ensures FirstUnit(EncodeChar(c) + rest) == Unit(|EncodeChar(c)|, Some(c))
  {
    var e := EncodeChar(c);
    var bs := e + rest;
    var cp := c as int;
    if cp < 0x80 {
    } else if cp < 0x800 {
      TwoBytes(cp, bs);
    } else if cp < 0x1_0000 {
      ThreeBytes(cp, bs);
    } else {
      FourBytes(cp, bs);
    }
  }

  lemma TwoBytes(cp: int, bs: seq<byte>)
    requires 0x80 <= cp < 0x800 && |bs| >= 2
    requires bs[0] as int == 0xC0 + cp / 64 && bs[1] as int == 0x80 + cp % 64
    ensures Lead(bs[0]).len == 2 && ValidTail(bs, Lead(bs[0])) == 1 && CodePoint(bs, 2) == cp
  {
  }

  lemma ThreeBytes(cp: int, bs: seq<byte>)
    requires 0x800 <= cp < 0x1_0000 && IsScalar(cp) && |bs| >= 3
    requires bs[0] as int == 0xE0 + cp / 4096 && bs[1] as int == 0x80 + cp / 64 % 64 && bs[2] as int == 0x80 + cp % 64
    ensures Lead(bs[0]).len == 3 && ValidTail(bs, Lead(bs[0])) == 2 && CodePoint(bs, 3) == cp
  {
    assert cp == cp / 4096 * 4096 + cp / 64 % 64 * 64 + cp % 64;
  }

  lemma FourBytes(cp: int, bs: seq<byte>)
    requires 0x1_0000 <= cp < 0x11_0000 && |bs| >= 4
    requires bs[0] as int == 0xF0 + cp / 262144 && bs[1] as int == 0x80 + cp / 4096 % 64
    requires bs[2] as int == 0x80 + cp / 64 % 64 && bs[3] as int == 0x80 + cp % 64
    ensures Lead(bs[0]).len == 4 && ValidTail(bs, Lead(bs[0])) == 3 && CodePoint(bs, 4) == cp
  {
    // Peel off one base-64 digit at a time, so that each step is linear.
    var a := cp / 64;
    var b := a / 64;
    var d0 := b / 64;
    assert cp == a * 64 + cp % 64;
    assert a == b * 64 + a % 64;
    assert b == d0 * 64 + b % 64;
    assert cp / 4096 == b;
    assert cp / 262144 == d0;
    assert cp == d0 * 262144 + b % 64 * 4096 + a % 64 * 64 + cp % 64;
    assert d0 <= 4;
    assert d0 == 0 ==> b % 64 >= 16;
    assert d0 == 4 ==> b % 64 < 16;
  }

  /** Decoding undoes encoding: text that was valid UTF-8 loses nothing to `errors='ignore'`. */
  lemma {:induction false} DecodeEncode(s: string)
    ensures DecodeIgnore(Encode(s)) == s
  {
    if s != "" {
      var e := EncodeChar(s[0]);
      var rest := Encode(s[1..]);
      FirstUnitEncodeChar(s[0], rest);
      assert (e + rest)[|e|..] == rest;
      DecodeEncode(s[1..]);
    }
  }

  /** A byte that cannot start a sequence is dropped on its own. */
  lemma DecodeDropsStray(b: byte, rest: seq<byte>)
    requires 0x80 <= b < 0xC2 || 0xF5 <= b
    ensures DecodeIgnore([b] + rest) == DecodeIgnore(rest)
  {
    assert ([b] + rest)[1..] == rest;
  }

  /** Bytes below 0x80 decode one to one. */
  lemma {:induction false} DecodeAscii(bs: seq<byte>)
    requires forall i :: 0 <= i < |bs| ==> bs[i] < 0x80
    ensures |DecodeIgnore(bs)| == |bs|
    ensures forall i :: 0 <= i < |bs| ==> DecodeIgnore(bs)[i] == bs[i] as char
  {
    if bs != [] {
      DecodeAscii(bs[1..]);
    }
  }
}
