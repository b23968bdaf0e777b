/** Small value types shared by every module of the model. */
module Common {

  /** Python's `None` / JavaScript's `null` next to a present value. */
  datatype Option<+T> = None | Some(value: T) {
    function GetOr(default: T): T {
      match this
      case Some(v) => v
      case None => default
    }
  }

  /** A calendar date as Python's `datetime.date` and JavaScript's local date fields give it. */
  datatype Date = Date(year: int, month: int, day: int)

  /** `d1 <= d2` on dates: year, then month, then day. */
  predicate DateLe(d1: Date, d2: Date) {
    d1.year < d2.year
    || (d1.year == d2.year && d1.month < d2.month)
    || (d1.year == d2.year && d1.month == d2.month && d1.day <= d2.day)
  }

  function Min(a: real, b: real): real { if a <= b then a else b }

  function Max(a: real, b: real): real { if a >= b then a else b }

  /** `Math.max(lo, Math.min(hi, x))`. */
  function Clamp(lo: real, hi: real, x: real): real { Max(lo, Min(hi, x)) }

  function MaxInt(a: int, b: int): int { if a >= b then a else b }

  function MinInt(a: int, b: int): int { if a <= b then a else b }

  /** Python's `s[:n]` and JavaScript's `s.slice(0, n)`: a negative `n` counts from the end. */
  function SliceTo<T>(s: seq<T>, n: int): (r: seq<T>)
    ensures |r| <= |s|
    ensures 0 <= n ==> |r| == MinInt(n, |s|)
    ensures n < 0 ==> |r| == MaxInt(0, |s| + n)
    ensures r == s[..|r|]
  {
    if n >= 0 then (if n <= |s| then s[..n] else s)
    else if |s| + n >= 0 then s[..|s| + n]
    else []
  }

  /** Multiplying by a non-negative factor keeps the order. */
  lemma MulMonotone(a: real, b: real, k: real)
    requires a <= b && k >= 0.0
    ensures a * k <= b * k
  {
    MulNonNegative(b - a, k);
    assert b * k - a * k == (b - a) * k;
  }

  lemma MulNonNegative(x: real, k: real)
    requires x >= 0.0 && k >= 0.0
    ensures x * k >= 0.0
  {
  }

  /** Concatenation regrouped, which the solver otherwise shows element by element. */
  lemma AppendAssoc<T>(a: seq<T>, b: seq<T>, c: seq<T>)
    ensures a + b + c == a + (b + c)
  {
  }

  /** A prefix followed by the next slice is the longer prefix. */
  lemma PrefixSlice<T>(s: seq<T>, i: nat, j: nat)
    requires i <= j <= |s|
    ensures s[..i] + s[i..j] == s[..j]
  {
  }
}
