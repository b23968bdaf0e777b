/**
 * MRR/ARR totals and the top customers by summed MRR, over record dictionaries such as the
 * normalizer and the insights service produce.
 */
module Arr {
  import opened Common
  import opened Py
  import opened Dict

  /** A record: a dictionary from field name to value (`customer_id`, `mrr`, ...). */
  type Record = seq<(string, PyValue)>

  /** `r.get(k)`: `None` for an absent key. */
  function Field(r: Record, k: string): PyValue {
    Get(r, k).GetOr(PNone)
  }

  /** `float(r.get('mrr') or 0)`; `None` when the conversion raises. */
  function MrrOf(r: Record): Option<real> {
    FloatOr0(Field(r, "mrr"))
  }

  /** What one record adds to a total: its mrr, or nothing when the conversion raises. */
  function Contribution(r: Record): real {
    MrrOf(r).GetOr(0.0)
  }

  /** The accumulated `total_mrr`, as a fold over the records in order. */
  function TotalMrr(rs: seq<Record>): real {
    if rs == [] then 0.0 else TotalMrr(rs[..|rs| - 1]) + Contribution(rs[|rs| - 1])
  }

  /** The `{'MRR': ..., 'ARR': ...}` result. */
  datatype Kpis = Kpis(mrr: real, arr: real)

  /** `compute_mrr_and_arr(records)`. */
  method ComputeMrrAndArr(records: seq<Record>) returns (k: Kpis)
    ensures k.mrr == TotalMrr(records)
    ensures k.arr == 12.0 * k.mrr
  {
    var total := 0.0;
    for i := 0 to |records|
      invariant total == TotalMrr(records[..i])
    {
      assert records[..i + 1][..i] == records[..i];
      match MrrOf(records[i]) {
        case Some(m) => total := total + m;
        case None =>
      }
    }
    assert records[..|records|] == records;
    k := Kpis(total, total * 12.0);
  }

  /** The total of a concatenation is the sum of the totals; so no record is ever fatal. */
  lemma {:induction false} TotalMrrAppend(a: seq<Record>, b: seq<Record>)
    ensures TotalMrr(a + b) == TotalMrr(a) + TotalMrr(b)
  {
    if b == [] {
      assert a + b == a;
    } else {
      var b' := b[..|b| - 1];
      assert (a + b)[..|a + b| - 1] == a + b';
      TotalMrrAppend(a, b');
    }
  }

  /** A record whose mrr does not convert leaves the total unchanged; a falsy mrr counts as 0. */
  lemma {:induction false} TotalMrrSkips(rs: seq<Record>, r: Record)
    ensures MrrOf(r).None? ==> TotalMrr(rs + [r]) == TotalMrr(rs)
    ensures !Truthy(Field(r, "mrr")) ==> TotalMrr(rs + [r]) == TotalMrr(rs)
    ensures MrrOf(r).Some? ==> TotalMrr(rs + [r]) == TotalMrr(rs) + MrrOf(r).value
  {
    assert (rs + [r])[..|rs + [r]| - 1] == rs;
  }

  /** Non-negative amounts give a non-negative total. */
  lemma {:induction false} TotalMrrNonNegative(rs: seq<Record>)
    requires forall i :: 0 <= i < |rs| ==> Contribution(rs[i]) >= 0.0
    ensures TotalMrr(rs) >= 0.0
  {
    if rs != [] {
      TotalMrrNonNegative(rs[..|rs| - 1]);
    }
  }

  // ---------------------------------------------------------------------------------------
  // Top customers
  // ---------------------------------------------------------------------------------------

  /**
   * `r.get('customer_id') or r.get('id') or r.get('name') or 'unknown'`, then `str`;
   * `floatRepr` is Python's `repr` of a float.
   */
  function KeyOf(r: Record, floatRepr: real -> string): string {
    Str(Or(Field(r, "customer_id"), Or(Field(r, "id"), Or(Field(r, "name"), PStr("unknown")))), floatRepr)
  }

  /** The precedence chain: the first truthy of `customer_id`, `id`, `name`, else `'unknown'`. */
  lemma KeyOfPrecedence(r: Record, floatRepr: real -> string)
    ensures Truthy(Field(r, "customer_id")) ==> KeyOf(r, floatRepr) == Str(Field(r, "customer_id"), floatRepr)
    ensures !Truthy(Field(r, "customer_id")) && Truthy(Field(r, "id")) ==>
      KeyOf(r, floatRepr) == Str(Field(r, "id"), floatRepr)
    ensures !Truthy(Field(r, "customer_id")) && !Truthy(Field(r, "id")) && Truthy(Field(r, "name")) ==>
      KeyOf(r, floatRepr) == Str(Field(r, "name"), floatRepr)
    ensures !Truthy(Field(r, "customer_id")) && !Truthy(Field(r, "id")) && !Truthy(Field(r, "name")) ==>
      KeyOf(r, floatRepr) == "unknown"
  {
  }

  /** Each record's `(key, amount)` pair, in record order. */
  function Entries(rs: seq<Record>, floatRepr: real -> string): (es: seq<(string, real)>)
    ensures |es| == |rs|
  {
    seq(|rs|, i requires 0 <= i < |rs| => (KeyOf(rs[i], floatRepr), Contribution(rs[i])))
  }

  /** The `by_id` defaultdict after the loop: key to summed mrr, keys in first-seen order. */
  function ById(rs: seq<Record>, floatRepr: real -> string): seq<(string, real)> {
    GroupSum(Entries(rs, floatRepr))
  }

  /** What `top_customers_by_mrr(records, limit)` returns. */
  function Top(rs: seq<Record>, limit: int, floatRepr: real -> string): seq<(string, real)> {
    SliceTo(SortDesc(ById(rs, floatRepr), Snd), limit)
  }

  /** `top_customers_by_mrr(records, limit)`. */
  method TopCustomersByMrr(records: seq<Record>, limit: int, floatRepr: real -> string)
    returns (out: seq<(string, real)>)
    ensures out == Top(records, limit, floatRepr)
  {
    ghost var es := Entries(records, floatRepr);
    var byId: seq<(string, real)> := [];
    for i := 0 to |records|
      invariant byId == GroupSum(es[..i])
    {
      assert es[..i + 1][..i] == es[..i];
      var k := KeyOf(records[i], floatRepr);
      // The defaultdict lookup inserts 0.0 before `float` is attempted.
      byId := DefaultdictIncrement(byId, k, MrrOf(records[i]));
      assert es[i] == (k, Contribution(records[i]));
    }
    assert es[..|records|] == es;
    out := SliceTo(SortDesc(byId, Snd), limit);
  }

  /** The keys of `by_id` are the records' keys, each once, and each holds its records' sum. */
  lemma ByIdKeys(rs: seq<Record>, floatRepr: real -> string, k: string)
    ensures k in Keys(ById(rs, floatRepr)) <==> exists i :: 0 <= i < |rs| && KeyOf(rs[i], floatRepr) == k
    ensures Distinct(Keys(ById(rs, floatRepr)))
    ensures |ById(rs, floatRepr)| <= |rs|
    ensures Running(ById(rs, floatRepr), k) == KeySum(Entries(rs, floatRepr), k)
  {
    var es := Entries(rs, floatRepr);
    GroupSumKeys(es, k);
    GroupSumValue(es, k);
    if exists i :: 0 <= i < |es| && es[i].0 == k {
      var i :| 0 <= i < |es| && es[i].0 == k;
      assert KeyOf(rs[i], floatRepr) == k;
    }
    if exists i :: 0 <= i < |rs| && KeyOf(rs[i], floatRepr) == k {
      var i :| 0 <= i < |rs| && KeyOf(rs[i], floatRepr) == k;
      assert es[i].0 == k;
    }
  }

  lemma {:induction false} EntriesTotal(rs: seq<Record>, floatRepr: real -> string)
    ensures AmountSum(Entries(rs, floatRepr)) == TotalMrr(rs)
  {
    if rs != [] {
      var p := rs[..|rs| - 1];
      assert Entries(rs, floatRepr)[..|rs| - 1] == Entries(p, floatRepr);
      EntriesTotal(p, floatRepr);
    }
  }

  /** The per-key sums add up to `compute_mrr_and_arr`'s MRR. */
  lemma ByIdTotal(rs: seq<Record>, floatRepr: real -> string)
    ensures SumBy(ById(rs, floatRepr), Snd) == TotalMrr(rs)
  {
    SumBySnd(ById(rs, floatRepr));
    GroupSumTotal(Entries(rs, floatRepr));
    EntriesTotal(rs, floatRepr);
  }

  /**
   * The top list is sorted by summed mrr, largest first; customers with equal sums keep their
   * first-seen order; it has at most `limit` entries and at most one per distinct key, each
   * a key of the records paired with that key's sum.
   */
  lemma TopFacts(rs: seq<Record>, limit: int, floatRepr: real -> string)
    ensures SortedDesc(Top(rs, limit, floatRepr), Snd)
    ensures 0 <= limit ==> |Top(rs, limit, floatRepr)| <= limit
    ensures |Top(rs, limit, floatRepr)| <= |ById(rs, floatRepr)|
    ensures Top(rs, limit, floatRepr) == SortDesc(ById(rs, floatRepr), Snd)[..|Top(rs, limit, floatRepr)|]
    ensures forall v :: WithKey(SortDesc(ById(rs, floatRepr), Snd), Snd, v) == WithKey(ById(rs, floatRepr), Snd, v)
    ensures forall e :: e in Top(rs, limit, floatRepr) ==>
      (exists i :: 0 <= i < |rs| && KeyOf(rs[i], floatRepr) == e.0) && e.1 == KeySum(Entries(rs, floatRepr), e.0)
  {
    var d := ById(rs, floatRepr);
    var full := SortDesc(d, Snd);
    var t := Top(rs, limit, floatRepr);
    SortDescFacts(d, Snd);
    forall e | e in t
      ensures (exists i :: 0 <= i < |rs| && KeyOf(rs[i], floatRepr) == e.0) && e.1 == KeySum(Entries(rs, floatRepr), e.0)
    {
      assert e in full;
      assert e in multiset(full);
      assert e in d;
      GroupSumEntry(Entries(rs, floatRepr), e);
      ByIdKeys(rs, floatRepr, e.0);
    }
  }

  /** With room for every customer, the top list's sums add up to the MRR total. */
  lemma TopCoversTotal(rs: seq<Record>, limit: int, floatRepr: real -> string)
    requires limit >= |ById(rs, floatRepr)|
    ensures SumBy(Top(rs, limit, floatRepr), Snd) == TotalMrr(rs)
  {
    var full := SortDesc(ById(rs, floatRepr), Snd);
    assert Top(rs, limit, floatRepr) == full;
    SumBySortDesc(ById(rs, floatRepr), Snd);
    ByIdTotal(rs, floatRepr);
  }
}
