/**
 * The application shell's state transforms: the risk-scored, risk-sorted customer list, the
 * toast list, marking a customer as contacted, the overview aggregates, the churn-heuristic
 * toggle that writes estimated churn into the customers and takes it back out, and the
 * shell's own MRR-retention simulation.
 */
module App {
  import opened Common
  import opened Text
  import opened Js
  import Dict
  import Lists
  import AppShared
  import Churn
  import Analytics
  import WhatIf

  type Customer = JsObject

  /** `o[key]` after `{...o, [k]: v}`. */
  lemma FieldPut(o: JsObject, k: string, v: JsValue, key: string)
    ensures Field(Dict.Put(o, k, v), key) == if key == k then v else Field(o, key)
  {
    Dict.GetPut(o, k, v, key);
  }

  /** `o[key]` after `delete o[k]`. */
  lemma FieldDelete(o: JsObject, k: string, key: string)
    ensures Field(Dict.Delete(o, k), key) == if key == k then JUndefined else Field(o, key)
  {
    Dict.GetDelete(o, k, key);
  }

  // ---------------------------------------------------------------------------------------
  // Risk levels and the enhanced customers
  // ---------------------------------------------------------------------------------------

  /** `riskScore >= 70 ? 'High' : riskScore >= 40 ? 'Medium' : 'Low'`. */
  function RiskLevel(score: real): (level: string)
    ensures level == "High" <==> score >= 70.0
    ensures level == "Medium" <==> 40.0 <= score < 70.0
    ensures level == "Low" <==> score < 40.0
  {
    if score >= 70.0 then "High" else if score >= 40.0 then "Medium" else "Low"
  }

  /** The levels in their order of severity. */
  function Severity(level: string): nat {
    if level == "High" then 2 else if level == "Medium" then 1 else 0
  }

  /**
   * Whether the enhanced list estimates a customer's churn: the heuristic is on and the churn
   * was not supplied, or is missing, or is zero.
   */
  predicate NeedsEstimate(c: Customer) {
    var p := Field(c, "churnProbability");
    !Truthy(Field(c, "_churnProvided")) || !Truthy(p) || ToNumber(p) == Some(0.0)
  }

  /** A JavaScript array, as the model's plain object with the index keys `"0"`, `"1"`, … */
  function ArrayValue(items: seq<JsValue>): JsValue {
    JObject(seq(|items|, i requires 0 <= i < |items| => (NatToString(i), items[i])))
  }

  /** One `{ key, label, value }` contribution. */
  function ContributionValue(c: Churn.Contribution): JsValue {
    JObject([("key", JStr(c.key)), ("label", JStr(c.title)), ("value", JNum(c.value))])
  }

  /** `res.mainDriver.label || res.mainDriver.key`. */
  function DriverOf(res: Churn.Detailed): JsValue {
    Or(JStr(res.mainDriver.title), JStr(res.mainDriver.key))
  }

  /** `Math.max(0, Math.min(1, Number(res.estimate) || 0))`. */
  function EstimateValue(res: Churn.Detailed): JsValue {
    JNum(Clamp(0.0, 1.0, res.estimate))
  }

  /** The estimator's churn, driver and contributions written into a row. */
  function WithEstimate(base: Customer, res: Churn.Detailed): Customer {
    var contributions := ArrayValue(Lists.Map(res.contributions, ContributionValue));
    Dict.Put(Dict.Put(Dict.Put(base, "churnProbability", EstimateValue(res)), "_churnDriver", DriverOf(res)),
             "_churnContributions", contributions)
  }

  /** One row of `enhancedCustomers`: the customer with its score, level and churn provenance. */
  function Enhance(c: Customer, on: bool, wa: Churn.WeightArgs, pr: Printer): Customer {
    var score := AppShared.RiskScore(c, pr);
    var base := Dict.Put(Dict.Put(c, "riskScore", JNum(score)), "riskLevel", JStr(RiskLevel(score)));
    var compute := on && NeedsEstimate(c);
    var withChurn := if compute then WithEstimate(base, Churn.EstimateDetailed(c, wa)) else base;
    Dict.Put(Dict.Put(withChurn, "_churnProvided", JBool(Truthy(Field(c, "_churnProvided")))),
             "_churnComputed", JBool(compute))
  }

  /** `b.riskScore - a.riskScore` compares by this key. */
  function ScoreOf(row: Customer): real {
    NumberOr0(Field(row, "riskScore"))
  }

  /** `customers.map(...).sort((a, b) => b.riskScore - a.riskScore)`. */
  function EnhancedCustomers(cs: seq<Customer>, on: bool, wa: Churn.WeightArgs, pr: Printer): seq<Customer> {
    Dict.SortDesc(Lists.Map(cs, c => Enhance(c, on, wa, pr)), ScoreOf)
  }

  /** Every enhanced row carries its customer's score, in [0, 100], and the matching level. */
  lemma EnhanceFields(c: Customer, on: bool, wa: Churn.WeightArgs, pr: Printer)
    ensures var row := Enhance(c, on, wa, pr); var score := AppShared.RiskScore(c, pr);
      && Field(row, "riskScore") == JNum(score)
      && Field(row, "riskLevel") == JStr(RiskLevel(score))
      && ScoreOf(row) == score && 0.0 <= score <= 100.0
      && Field(row, "_churnComputed") == JBool(on && NeedsEstimate(c))
  {
    var score := AppShared.RiskScore(c, pr);
    var b1 := Dict.Put(c, "riskScore", JNum(score));
    var base := Dict.Put(b1, "riskLevel", JStr(RiskLevel(score)));
    var compute := on && NeedsEstimate(c);
    var withChurn := if compute then WithEstimate(base, Churn.EstimateDetailed(c, wa)) else base;
    var p1 := Dict.Put(withChurn, "_churnProvided", JBool(Truthy(Field(c, "_churnProvided"))));
    FieldPut(b1, "riskLevel", JStr(RiskLevel(score)), "riskScore");
    FieldPut(b1, "riskLevel", JStr(RiskLevel(score)), "riskLevel");
    FieldPut(c, "riskScore", JNum(score), "riskScore");
    if compute {
      WithEstimateFields(base, Churn.EstimateDetailed(c, wa), "riskScore");
      WithEstimateFields(base, Churn.EstimateDetailed(c, wa), "riskLevel");
    }
    EnhanceTail(withChurn, Truthy(Field(c, "_churnProvided")), compute, "riskScore");
    EnhanceTail(withChurn, Truthy(Field(c, "_churnProvided")), compute, "riskLevel");
    EnhanceTail(withChurn, Truthy(Field(c, "_churnProvided")), compute, "_churnComputed");
  }

  /** Writing the estimate touches only the three keys it writes. */
  lemma WithEstimateFields(base: Customer, res: Churn.Detailed, key: string)
    requires key != "churnProbability" && key != "_churnDriver" && key != "_churnContributions"
    ensures Field(WithEstimate(base, res), key) == Field(base, key)
  {
    var contributions := ArrayValue(Lists.Map(res.contributions, ContributionValue));
    var w1 := Dict.Put(base, "churnProbability", EstimateValue(res));
    var w2 := Dict.Put(w1, "_churnDriver", DriverOf(res));
    FieldPut(base, "churnProbability", EstimateValue(res), key);
    FieldPut(w1, "_churnDriver", DriverOf(res), key);
    FieldPut(w2, "_churnContributions", contributions, key);
  }

  /** The two provenance flags, written last. */
  lemma EnhanceTail(o: Customer, provided: bool, compute: bool, key: string)
    ensures var row := Dict.Put(Dict.Put(o, "_churnProvided", JBool(provided)), "_churnComputed", JBool(compute));
      Field(row, key) == if key == "_churnComputed" then JBool(compute)
                         else if key == "_churnProvided" then JBool(provided)
                         else Field(o, key)
  {
    FieldPut(o, "_churnProvided", JBool(provided), key);
    FieldPut(Dict.Put(o, "_churnProvided", JBool(provided)), "_churnComputed", JBool(compute), key);
  }

  /**
   * The enhanced list holds one row per customer, riskiest first, rows with equal scores in
   * their original order; every row's level matches its score, so the High rows come before
   * the Medium rows, and those before the Low rows.
   */
  lemma EnhancedSorted(cs: seq<Customer>, on: bool, wa: Churn.WeightArgs, pr: Printer)
    ensures var rows := Lists.Map(cs, c => Enhance(c, on, wa, pr));
      var sorted := EnhancedCustomers(cs, on, wa, pr);
      && multiset(sorted) == multiset(rows)
      && Dict.SortedDesc(sorted, ScoreOf)
      && (forall v :: Dict.WithKey(sorted, ScoreOf, v) == Dict.WithKey(rows, ScoreOf, v))
      && (forall i :: 0 <= i < |sorted| ==> Field(sorted[i], "riskLevel") == JStr(RiskLevel(ScoreOf(sorted[i]))))
      && (forall i, j :: 0 <= i < j < |sorted| ==>
            Severity(RiskLevel(ScoreOf(sorted[i]))) >= Severity(RiskLevel(ScoreOf(sorted[j]))))
  {
    var rows := Lists.Map(cs, c => Enhance(c, on, wa, pr));
    var sorted := EnhancedCustomers(cs, on, wa, pr);
    Dict.SortDescFacts(rows, ScoreOf);
    forall i | 0 <= i < |sorted| ensures Field(sorted[i], "riskLevel") == JStr(RiskLevel(ScoreOf(sorted[i]))) {
      var c := RowSource(cs, on, wa, pr, sorted, i);
      EnhanceFields(c, on, wa, pr);
    }
    forall i, j | 0 <= i < j < |sorted|
      ensures Severity(RiskLevel(ScoreOf(sorted[i]))) >= Severity(RiskLevel(ScoreOf(sorted[j])))
    {
      LevelMonotone(ScoreOf(sorted[j]), ScoreOf(sorted[i]));
    }
  }

  /** The customer an enhanced row was made from. */
  lemma RowSource(cs: seq<Customer>, on: bool, wa: Churn.WeightArgs, pr: Printer, sorted: seq<Customer>, i: nat)
    returns (c: Customer)
    requires multiset(sorted) == multiset(Lists.Map(cs, c0 => Enhance(c0, on, wa, pr)))
    requires i < |sorted|
    ensures c in cs && sorted[i] == Enhance(c, on, wa, pr)
  {
    var rows := Lists.Map(cs, c0 => Enhance(c0, on, wa, pr));
    assert sorted[i] in multiset(rows);
    var k :| 0 <= k < |rows| && rows[k] == sorted[i];
    c := cs[k];
  }

  /** Higher scores never get a less severe level. */
  lemma LevelMonotone(s: real, s': real)
    requires s <= s'
    ensures Severity(RiskLevel(s)) <= Severity(RiskLevel(s'))
  {
  }

  // ---------------------------------------------------------------------------------------
  // Toasts
  // ---------------------------------------------------------------------------------------

  /** `{ id, message, type, timeout }`; the id is made from the clock and `Math.random`. */
  datatype Toast = Toast(id: string, message: string, kind: string, timeout: real)

  /** At most this many toasts are kept. */
  const MaxToasts: nat := 6

  /** `[toast].concat(t).slice(0, 6)`. */
  function PushToast(ts: seq<Toast>, t: Toast): (r: seq<Toast>)
    ensures |r| == MinInt(|ts| + 1, MaxToasts)
    ensures r[0] == t
    ensures r[1..] == ts[..|r| - 1]
  {
    SliceTo([t] + ts, MaxToasts)
  }

  /** `t.filter(x => x.id !== id)`. */
  function RemoveToast(ts: seq<Toast>, id: string): seq<Toast> {
    Lists.Filter(ts, OtherId(id))
  }

  function OtherId(id: string): Toast -> bool { (x: Toast) => x.id != id }

  /** Toasts pushed one after the other, `news[0]` first. */
  function PushAll(ts: seq<Toast>, news: seq<Toast>): seq<Toast> {
    if news == [] then ts else PushToast(PushAll(ts, news[..|news| - 1]), news[|news| - 1])
  }

  function Reverse(s: seq<Toast>): (r: seq<Toast>)
    ensures |r| == |s|
  {
    if s == [] then [] else [s[|s| - 1]] + Reverse(s[..|s| - 1])
  }

  /**
   * After any number of pushes the list holds the newest toasts, newest first, at most six of
   * them: what was pushed, in reverse order, followed by what was there.
   */
  lemma {:induction false} PushAllNewest(ts: seq<Toast>, news: seq<Toast>)
    requires news != [] || |ts| <= MaxToasts
    ensures PushAll(ts, news) == SliceTo(Reverse(news) + ts, MaxToasts)
  {
    if news == [] {
      assert Reverse(news) + ts == ts;
    } else {
      var init := news[..|news| - 1];
      var t := news[|news| - 1];
      if init == [] {
        assert news == [t];
        assert Reverse(news) == [t];
      } else {
        var rest := Reverse(init) + ts;
        PushAllNewest(ts, init);
        assert Reverse(news) + ts == [t] + rest;
        PushSlice(rest, t);
      }
    }
  }

  /** Pushing onto the first six of a list keeps the first six of the longer list. */
  lemma PushSlice(rest: seq<Toast>, t: Toast)
    ensures PushToast(SliceTo(rest, MaxToasts), t) == SliceTo([t] + rest, MaxToasts)
  {
    var a := PushToast(SliceTo(rest, MaxToasts), t);
    var b := SliceTo([t] + rest, MaxToasts);
    assert |a| == |b|;
    forall i | 0 <= i < |a| ensures a[i] == b[i] {
      if i > 0 {
        assert a[i] == a[1..][i - 1];
      }
    }
  }

  /**
   * Removing keeps exactly the toasts with other ids, in order; it is idempotent and changes
   * nothing when no toast has the id.
   */
  lemma RemoveFacts(ts: seq<Toast>, id: string, x: Toast)
    ensures x in RemoveToast(ts, id) <==> x in ts && x.id != id
    ensures RemoveToast(RemoveToast(ts, id), id) == RemoveToast(ts, id)
    ensures (forall i :: 0 <= i < |ts| ==> ts[i].id != id) ==> RemoveToast(ts, id) == ts
  {
    Lists.FilterMembers(ts, OtherId(id), x);
    Lists.FilterTwice(ts, OtherId(id));
    Lists.FilterAll(ts, OtherId(id));
  }

  /** Dismissing the toast just pushed leaves the other kept toasts. */
  lemma PushThenRemove(ts: seq<Toast>, t: Toast)
    ensures RemoveToast(PushToast(ts, t), t.id) == RemoveToast(ts[..MinInt(|ts|, MaxToasts - 1)], t.id)
  {
    var r := PushToast(ts, t);
    assert r == [t] + r[1..];
    Lists.FilterAppend([t], r[1..], OtherId(t.id));
    assert Lists.Filter([t], OtherId(t.id)) == [];
    assert [] + RemoveToast(r[1..], t.id) == RemoveToast(r[1..], t.id);
  }

  // ---------------------------------------------------------------------------------------
  // Marking a customer as contacted
  // ---------------------------------------------------------------------------------------

  /** `c.id === customerId ? { ...c, isContacted: true } : c`. */
  function ContactRow(c: Customer, id: JsValue): Customer {
    if StrictEquals(Field(c, "id"), id) then Dict.Put(c, "isContacted", JBool(true)) else c
  }

  /** `handleContactCustomer(customerId)`'s update of the customers. */
  function MarkContacted(cs: seq<Customer>, id: JsValue): seq<Customer> {
    Lists.Map(cs, c => ContactRow(c, id))
  }

  /**
   * Only rows whose id is the given one change; on those `isContacted` becomes true and every
   * other property keeps its value; marking twice is the same as marking once.
   */
  lemma ContactFacts(cs: seq<Customer>, id: JsValue)
    ensures var r := MarkContacted(cs, id);
      && |r| == |cs|
      && (forall i :: 0 <= i < |cs| && !StrictEquals(Field(cs[i], "id"), id) ==> r[i] == cs[i])
      && (forall i :: 0 <= i < |cs| && StrictEquals(Field(cs[i], "id"), id) ==> Field(r[i], "isContacted") == JBool(true))
      && (forall i, key :: 0 <= i < |cs| && key != "isContacted" ==> Field(r[i], key) == Field(cs[i], key))
      && MarkContacted(r, id) == r
  {
    var r := MarkContacted(cs, id);
    forall i, key | 0 <= i < |cs|
      ensures Field(r[i], key) == if key == "isContacted" && StrictEquals(Field(cs[i], "id"), id) then JBool(true) else Field(cs[i], key)
    {
      FieldPut(cs[i], "isContacted", JBool(true), key);
    }
    forall i | 0 <= i < |r| ensures ContactRow(r[i], id) == r[i] {
      if StrictEquals(Field(cs[i], "id"), id) {
        FieldPut(cs[i], "isContacted", JBool(true), "id");
        Dict.PutPut(cs[i], "isContacted", JBool(true), JBool(true));
      }
    }
  }

  // ---------------------------------------------------------------------------------------
  // The overview aggregates
  // ---------------------------------------------------------------------------------------

  datatype Overview = Overview(
    customerCount: nat,
    totalMRR: real,
    avgMrr: real,
    totalRevenue: real,
    churnedMRR: real,
    churnRateByCount: real,
    expansionMRR: real,
    estimatedNRR: real,
    monthlySeries: Option<seq<Analytics.SeriesRow>>)

  /** `Number(c.MRR) || 0`. */
  function Mrr(c: Customer): real { NumberOr0(Field(c, "MRR")) }

  /** `Number(c.churnProbability) >= 0.5`; NaN compares false. */
  predicate AtRisk(c: Customer) {
    var p := ToNumber(Field(c, "churnProbability"));
    p.Some? && p.value >= 0.5
  }

  /** `Number(c.churnProbability) < 0.2`. */
  predicate Expanding(c: Customer) {
    var p := ToNumber(Field(c, "churnProbability"));
    p.Some? && p.value < 0.2
  }

  /** An expanding customer is assumed to grow by 2%: `(Number(c.MRR) || 0) * 0.02`. */
  function Expansion(c: Customer): real { 0.02 * Mrr(c) }

  /** `(total + expansion - churned) / Math.max(1, total)` when the total is positive, else 1. */
  function Nrr(total: real, expansion: real, churned: real): real {
    if total > 0.0 then (total + expansion - churned) / Max(1.0, total) else 1.0
  }

  /**
   * `overviewData`: the MRR total and customer count accumulated in one pass, the average
   * (0 without customers), the annualised revenue, the MRR and share of the customers at risk,
   * the expansion estimate, the net-revenue-retention estimate and the monthly series.
   */
  method OverviewData(cs: seq<Customer>, cal: Calendar, pr: Printer, randomId: nat -> string) returns (o: Overview)
    ensures o.customerCount == |cs|
    ensures o.totalMRR == Dict.SumBy(cs, Mrr)
    ensures o.avgMrr == if cs == [] then 0.0 else o.totalMRR / |cs| as real
    ensures o.totalRevenue == 12.0 * o.totalMRR
    ensures o.churnedMRR == Dict.SumBy(Lists.Filter(cs, AtRisk), Mrr)
    ensures 0.0 <= o.churnRateByCount <= 1.0
    ensures o.churnRateByCount == if cs == [] then 0.0 else |Lists.Filter(cs, AtRisk)| as real / |cs| as real
    ensures o.expansionMRR == Dict.SumBy(Lists.Filter(cs, Expanding), Expansion)
    ensures o.estimatedNRR == Nrr(o.totalMRR, o.expansionMRR, o.churnedMRR)
    ensures o.totalMRR <= 0.0 ==> o.estimatedNRR == 1.0
    ensures (forall i :: 0 <= i < |cs| ==> Mrr(cs[i]) >= 0.0) ==> 0.0 <= o.estimatedNRR <= 1.02
    ensures o.monthlySeries == Analytics.MonthlySeries(cs, cal, pr, randomId)
  {
    var totalMRR := 0.0;
    var customerCount := 0;
    for i := 0 to |cs|
      invariant totalMRR == Dict.SumBy(cs[..i], Mrr)
      invariant customerCount == i
    {
      Lists.SumByAppend(cs[..i], cs[i], Mrr);
      assert cs[..i + 1] == cs[..i] + [cs[i]];
      totalMRR := totalMRR + Mrr(cs[i]);
      customerCount := customerCount + 1;
    }
    assert cs[..|cs|] == cs;
    var avgMrr := if customerCount > 0 then totalMRR / customerCount as real else 0.0;
    var atRisk := Lists.Filter(cs, AtRisk);
    var churnedMRR := Dict.SumBy(atRisk, Mrr);
    var churnRate := if customerCount > 0 then |atRisk| as real / customerCount as real else 0.0;
    var expansionMRR := Dict.SumBy(Lists.Filter(cs, Expanding), Expansion);
    var monthlySeries := Analytics.ComputeMonthlySeries(cs, cal, pr, randomId);
    if customerCount > 0 {
      RatioAtMostOne(|atRisk|, customerCount);
    }
    if forall i :: 0 <= i < |cs| ==> Mrr(cs[i]) >= 0.0 {
      NrrBounds(cs);
    }
    o := Overview(customerCount, totalMRR, avgMrr, totalMRR * 12.0, churnedMRR, churnRate, expansionMRR,
                  Nrr(totalMRR, expansionMRR, churnedMRR), monthlySeries);
  }

  lemma RatioAtMostOne(a: nat, b: nat)
    requires a <= b && b > 0
    ensures 0.0 <= a as real / b as real <= 1.0
  {
  }

  /**
   * With non-negative MRR the retention estimate lies in [0, 1.02]: the churned MRR never
   * exceeds the total, and the expansion is at most 2% of it.
   */
  lemma NrrBounds(cs: seq<Customer>)
    requires forall i :: 0 <= i < |cs| ==> Mrr(cs[i]) >= 0.0
    ensures 0.0 <= Nrr(Dict.SumBy(cs, Mrr), Dict.SumBy(Lists.Filter(cs, Expanding), Expansion),
                       Dict.SumBy(Lists.Filter(cs, AtRisk), Mrr)) <= 1.02
  {
    var total := Dict.SumBy(cs, Mrr);
    var grow := Lists.Filter(cs, Expanding);
    var churned := Dict.SumBy(Lists.Filter(cs, AtRisk), Mrr);
    Lists.SumByFilter(cs, AtRisk, Mrr);
    Lists.SumByFilter(cs, Expanding, Mrr);
    ExpansionScaled(grow);
    RetentionBounds(total, Dict.SumBy(grow, Mrr), Dict.SumBy(grow, Expansion), churned);
  }

  /** The expansion estimate is 2% of the expanding customers' MRR. */
  lemma {:induction false} ExpansionScaled(grow: seq<Customer>)
    ensures Dict.SumBy(grow, Expansion) == 0.02 * Dict.SumBy(grow, Mrr)
  {
    if grow != [] {
      ExpansionScaled(grow[1..]);
      assert Expansion(grow[0]) == 0.02 * Mrr(grow[0]);
    }
  }

  lemma RetentionBounds(total: real, grown: real, expansion: real, churned: real)
    requires 0.0 <= grown <= total && 0.0 <= churned <= total && expansion == 0.02 * grown
    ensures 0.0 <= Nrr(total, expansion, churned) <= 1.02
  {
    if total > 0.0 {
      var n := total + expansion - churned;
      assert 0.0 <= n <= 1.02 * total;
      if total >= 1.0 {
        assert n / total <= 1.02 by {
          assert n <= 1.02 * total;
        }
      }
    }
  }

  // ---------------------------------------------------------------------------------------
  // The churn-heuristic toggle
  // ---------------------------------------------------------------------------------------

  /** A row the toggle estimates: churn not supplied, missing or zero, and not yet computed. */
  predicate Eligible(c: Customer) {
    var p := Field(c, "churnProbability");
    var hasChurn := !p.JUndefined? && ToNumber(p) != Some(0.0);
    !Truthy(Field(c, "_churnProvided")) && !hasChurn && !Truthy(Field(c, "_churnComputed"))
  }

  /** A row whose churn the toggle put there. */
  predicate Computed(c: Customer) {
    Truthy(Field(c, "_churnComputed"))
  }

  /**
   * Toggle on, one row: an eligible row becomes a copy with the previous churn saved in
   * `_prevChurn`, the estimate clamped to [0, 1] as its churn, `_churnComputed` set and the
   * driver and contributions attached; every other row is kept as it is.
   */
  function ApplyRow(c: Customer, wa: Churn.WeightArgs): Customer {
    if Eligible(c) then
      var res := Churn.EstimateDetailed(c, wa);
      var contributions := ArrayValue(Lists.Map(res.contributions, ContributionValue));
      Dict.Put(Dict.Put(Dict.Put(Dict.Put(Dict.Put(c, "_prevChurn", Field(c, "churnProbability")),
        "churnProbability", EstimateValue(res)), "_churnComputed", JBool(true)),
        "_churnDriver", DriverOf(res)), "_churnContributions", contributions)
    else c
  }

  /**
   * Toggle off, one row: a computed row becomes a copy whose churn is the saved previous value
   * when that is defined, without the four bookkeeping properties; every other row is kept.
   */
  function RevertRow(c: Customer): Customer {
    if Computed(c) then
      var prev := Field(c, "_prevChurn");
      var nc := if !prev.JUndefined? then Dict.Put(c, "churnProbability", prev) else c;
      Strip(nc)
    else c
  }

  /** `delete` of `_prevChurn`, `_churnComputed`, `_churnDriver` and `_churnContributions`. */
  function Strip(o: Customer): Customer {
    Dict.Delete(Dict.Delete(Dict.Delete(Dict.Delete(o, "_prevChurn"), "_churnComputed"), "_churnDriver"),
                "_churnContributions")
  }

  predicate Bookkeeping(key: string) {
    key == "_prevChurn" || key == "_churnComputed" || key == "_churnDriver" || key == "_churnContributions"
  }

  function ApplyAll(cs: seq<Customer>, wa: Churn.WeightArgs): seq<Customer> {
    Lists.Map(cs, c => ApplyRow(c, wa))
  }

  function RevertAll(cs: seq<Customer>): seq<Customer> {
    Lists.Map(cs, RevertRow)
  }

  /** `updated.some((u, i) => u !== customers[i])`. */
  predicate Changed(updated: seq<Customer>, cs: seq<Customer>)
    requires |updated| == |cs|
  {
    exists i :: 0 <= i < |cs| && updated[i] != cs[i]
  }

  /** What the effect passes to `setCustomers`; `None` when it does not call it. */
  function ToggleEffect(cs: seq<Customer>, on: bool, wa: Churn.WeightArgs): Option<seq<Customer>> {
    var updated := if on then ApplyAll(cs, wa) else RevertAll(cs);
    if Changed(updated, cs) then Some(updated) else None
  }

  lemma StripFields(o: Customer, key: string)
    ensures Field(Strip(o), key) == if Bookkeeping(key) then JUndefined else Field(o, key)
  {
    var d1 := Dict.Delete(o, "_prevChurn");
    var d2 := Dict.Delete(d1, "_churnComputed");
    var d3 := Dict.Delete(d2, "_churnDriver");
    FieldDelete(o, "_prevChurn", key);
    FieldDelete(d1, "_churnComputed", key);
    FieldDelete(d2, "_churnDriver", key);
    FieldDelete(d3, "_churnContributions", key);
  }

  /** What an eligible row reads after the toggle is switched on. */
  lemma ApplyFields(c: Customer, wa: Churn.WeightArgs, key: string)
    requires Eligible(c)
    ensures var r := ApplyRow(c, wa); var res := Churn.EstimateDetailed(c, wa);
      Field(r, key) ==
        if key == "_prevChurn" then Field(c, "churnProbability")
        else if key == "churnProbability" then EstimateValue(res)
        else if key == "_churnComputed" then JBool(true)
        else if key == "_churnDriver" then DriverOf(res)
        else if key == "_churnContributions" then ArrayValue(Lists.Map(res.contributions, ContributionValue))
        else Field(c, key)
  {
    var res := Churn.EstimateDetailed(c, wa);
    var contributions := ArrayValue(Lists.Map(res.contributions, ContributionValue));
    var a1 := Dict.Put(c, "_prevChurn", Field(c, "churnProbability"));
    var a2 := Dict.Put(a1, "churnProbability", EstimateValue(res));
    var a3 := Dict.Put(a2, "_churnComputed", JBool(true));
    var a4 := Dict.Put(a3, "_churnDriver", DriverOf(res));
    FieldPut(c, "_prevChurn", Field(c, "churnProbability"), key);
    FieldPut(a1, "churnProbability", EstimateValue(res), key);
    FieldPut(a2, "_churnComputed", JBool(true), key);
    FieldPut(a3, "_churnDriver", DriverOf(res), key);
    FieldPut(a4, "_churnContributions", contributions, key);
  }

  /** Toggle on changes a row exactly when it is eligible, and the new churn lies in [0, 1]. */
  lemma ApplyRowChanges(c: Customer, wa: Churn.WeightArgs)
    ensures ApplyRow(c, wa) != c <==> Eligible(c)
    ensures Eligible(c) ==> Computed(ApplyRow(c, wa)) && !Eligible(ApplyRow(c, wa))
    ensures Eligible(c) ==> var p := ToNumber(Field(ApplyRow(c, wa), "churnProbability"));
      p.Some? && 0.0 <= p.value <= 1.0
  {
    if Eligible(c) {
      ApplyFields(c, wa, "_churnComputed");
      ApplyFields(c, wa, "churnProbability");
    }
  }

  /** Toggle off changes a row exactly when its churn was computed, and leaves it not computed. */
  lemma RevertRowChanges(c: Customer)
    ensures RevertRow(c) != c <==> Computed(c)
    ensures !Computed(RevertRow(c))
  {
    if Computed(c) {
      var prev := Field(c, "_prevChurn");
      var nc := if !prev.JUndefined? then Dict.Put(c, "churnProbability", prev) else c;
      StripFields(nc, "_churnComputed");
    }
  }

  /**
   * Switching on and then off: a row whose churn was defined (zero, or anything `Number` reads
   * as zero) gets that value back; a row whose churn was undefined keeps the estimate, since
   * its saved previous value is undefined; the bookkeeping properties are gone and every
   * other property is as it was.
   */
  lemma OnThenOff(c: Customer, wa: Churn.WeightArgs, key: string)
    requires Eligible(c)
    ensures var r := RevertRow(ApplyRow(c, wa)); var p := Field(c, "churnProbability");
      && (key == "churnProbability" && !p.JUndefined? ==> Field(r, key) == p)
      && (key == "churnProbability" && p.JUndefined? ==> Field(r, key) == EstimateValue(Churn.EstimateDetailed(c, wa)))
      && (Bookkeeping(key) ==> Field(r, key) == JUndefined)
      && (key != "churnProbability" && !Bookkeeping(key) ==> Field(r, key) == Field(c, key))
  {
    var a := ApplyRow(c, wa);
    var p := Field(c, "churnProbability");
    ApplyFields(c, wa, "_churnComputed");
    ApplyFields(c, wa, "_prevChurn");
    ApplyFields(c, wa, key);
    var nc := if !p.JUndefined? then Dict.Put(a, "churnProbability", p) else a;
    assert RevertRow(a) == Strip(nc);
    StripFields(nc, key);
    if !p.JUndefined? {
      FieldPut(a, "churnProbability", p, key);
    }
  }

  /** Rows untouched by the toggle keep their churn and everything else. */
  lemma IneligibleKept(c: Customer, wa: Churn.WeightArgs)
    ensures !Eligible(c) ==> ApplyRow(c, wa) == c
    ensures !Computed(c) ==> RevertRow(c) == c
  {
  }

  /**
   * The effect calls `setCustomers` exactly when some row changes, with the updated rows; once
   * it has, running it again changes nothing, so it settles after one update either way.
   */
  lemma ToggleSettles(cs: seq<Customer>, on: bool, wa: Churn.WeightArgs)
    ensures on ==> (ToggleEffect(cs, on, wa).Some? <==> exists i :: 0 <= i < |cs| && Eligible(cs[i]))
    ensures !on ==> (ToggleEffect(cs, on, wa).Some? <==> exists i :: 0 <= i < |cs| && Computed(cs[i]))
    ensures ToggleEffect(cs, on, wa).Some? ==> ToggleEffect(cs, on, wa).value == if on then ApplyAll(cs, wa) else RevertAll(cs)
    ensures ToggleEffect(ApplyAll(cs, wa), true, wa).None?
    ensures ToggleEffect(RevertAll(cs), false, wa).None?
  {
    forall i | 0 <= i < |cs| ensures (ApplyRow(cs[i], wa) != cs[i] <==> Eligible(cs[i])) {
      ApplyRowChanges(cs[i], wa);
    }
    forall i | 0 <= i < |cs| ensures (RevertRow(cs[i]) != cs[i] <==> Computed(cs[i])) {
      RevertRowChanges(cs[i]);
    }
    var on1 := ApplyAll(cs, wa);
    forall i | 0 <= i < |on1| ensures ApplyRow(on1[i], wa) == on1[i] {
      ApplyRowChanges(cs[i], wa);
    }
    assert !Changed(ApplyAll(on1, wa), on1);
    var off1 := RevertAll(cs);
    forall i | 0 <= i < |off1| ensures RevertRow(off1[i]) == off1[i] {
      RevertRowChanges(cs[i]);
    }
    assert !Changed(RevertAll(off1), off1);
  }

  // ---------------------------------------------------------------------------------------
  // The shell's retention simulation
  // ---------------------------------------------------------------------------------------

  /** A JavaScript number: NaN, which every arithmetic operation propagates, or a finite value. */
  datatype Num = NaN | Finite(v: real)

  /** `Number(v)` as a number. */
  function NumberOf(v: JsValue): (n: Num)
    ensures n.NaN? <==> ToNumber(v).None?
    ensures n.Finite? ==> n.v == ToNumber(v).value
  {
    var o := ToNumber(v);
    if o.Some? then Finite(o.value) else NaN
  }

  function Plus(a: Num, b: Num): Num {
    if a.Finite? && b.Finite? then Finite(a.v + b.v) else NaN
  }

  function Minus(a: Num, b: Num): Num {
    if a.Finite? && b.Finite? then Finite(a.v - b.v) else NaN
  }

  function Times(a: Num, b: Num): Num {
    if a.Finite? && b.Finite? then Finite(a.v * b.v) else NaN
  }

  /** `xs.reduce((s, x) => s + f(x), 0)`. */
  function NumSum(xs: seq<Customer>, f: Customer -> Num): Num {
    if xs == [] then Finite(0.0) else Plus(f(xs[0]), NumSum(xs[1..], f))
  }

  /** The three strategy strengths of the scenario. */
  datatype Effects = Effects(discount: real, support: real, campaign: real)

  datatype AppSimResults = AppSimResults(
    currentTotalMRR: Num,
    potentialMRRLoss: Num,
    simulatedMRRLoss: Num,
    projectedMRRSaved: Num,
    targetCustomerCount: nat)

  /** `v > k`: false when `v` reads as NaN. */
  predicate Above(v: JsValue, k: real) {
    var n := ToNumber(v);
    n.Some? && n.value > k
  }

  /** `c.riskScore / 100`, the baseline churn rate. */
  function BaseRate(c: Customer): Num {
    Times(NumberOf(Field(c, "riskScore")), Finite(0.01))
  }

  /** The effects that apply to a customer, summed and capped at 0.95. */
  function CustomerReduction(c: Customer, e: Effects): real {
    Min((if Above(Field(c, "MRR"), 500.0) then e.discount else 0.0)
        + (if Above(Field(c, "supportTickets"), 3.0) then e.support else 0.0)
        + (if Above(Field(c, "lastActivityDays"), 14.0) then e.campaign else 0.0), 0.95)
  }

  /** `c.MRR * estimatedChurnRate`. */
  function BaseLoss(c: Customer): Num {
    Times(NumberOf(Field(c, "MRR")), BaseRate(c))
  }

  /** `c.MRR * (estimatedChurnRate * (1 - reduction))`. */
  function ReducedLoss(c: Customer, e: Effects): Num {
    Times(NumberOf(Field(c, "MRR")), Times(BaseRate(c), Finite(1.0 - CustomerReduction(c, e))))
  }

  function ReducedLossAt(e: Effects): Customer -> Num { c => ReducedLoss(c, e) }

  /** `sum + (c.MRR || 0)`. */
  function MrrOrZero(c: Customer): Num { NumberOf(Or(Field(c, "MRR"), JNum(0.0))) }

  /** The shell's `simulationResults`. */
  function SimulateApp(cs: seq<Customer>, level: JsValue, e: Effects): (r: AppSimResults)
    ensures cs == [] ==> r == AppSimResults(Finite(0.0), Finite(0.0), Finite(0.0), Finite(0.0), 0)
    ensures cs != [] ==> r.targetCustomerCount == |WhatIf.Targets(cs, level)|
  {
    if cs == [] then AppSimResults(Finite(0.0), Finite(0.0), Finite(0.0), Finite(0.0), 0)
    else
      var ts := WhatIf.Targets(cs, level);
      var potential := NumSum(ts, BaseLoss);
      var simulated := NumSum(ts, ReducedLossAt(e));
      AppSimResults(NumSum(cs, MrrOrZero), potential, simulated,
                    Minus(potential, simulated), |ts|)
  }

  /** A customer the sum sees as NaN makes the whole sum NaN. */
  lemma {:induction false} NanPoisons(xs: seq<Customer>, f: Customer -> Num, i: nat)
    requires i < |xs| && f(xs[i]).NaN?
    ensures NumSum(xs, f).NaN?
  {
    if i > 0 {
      NanPoisons(xs[1..], f, i - 1);
    }
  }

  /**
   * A target customer whose MRR is not a number makes the potential and the simulated loss
   * NaN.
   */
  lemma MissingMrrPoisons(cs: seq<Customer>, level: JsValue, e: Effects, i: nat)
    requires i < |WhatIf.Targets(cs, level)|
    requires ToNumber(Field(WhatIf.Targets(cs, level)[i], "MRR")).None?
    ensures SimulateApp(cs, level, e).potentialMRRLoss.NaN?
    ensures SimulateApp(cs, level, e).simulatedMRRLoss.NaN?
  {
    var ts := WhatIf.Targets(cs, level);
    NanPoisons(ts, BaseLoss, i);
    NanPoisons(ts, ReducedLossAt(e), i);
  }

  /** Adding one more term at the end of a sum adds it to the total. */
  lemma {:induction false} NumSumSnoc(xs: seq<Customer>, c: Customer, f: Customer -> Num)
    ensures NumSum(xs + [c], f) == Plus(NumSum(xs, f), f(c))
  {
    if xs == [] {
      assert [] + [c] == [c];
      assert [c][1..] == [];
    } else {
      assert (xs + [c])[1..] == xs[1..] + [c];
      NumSumSnoc(xs[1..], c, f);
    }
  }

  /** `c.MRR || 0`: a missing, null, empty, zero or NaN MRR adds 0; a numeric one adds itself. */
  lemma MrrOrZeroFacts(c: Customer)
    ensures !Truthy(Field(c, "MRR")) ==> MrrOrZero(c) == Finite(0.0)
    ensures Field(c, "MRR").JNum? && Truthy(Field(c, "MRR")) ==> MrrOrZero(c) == Finite(Field(c, "MRR").n)
  {
  }

  /**
   * The current total counts every customer, targeted or not: one more customer adds its
   * `c.MRR || 0` to it, and when that customer is outside the selected level the losses, the
   * savings and the target count stay as they were.
   */
  lemma CurrentTotalCountsAll(cs: seq<Customer>, c: Customer, level: JsValue, e: Effects)
    requires cs != []
    ensures var r := SimulateApp(cs + [c], level, e); var r0 := SimulateApp(cs, level, e);
      && r.currentTotalMRR == Plus(r0.currentTotalMRR, MrrOrZero(c))
      && (!Truthy(Field(c, "MRR")) && r0.currentTotalMRR.Finite? ==> r.currentTotalMRR == r0.currentTotalMRR)
      && (!WhatIf.IsTarget(c, level) ==>
            && r.potentialMRRLoss == r0.potentialMRRLoss
            && r.simulatedMRRLoss == r0.simulatedMRRLoss
            && r.projectedMRRSaved == r0.projectedMRRSaved
            && r.targetCustomerCount == r0.targetCustomerCount)
  {
    NumSumSnoc(cs, c, MrrOrZero);
    MrrOrZeroFacts(c);
    if !WhatIf.IsTarget(c, level) {
      Lists.FilterAppend(cs, [c], c0 => WhatIf.IsTarget(c0, level));
      assert Lists.Filter([c], c0 => WhatIf.IsTarget(c0, level)) == [];
      assert WhatIf.Targets(cs + [c], level) == WhatIf.Targets(cs, level);
    }
  }

  /** No rule applies: the customer keeps its baseline loss. */
  lemma NoRuleNoReduction(c: Customer, e: Effects)
    requires !Above(Field(c, "MRR"), 500.0) && !Above(Field(c, "supportTickets"), 3.0)
    requires !Above(Field(c, "lastActivityDays"), 14.0)
    ensures ReducedLoss(c, e) == BaseLoss(c)
  {
    assert CustomerReduction(c, e) == 0.0;
    var r := BaseRate(c);
    if r.Finite? {
      assert Times(r, Finite(1.0)) == r;
    }
  }

  /** A customer with a numeric MRR of at least 0, a score in [0, 100] and effects of at least 0. */
  predicate Sane(c: Customer) {
    var m := NumberOf(Field(c, "MRR"));
    var s := NumberOf(Field(c, "riskScore"));
    m.Finite? && m.v >= 0.0 && s.Finite? && 0.0 <= s.v <= 100.0
  }

  lemma ReducedBounds(m: real, rate: real, keep: real)
    requires m >= 0.0 && 0.0 <= rate && 0.05 <= keep <= 1.0
    ensures 0.05 * (m * rate) <= m * (rate * keep) <= m * rate
  {
    MulMonotone(0.05, keep, rate);
    MulMonotone(keep, 1.0, rate);
    assert 0.05 * rate <= rate * keep <= rate;
    MulMonotone(0.05 * rate, rate * keep, m);
    MulMonotone(rate * keep, rate, m);
    assert 0.05 * (m * rate) == (0.05 * rate) * m;
  }

  lemma CustomerLossBounds(c: Customer, e: Effects)
    requires Sane(c) && e.discount >= 0.0 && e.support >= 0.0 && e.campaign >= 0.0
    ensures BaseLoss(c).Finite? && ReducedLoss(c, e).Finite?
    ensures 0.05 * BaseLoss(c).v <= ReducedLoss(c, e).v <= BaseLoss(c).v
  {
    var mo, so := NumberOf(Field(c, "MRR")), NumberOf(Field(c, "riskScore"));
    var keep := 1.0 - CustomerReduction(c, e);
    assert 0.05 <= keep <= 1.0 by { ReductionRange(c, e); }
    assert BaseLoss(c) == Times(mo, Times(so, Finite(0.01)));
    assert ReducedLoss(c, e) == Times(mo, Times(Times(so, Finite(0.01)), Finite(keep)));
    NumLossBounds(mo, so, keep);
  }

  /** The same bounds on the numbers themselves; `keep` is `1 - reduction`. */
  lemma NumLossBounds(mo: Num, so: Num, keep: real)
    requires mo.Finite? && mo.v >= 0.0 && so.Finite? && 0.0 <= so.v <= 100.0 && 0.05 <= keep <= 1.0
    ensures var rate := Times(so, Finite(0.01));
      var base := Times(mo, rate);
      var reduced := Times(mo, Times(rate, Finite(keep)));
      base.Finite? && reduced.Finite? && 0.05 * base.v <= reduced.v <= base.v
  {
    var rate := so.v * 0.01;
    var m := mo.v;
    assert Times(so, Finite(0.01)) == Finite(rate);
    assert Times(Finite(rate), Finite(keep)) == Finite(rate * keep);
    assert Times(mo, Finite(rate)) == Finite(m * rate);
    assert Times(mo, Finite(rate * keep)) == Finite(m * (rate * keep));
    ReducedBounds(m, rate, keep);
  }

  lemma ReductionRange(c: Customer, e: Effects)
    requires e.discount >= 0.0 && e.support >= 0.0 && e.campaign >= 0.0
    ensures 0.0 <= CustomerReduction(c, e) <= 0.95
  {
  }

  /** Per-customer bounds between two sums add up. */
  lemma {:induction false} NumSumBounds(ts: seq<Customer>, f: Customer -> Num, g: Customer -> Num)
    requires forall i :: 0 <= i < |ts| ==> f(ts[i]).Finite? && g(ts[i]).Finite? && 0.05 * f(ts[i]).v <= g(ts[i]).v <= f(ts[i]).v
    ensures NumSum(ts, f).Finite? && NumSum(ts, g).Finite?
    ensures 0.05 * NumSum(ts, f).v <= NumSum(ts, g).v <= NumSum(ts, f).v
  {
    if ts != [] {
      assert forall i :: 0 <= i < |ts[1..]| ==> ts[1..][i] == ts[i + 1];
      NumSumBounds(ts[1..], f, g);
    }
  }

  /**
   * When every target customer is sane and the effects are non-negative, the results are
   * numbers, the simulated loss lies between 5% of the potential loss and the potential loss,
   * and the projected savings lie between 0 and 95% of it.
   */
  lemma SimulationBounds(cs: seq<Customer>, level: JsValue, e: Effects)
    requires cs != []
    requires forall i :: 0 <= i < |WhatIf.Targets(cs, level)| ==> Sane(WhatIf.Targets(cs, level)[i])
    requires e.discount >= 0.0 && e.support >= 0.0 && e.campaign >= 0.0
    ensures var r := SimulateApp(cs, level, e);
      && r.potentialMRRLoss.Finite? && r.simulatedMRRLoss.Finite? && r.projectedMRRSaved.Finite?
      && 0.05 * r.potentialMRRLoss.v <= r.simulatedMRRLoss.v <= r.potentialMRRLoss.v
      && r.projectedMRRSaved.v == r.potentialMRRLoss.v - r.simulatedMRRLoss.v
      && 0.0 <= r.projectedMRRSaved.v <= 0.95 * r.potentialMRRLoss.v
  {
    var ts := WhatIf.Targets(cs, level);
    forall i | 0 <= i < |ts|
      ensures BaseLoss(ts[i]).Finite? && ReducedLossAt(e)(ts[i]).Finite?
      ensures 0.05 * BaseLoss(ts[i]).v <= ReducedLossAt(e)(ts[i]).v <= BaseLoss(ts[i]).v
    {
      CustomerLossBounds(ts[i], e);
    }
    NumSumBounds(ts, BaseLoss, ReducedLossAt(e));
  }

  /** Enhanced rows always carry a score in [0, 100], so for them only the MRR matters. */
  lemma EnhancedSane(c: Customer, on: bool, wa: Churn.WeightArgs, pr: Printer)
    requires var m := ToNumber(Field(c, "MRR")); m.Some? && m.value >= 0.0
    ensures Sane(Enhance(c, on, wa, pr))
  {
    EnhanceFields(c, on, wa, pr);
    var score := AppShared.RiskScore(c, pr);
    var b1 := Dict.Put(c, "riskScore", JNum(score));
    var level := JStr(RiskLevel(score));
    var base := Dict.Put(b1, "riskLevel", level);
    var compute := on && NeedsEstimate(c);
    var withChurn := if compute then WithEstimate(base, Churn.EstimateDetailed(c, wa)) else base;
    FieldPut(c, "riskScore", JNum(score), "MRR");
    FieldPut(b1, "riskLevel", level, "MRR");
    if compute {
      WithEstimateFields(base, Churn.EstimateDetailed(c, wa), "MRR");
    }
    EnhanceTail(withChurn, Truthy(Field(c, "_churnProvided")), compute, "MRR");
  }
}
