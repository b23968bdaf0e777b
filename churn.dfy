/**
 * The client's feature-based churn estimate: support tickets, days since the last activity
 * and MRR are each turned into a risk in [0, 1], weighted, summed and clamped to [0, 1]; the
 * three weighted contributions are also reported, largest first.
 */
module Churn {
  import opened Common
  import opened Js
  import Dict

  /** `weights.tickets ?? 0.5` and so on: `None` is a weight that is null or undefined. */
  datatype WeightArgs = WeightArgs(tickets: Option<real>, activity: Option<real>, mrr: Option<real>)

  const NoWeights: WeightArgs := WeightArgs(None, None, None)

  datatype Weights = Weights(tickets: real, activity: real, mrr: real)

  /** One weighted contribution, keyed `tickets`, `activity` or `mrr`; `title` is its `label`. */
  datatype Contribution = Contribution(key: string, title: string, value: real)

  datatype Raw = Raw(ticketRisk: real, activityRisk: real, mrrRisk: real, weights: Weights)

  datatype Detailed = Detailed(estimate: real, contributions: seq<Contribution>, mainDriver: Contribution, raw: Raw)

  /** The weights in force: a given one is kept, a null or undefined one takes its default. */
  function WeightsOf(a: WeightArgs): (w: Weights)
    ensures a.tickets.None? ==> w.tickets == 0.5
    ensures a.activity.None? ==> w.activity == 0.35
    ensures a.mrr.None? ==> w.mrr == 0.15
    ensures a.tickets.Some? ==> w.tickets == a.tickets.value
    ensures a.activity.Some? ==> w.activity == a.activity.value
    ensures a.mrr.Some? ==> w.mrr == a.mrr.value
  {
    Weights(a.tickets.GetOr(0.5), a.activity.GetOr(0.35), a.mrr.GetOr(0.15))
  }

  /** `Math.min(supportTickets / 10, 1)`. */
  function TicketRisk(t: real): real { Min(t / 10.0, 1.0) }

  /** `Math.min(lastActivityDays / 60, 1)`. */
  function ActivityRisk(d: real): real { Min(d / 60.0, 1.0) }

  /** `1 - Math.min(MRR / 5000, 1)`. */
  function MrrRisk(m: real): real { 1.0 - Min(m / 5000.0, 1.0) }

  /** The weighted sum clamped to [0, 1], on the numeric features. */
  function Estimate(m: real, t: real, d: real, w: Weights): (e: real)
    ensures 0.0 <= e <= 1.0
  {
    Combine(TicketRisk(t), ActivityRisk(d), MrrRisk(m), w)
  }

  /** The weighted sum of three risks, clamped to [0, 1]. */
  function Combine(rt: real, ra: real, rm: real, w: Weights): real {
    Clamp(0.0, 1.0, rt * w.tickets + ra * w.activity + rm * w.mrr)
  }

  function ContribValue(c: Contribution): real { c.value }

  /** The three contributions in their written order; the third label keeps the mis-encoded arrow the file holds. */
  function Unsorted(m: real, t: real, d: real, w: Weights): seq<Contribution> {
    [ Contribution("tickets", "Support Tickets", TicketRisk(t) * w.tickets),
      Contribution("activity", "Last Activity", ActivityRisk(d) * w.activity),
      Contribution("mrr", "MRR (lowâ†’high risk)", MrrRisk(m) * w.mrr) ]
  }

  /** `estimateChurnFromFeaturesDetailed(customer, weights)`; features are `Number(v) || 0`. */
  function EstimateDetailed(customer: JsObject, wa: WeightArgs): Detailed {
    DetailedOf(NumberOr0(Field(customer, "MRR")), NumberOr0(Field(customer, "supportTickets")),
               NumberOr0(Field(customer, "lastActivityDays")), WeightsOf(wa))
  }

  /** The detailed result on the numeric features. */
  function DetailedOf(m: real, t: real, d: real, w: Weights): Detailed {
    var cs := Dict.SortDesc(Unsorted(m, t, d, w), ContribValue);
    Detailed(Estimate(m, t, d, w), cs, cs[0], Raw(TicketRisk(t), ActivityRisk(d), MrrRisk(m), w))
  }

  /** `estimateChurnFromFeatures(customer, weights)`: the detailed estimate alone. */
  function EstimateFromFeatures(customer: JsObject, wa: WeightArgs): (e: real)
    ensures 0.0 <= e <= 1.0
    ensures e == EstimateDetailed(customer, wa).estimate
  {
    EstimateDetailed(customer, wa).estimate
  }

  /** `estimateChurnSimple(customer, weights)`: the same number again. */
  function EstimateSimple(customer: JsObject, wa: WeightArgs): (e: real)
    ensures 0.0 <= e <= 1.0
    ensures e == EstimateDetailed(customer, wa).estimate
  {
    EstimateFromFeatures(customer, wa)
  }

  // ---------------------------------------------------------------------------------------
  // Properties
  // ---------------------------------------------------------------------------------------

  /** Each risk lies in [0, 1] for non-negative features; tickets saturate at 10, days at 60, MRR at 5000. */
  lemma RiskBounds(m: real, t: real, d: real)
    ensures t >= 0.0 ==> 0.0 <= TicketRisk(t) <= 1.0
    ensures d >= 0.0 ==> 0.0 <= ActivityRisk(d) <= 1.0
    ensures m >= 0.0 ==> 0.0 <= MrrRisk(m) <= 1.0
    ensures t >= 10.0 ==> TicketRisk(t) == 1.0
    ensures d >= 60.0 ==> ActivityRisk(d) == 1.0
    ensures m >= 5000.0 ==> MrrRisk(m) == 0.0
  {
  }

  /** The three contributions, largest first, ties keeping the written order; the main driver is the largest. */
  lemma ContributionsFacts(u: seq<Contribution>)
    requires |u| == 3
    ensures var cs := Dict.SortDesc(u, ContribValue);
      && multiset(cs) == multiset(u)
      && Dict.SortedDesc(cs, ContribValue)
      && (forall v :: Dict.WithKey(cs, ContribValue, v) == Dict.WithKey(u, ContribValue, v))
      && (forall i :: 0 <= i < 3 ==> cs[0].value >= u[i].value)
  {
    var cs := Dict.SortDesc(u, ContribValue);
    Dict.SortDescFacts(u, ContribValue);
    forall i | 0 <= i < 3 ensures cs[0].value >= u[i].value {
      assert u[i] in multiset(cs);
      var j :| 0 <= j < |cs| && cs[j] == u[i];
      if j > 0 {
        assert ContribValue(cs[0]) >= ContribValue(cs[j]);
      }
    }
  }

  /** The estimate is the sum of the three contributions, clamped to [0, 1]. */
  lemma DetailedEstimate(m: real, t: real, d: real, w: Weights)
    ensures var r := DetailedOf(m, t, d, w);
      var u := Unsorted(m, t, d, w);
      0.0 <= r.estimate <= 1.0 && r.estimate == Clamp(0.0, 1.0, u[0].value + u[1].value + u[2].value)
  {
  }

  /**
   * The reported contributions are the three sorted largest first, ties in the written order;
   * the main driver is the first and the largest of them.
   */
  lemma DetailedContributions(m: real, t: real, d: real, w: Weights)
    ensures var r := DetailedOf(m, t, d, w);
      var u := Unsorted(m, t, d, w);
      && multiset(r.contributions) == multiset(u)
      && Dict.SortedDesc(r.contributions, ContribValue)
      && (forall v :: Dict.WithKey(r.contributions, ContribValue, v) == Dict.WithKey(u, ContribValue, v))
      && r.mainDriver == r.contributions[0]
      && (forall i :: 0 <= i < 3 ==> r.mainDriver.value >= u[i].value)
  {
    var u := Unsorted(m, t, d, w);
    ContributionsFacts(u);
    assert DetailedOf(m, t, d, w).contributions == Dict.SortDesc(u, ContribValue);
  }

  /** A feature that is not a number counts as 0. */
  lemma NonNumericIsZero(customer: JsObject, key: string)
    requires ToNumber(Field(customer, key)).None?
    ensures NumberOr0(Field(customer, key)) == 0.0
  {
  }

  /**
   * With non-negative weights (the defaults among them) the estimate does not fall as tickets
   * or inactivity grow and does not rise as MRR grows.
   */
  lemma Monotone(m: real, t: real, d: real, m': real, t': real, d': real, w: Weights)
    requires w.tickets >= 0.0 && w.activity >= 0.0 && w.mrr >= 0.0
    requires t <= t' && d <= d' && m' <= m
    ensures Estimate(m, t, d, w) <= Estimate(m', t', d', w)
  {
    RisksMonotone(m, t, d, m', t', d');
    WeightedMonotone(TicketRisk(t), ActivityRisk(d), MrrRisk(m), TicketRisk(t'), ActivityRisk(d'), MrrRisk(m'), w);
  }

  lemma RisksMonotone(m: real, t: real, d: real, m': real, t': real, d': real)
    requires t <= t' && d <= d' && m' <= m
    ensures TicketRisk(t) <= TicketRisk(t') && ActivityRisk(d) <= ActivityRisk(d') && MrrRisk(m) <= MrrRisk(m')
  {
  }

  /** With non-negative weights, the clamped weighted sum keeps the order of the risks. */
  lemma WeightedMonotone(a1: real, a2: real, a3: real, b1: real, b2: real, b3: real, w: Weights)
    requires w.tickets >= 0.0 && w.activity >= 0.0 && w.mrr >= 0.0
    requires a1 <= b1 && a2 <= b2 && a3 <= b3
    ensures Combine(a1, a2, a3, w) <= Combine(b1, b2, b3, w)
  {
    var x1, x2, x3 := a1 * w.tickets, a2 * w.activity, a3 * w.mrr;
    var y1, y2, y3 := b1 * w.tickets, b2 * w.activity, b3 * w.mrr;
    MulMonotone(a1, b1, w.tickets);
    MulMonotone(a2, b2, w.activity);
    MulMonotone(a3, b3, w.mrr);
    assert x1 <= y1 && x2 <= y2 && x3 <= y3;
    SumMonotone(x1, x2, x3, y1, y2, y3);
    CombineSum(a1, a2, a3, w);
    CombineSum(b1, b2, b3, w);
  }

  lemma CombineSum(a1: real, a2: real, a3: real, w: Weights)
    ensures Combine(a1, a2, a3, w) == Clamp(0.0, 1.0, a1 * w.tickets + a2 * w.activity + a3 * w.mrr)
  {
  }

  /** Clamping a sum of three keeps the order of the summands. */
  lemma SumMonotone(a1: real, a2: real, a3: real, b1: real, b2: real, b3: real)
    requires a1 <= b1 && a2 <= b2 && a3 <= b3
    ensures Clamp(0.0, 1.0, a1 + a2 + a3) <= Clamp(0.0, 1.0, b1 + b2 + b3)
  {
  }

  lemma DefaultWeightsNonNegative()
    ensures var w := WeightsOf(NoWeights); w.tickets >= 0.0 && w.activity >= 0.0 && w.mrr >= 0.0
    ensures WeightsOf(NoWeights).tickets + WeightsOf(NoWeights).activity + WeightsOf(NoWeights).mrr == 1.0
  {
  }

  /** Three customers, from low to high risk, get non-decreasing estimates under the defaults. */
  lemma RiskOrdering()
    ensures var w := WeightsOf(NoWeights);
      Estimate(10000.0, 0.0, 1.0, w) <= Estimate(2000.0, 2.0, 10.0, w) <= Estimate(100.0, 8.0, 45.0, w)
  {
    DefaultWeightsNonNegative();
    Monotone(10000.0, 0.0, 1.0, 2000.0, 2.0, 10.0, WeightsOf(NoWeights));
    Monotone(2000.0, 2.0, 10.0, 100.0, 8.0, 45.0, WeightsOf(NoWeights));
  }
}
