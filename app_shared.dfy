/**
 * The client's 0-100 churn risk score: a churn probability, support tickets, days since the
 * last activity and MRR, each read with `parseFloat(v) || 0`, weighted 0.5 / 0.2 / 0.2 / 0.1,
 * scaled to 100 and clamped to [0, 100]. Tickets saturate at 10, inactivity at 60 days and
 * MRR at 2000.
 */
module AppShared {
  import opened Common
  import opened Js
  import opened Numbers
  import Dict

  /** `parseFloat(customer[key]) || 0`: NaN, and so every non-numeric value, counts as 0. */
  function Feature(customer: JsObject, key: string, pr: Printer): (x: real)
    ensures ParseFloat(Field(customer, key), pr).None? ==> x == 0.0
    ensures ParseFloat(Field(customer, key), pr).Some? ==> x == ParseFloat(Field(customer, key), pr).value
  {
    ParseFloat(Field(customer, key), pr).GetOr(0.0)
  }

  /** The score on the four numeric inputs. */
  function Score(prob: real, t: real, d: real, m: real): (s: real)
    ensures 0.0 <= s <= 100.0
  {
    var ticketRisk := Min(t / 10.0, 1.0);
    var activityRisk := Min(d / 60.0, 1.0);
    var mrrRisk := 1.0 - Min(m / 2000.0, 1.0);
    Clamp(0.0, 100.0, (prob * 0.5 + ticketRisk * 0.2 + activityRisk * 0.2 + mrrRisk * 0.1) * 100.0)
  }

  /** `calculateChurnRiskScore(customer)`: always within [0, 100]. */
  function RiskScore(customer: JsObject, pr: Printer): (s: real)
    ensures 0.0 <= s <= 100.0
  {
    Score(Feature(customer, "churnProbability", pr), Feature(customer, "supportTickets", pr),
          Feature(customer, "lastActivityDays", pr), Feature(customer, "MRR", pr))
  }

  // ---------------------------------------------------------------------------------------
  // Properties
  // ---------------------------------------------------------------------------------------

  /**
   * For a probability in [0, 1] and non-negative features the clamp never bites: the score is
   * exactly 50·prob + 20·ticketRisk + 20·activityRisk + 10·mrrRisk.
   */
  lemma ExactInRange(prob: real, t: real, d: real, m: real)
    requires 0.0 <= prob <= 1.0 && t >= 0.0 && d >= 0.0 && m >= 0.0
    ensures Score(prob, t, d, m)
         == 50.0 * prob + 20.0 * Min(t / 10.0, 1.0) + 20.0 * Min(d / 60.0, 1.0) + 10.0 * (1.0 - Min(m / 2000.0, 1.0))
  {
  }

  /** Tickets saturate at 10, inactivity at 60 days, and from MRR 2000 on the MRR component is 0. */
  lemma Saturation(prob: real, t: real, d: real, m: real)
    ensures t >= 10.0 ==> Score(prob, t, d, m) == Score(prob, 10.0, d, m)
    ensures d >= 60.0 ==> Score(prob, t, d, m) == Score(prob, t, 60.0, m)
    ensures m >= 2000.0 ==>
      Score(prob, t, d, m) == Clamp(0.0, 100.0, 50.0 * prob + 20.0 * Min(t / 10.0, 1.0) + 20.0 * Min(d / 60.0, 1.0))
  {
  }

  /** The score does not fall as probability, tickets or inactivity grow, nor rise as MRR grows. */
  lemma Monotone(prob: real, t: real, d: real, m: real, prob': real, t': real, d': real, m': real)
    requires prob <= prob' && t <= t' && d <= d' && m' <= m
    ensures Score(prob, t, d, m) <= Score(prob', t', d', m')
  {
  }

  /** Missing, null, boolean, NaN and object inputs all read as 0. */
  lemma NonNumericIsZero(customer: JsObject, key: string, pr: Printer)
    requires var v := Field(customer, key); v.JUndefined? || v.JNull? || v.JBool? || v.JNaN? || v.JObject?
    ensures Feature(customer, key, pr) == 0.0
  {
    var s := ToStr(Field(customer, key), pr);
    assert s[0] in "unftNl[";
    JsParseFloatLetter(s);
  }

  /** A key the customer does not have reads as 0. */
  lemma MissingIsZero(customer: JsObject, key: string, pr: Printer)
    requires key !in Dict.Keys(customer)
    ensures Feature(customer, key, pr) == 0.0
  {
    NonNumericIsZero(customer, key, pr);
  }
}
