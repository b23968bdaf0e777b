/**
 * The what-if page: the MRR-retention simulation over the enhanced customers, the split of
 * saved scenarios into the user's own and those shared by others, and scenario deletion.
 */
module WhatIf {
  import opened Common
  import opened Js
  import Dict
  import Lists
  import Scenarios

  type Customer = JsObject

  // ---------------------------------------------------------------------------------------
  // The simulation
  // ---------------------------------------------------------------------------------------

  /** The five numbers the page shows. */
  datatype SimResults = SimResults(
    currentTotalMRR: real,
    potentialMRRLoss: real,
    simulatedMRRLoss: real,
    projectedMRRSaved: real,
    targetCustomerCount: nat)

  /** `Number(c.MRR) || 0` and `Number(c.churnProbability) || 0`. */
  function Mrr(c: Customer): real { NumberOr0(Field(c, "MRR")) }

  function ChurnOf(c: Customer): real { NumberOr0(Field(c, "churnProbability")) }

  /** `selectedRiskLevel`, which defaults to `'All'` only when it is undefined. */
  function SelectedLevel(data: JsObject): JsValue {
    var v := Field(data, "selectedRiskLevel");
    if v.JUndefined? then JStr("All") else v
  }

  /** `selectedRiskLevel === 'All' || c.riskLevel === selectedRiskLevel`. */
  predicate IsTarget(c: Customer, level: JsValue) {
    StrictEquals(level, JStr("All")) || StrictEquals(Field(c, "riskLevel"), level)
  }

  function Targets(cs: seq<Customer>, level: JsValue): seq<Customer> {
    Lists.Filter(cs, c => IsTarget(c, level))
  }

  /** `Math.min(0.99, discount + support + campaign)`, each effect read with `Number(v) || 0`. */
  function Reduction(data: JsObject): (r: real)
    ensures r <= 0.99
  {
    Min(0.99, NumberOr0(Field(data, "discountEffect")) + NumberOr0(Field(data, "supportEffect"))
              + NumberOr0(Field(data, "campaignEffect")))
  }

  /** `mrr * churn`, and `mrr * Math.max(0, churn * (1 - reduction))`. */
  function Loss(m: real, p: real): real { m * p }

  function ReducedLoss(m: real, p: real, reduction: real): real { m * Max(0.0, p * (1.0 - reduction)) }

  function PotentialLoss(c: Customer): real { Loss(Mrr(c), ChurnOf(c)) }

  function SimulatedLoss(c: Customer, reduction: real): real { ReducedLoss(Mrr(c), ChurnOf(c), reduction) }

  function SimulatedLossAt(reduction: real): Customer -> real { c => SimulatedLoss(c, reduction) }

  /** `simulationResults`: zeros without customers; otherwise sums over the target customers. */
  function Simulate(cs: seq<Customer>, data: JsObject): (r: SimResults)
    ensures cs == [] ==> r == SimResults(0.0, 0.0, 0.0, 0.0, 0)
    ensures r.projectedMRRSaved == r.potentialMRRLoss - r.simulatedMRRLoss
  {
    if cs == [] then SimResults(0.0, 0.0, 0.0, 0.0, 0)
    else
      var ts := Targets(cs, SelectedLevel(data));
      var red := Reduction(data);
      var potential := Dict.SumBy(ts, PotentialLoss);
      var simulated := Dict.SumBy(ts, SimulatedLossAt(red));
      SimResults(Dict.SumBy(ts, Mrr), potential, simulated, potential - simulated, |ts|)
  }

  // ---------------------------------------------------------------------------------------
  // The owner split
  // ---------------------------------------------------------------------------------------

  /** `s.owner && s.owner.id ? s.owner.id : null`. */
  function OwnerId(s: Scenarios.Item): JsValue {
    var o := Field(s, "owner");
    if Truthy(o) && Truthy(Prop(o, "id")) then Prop(o, "id") else JNull
  }

  /** `s.owner && (s.owner.username || s.owner.name) ? … : (s.owner_name || null)`. */
  function OwnerName(s: Scenarios.Item): JsValue {
    var o := Field(s, "owner");
    var n := Or(Prop(o, "username"), Prop(o, "name"));
    if Truthy(o) && Truthy(n) then n else Or(Field(s, "owner_name"), JNull)
  }

  /** `user && user.id ? user.id : null`. */
  function UserId(user: JsValue): JsValue {
    if Truthy(user) && Truthy(Prop(user, "id")) then Prop(user, "id") else JNull
  }

  /** `user && (user.username || user.name) ? … : null`. */
  function UserName(user: JsValue): JsValue {
    var n := Or(Prop(user, "username"), Prop(user, "name"));
    if Truthy(user) && Truthy(n) then n else JNull
  }

  /** `a && b && a === b`. */
  predicate SameKnown(a: JsValue, b: JsValue) {
    Truthy(a) && Truthy(b) && StrictEquals(a, b)
  }

  /** The `myScenarios` filter. */
  predicate IsMine(s: Scenarios.Item, user: JsValue) {
    if !Truthy(Field(s, "serverId")) then true
    else if SameKnown(OwnerId(s), UserId(user)) then true
    else if SameKnown(OwnerName(s), UserName(user)) then true
    else false
  }

  /** The `shared` filter. */
  predicate IsShared(s: Scenarios.Item, user: JsValue) {
    if !Truthy(Field(s, "serverId")) then false
    else if !Truthy(OwnerId(s)) && !Truthy(OwnerName(s)) then false
    else if SameKnown(OwnerId(s), UserId(user)) then false
    else if SameKnown(OwnerName(s), UserName(user)) then false
    else true
  }

  function MyScenarios(saved: seq<Scenarios.Item>, user: JsValue): seq<Scenarios.Item> {
    Lists.Filter(saved, s => IsMine(s, user))
  }

  function SharedScenarios(saved: seq<Scenarios.Item>, user: JsValue): seq<Scenarios.Item> {
    Lists.Filter(saved, s => IsShared(s, user))
  }

  // ---------------------------------------------------------------------------------------
  // Deletion
  // ---------------------------------------------------------------------------------------

  /** `savedScenarios.filter(s => s.id !== id)`. */
  function Remaining(saved: seq<Scenarios.Item>, id: JsValue): seq<Scenarios.Item> {
    Lists.Filter(saved, s => !StrictEquals(Field(s, "id"), id))
  }

  /**
   * `deleteScenario(id)`: the page's list becomes the remaining scenarios, which are written to
   * storage (unless `setItem` throws, which is swallowed); the selection is cleared when it
   * was the deleted id.
   */
  method DeleteScenario(st: Scenarios.ScenarioStorage, saved: seq<Scenarios.Item>, selected: JsValue, id: JsValue,
                        writeFails: bool)
    returns (next: seq<Scenarios.Item>, selection: JsValue)
    modifies st
    ensures next == Remaining(saved, id)
    ensures st.slot == if writeFails then old(st.slot) else Scenarios.Items(next)
    ensures selection == if StrictEquals(selected, id) then JNull else selected
  {
    next := Remaining(saved, id);
    st.PersistScenarios(next, writeFails);
    selection := if StrictEquals(selected, id) then JNull else selected;
  }

  // ---------------------------------------------------------------------------------------
  // Properties
  // ---------------------------------------------------------------------------------------

  /**
   * The targets are the customers at the selected level, in their order, and all of them
   * for `'All'`; the count is their number.
   */
  lemma TargetsFacts(cs: seq<Customer>, data: JsObject, c: Customer)
    ensures var level := SelectedLevel(data);
      && (c in Targets(cs, level) <==> c in cs && IsTarget(c, level))
      && (level == JStr("All") ==> Targets(cs, level) == cs)
      && (cs != [] ==> Simulate(cs, data).targetCustomerCount == |Targets(cs, level)|)
  {
    var level := SelectedLevel(data);
    Lists.FilterMembers(cs, c0 => IsTarget(c0, level), c);
    Lists.FilterAll(cs, c0 => IsTarget(c0, level));
  }

  /** A customer outside the selected level changes none of the five results. */
  lemma NonTargetIgnored(cs: seq<Customer>, c: Customer, data: JsObject)
    requires cs != []
    requires !IsTarget(c, SelectedLevel(data))
    ensures Simulate(cs + [c], data) == Simulate(cs, data)
  {
    var level := SelectedLevel(data);
    Lists.FilterAppend(cs, [c], c0 => IsTarget(c0, level));
    assert Lists.Filter([c], c0 => IsTarget(c0, level)) == [];
    assert Targets(cs + [c], level) == Targets(cs, level);
  }

  /**
   * One customer's simulated loss: never below 1% of its potential loss (the reduction is at
   * most 0.99), never negative, and with non-negative effects never above the potential loss.
   */
  lemma LossBounds(m: real, p: real, reduction: real)
    requires m >= 0.0 && p >= 0.0 && reduction <= 0.99
    ensures 0.0 <= ReducedLoss(m, p, reduction)
    ensures 0.01 * Loss(m, p) <= ReducedLoss(m, p, reduction)
    ensures reduction >= 0.0 ==> ReducedLoss(m, p, reduction) <= Loss(m, p)
  {
    var q := p * (1.0 - reduction);
    MulMonotone(0.01, 1.0 - reduction, p);
    assert 0.01 * p <= q;
    MulNonNegative(0.01, p);
    assert Max(0.0, q) == q;
    MulMonotone(0.01 * p, q, m);
    MulNonNegative(q, m);
    assert 0.01 * (m * p) == (0.01 * p) * m;
    if reduction >= 0.0 {
      MulMonotone(1.0 - reduction, 1.0, p);
      MulMonotone(q, p, m);
    }
  }

  /** Per-element bounds between two quantities add up over a list. */
  lemma {:induction false} SumBounds(ts: seq<Customer>, f: Customer -> real, g: Customer -> real, below: bool)
    requires forall i :: 0 <= i < |ts| ==> 0.0 <= g(ts[i]) && 0.01 * f(ts[i]) <= g(ts[i]) && (below ==> g(ts[i]) <= f(ts[i]))
    ensures 0.0 <= Dict.SumBy(ts, g) && 0.01 * Dict.SumBy(ts, f) <= Dict.SumBy(ts, g)
    ensures below ==> Dict.SumBy(ts, g) <= Dict.SumBy(ts, f)
  {
    if ts != [] {
      assert forall i :: 0 <= i < |ts[1..]| ==> ts[1..][i] == ts[i + 1];
      SumBounds(ts[1..], f, g, below);
    }
  }

  /** Every target customer obeys the one-customer bounds. */
  lemma TargetBounds(cs: seq<Customer>, level: JsValue, red: real)
    requires red <= 0.99
    requires forall i :: 0 <= i < |cs| ==> Mrr(cs[i]) >= 0.0 && ChurnOf(cs[i]) >= 0.0
    ensures var ts := Targets(cs, level); var g := SimulatedLossAt(red);
      forall i :: 0 <= i < |ts| ==>
        0.0 <= g(ts[i]) && 0.01 * PotentialLoss(ts[i]) <= g(ts[i]) && (red >= 0.0 ==> g(ts[i]) <= PotentialLoss(ts[i]))
  {
    var ts := Targets(cs, level);
    forall i | 0 <= i < |ts|
      ensures 0.0 <= SimulatedLoss(ts[i], red) && 0.01 * PotentialLoss(ts[i]) <= SimulatedLoss(ts[i], red)
      ensures red >= 0.0 ==> SimulatedLoss(ts[i], red) <= PotentialLoss(ts[i])
    {
      Lists.FilterMembers(cs, c0 => IsTarget(c0, level), ts[i]);
      CustomerBounds(ts[i], red);
    }
  }

  lemma CustomerBounds(c: Customer, red: real)
    requires red <= 0.99 && Mrr(c) >= 0.0 && ChurnOf(c) >= 0.0
    ensures 0.0 <= SimulatedLoss(c, red) && 0.01 * PotentialLoss(c) <= SimulatedLoss(c, red)
    ensures red >= 0.0 ==> SimulatedLoss(c, red) <= PotentialLoss(c)
  {
    LossBounds(Mrr(c), ChurnOf(c), red);
  }

  /**
   * With non-negative MRR and churn, the simulated loss is non-negative and the savings are at
   * most 99% of the potential loss; when the effects are non-negative as well, the simulated
   * loss does not exceed the potential loss, so the projected savings are non-negative.
   */
  lemma SavedBounds(cs: seq<Customer>, data: JsObject)
    requires forall i :: 0 <= i < |cs| ==> Mrr(cs[i]) >= 0.0 && ChurnOf(cs[i]) >= 0.0
    ensures var r := Simulate(cs, data);
      && 0.0 <= r.simulatedMRRLoss
      && r.projectedMRRSaved <= 0.99 * r.potentialMRRLoss
      && (Reduction(data) >= 0.0 ==> 0.0 <= r.projectedMRRSaved && r.simulatedMRRLoss <= r.potentialMRRLoss)
  {
    if cs != [] {
      var ts := Targets(cs, SelectedLevel(data));
      var red := Reduction(data);
      TargetBounds(cs, SelectedLevel(data), red);
      SumBounds(ts, PotentialLoss, SimulatedLossAt(red), red >= 0.0);
    }
  }

  /**
   * The owner split: a local-only scenario is the user's and never shared; no scenario is in
   * both lists; a server scenario with no known owner is in neither; a server scenario is shared
   * exactly when its owner is known and it is not the user's.
   */
  lemma OwnerSplit(s: Scenarios.Item, user: JsValue)
    ensures !Truthy(Field(s, "serverId")) ==> IsMine(s, user) && !IsShared(s, user)
    ensures !(IsMine(s, user) && IsShared(s, user))
    ensures Truthy(Field(s, "serverId")) && !Truthy(OwnerId(s)) && !Truthy(OwnerName(s)) ==>
      !IsMine(s, user) && !IsShared(s, user)
    ensures Truthy(Field(s, "serverId")) ==>
      (IsShared(s, user) <==> (Truthy(OwnerId(s)) || Truthy(OwnerName(s))) && !IsMine(s, user))
  {
  }

  /** The two lists keep the order of the saved list, and no scenario appears in both. */
  lemma ListsDisjoint(saved: seq<Scenarios.Item>, user: JsValue, s: Scenarios.Item)
    ensures s in MyScenarios(saved, user) <==> s in saved && IsMine(s, user)
    ensures s in SharedScenarios(saved, user) <==> s in saved && IsShared(s, user)
    ensures !(s in MyScenarios(saved, user) && s in SharedScenarios(saved, user))
  {
    Lists.FilterMembers(saved, s0 => IsMine(s0, user), s);
    Lists.FilterMembers(saved, s0 => IsShared(s0, user), s);
    OwnerSplit(s, user);
  }

  /**
   * Deleting removes every scenario with that id and keeps every other one, in order; deleting
   * the same id again changes nothing.
   */
  lemma RemainingFacts(saved: seq<Scenarios.Item>, id: JsValue, s: Scenarios.Item)
    ensures s in Remaining(saved, id) <==> s in saved && !StrictEquals(Field(s, "id"), id)
    ensures Remaining(Remaining(saved, id), id) == Remaining(saved, id)
  {
    Lists.FilterMembers(saved, s0 => !StrictEquals(Field(s0, "id"), id), s);
    Lists.FilterTwice(saved, s0 => !StrictEquals(Field(s0, "id"), id));
  }
}
