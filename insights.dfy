/**
 * `compute_org_kpis(org, since)`: the organisation's subscriptions (from `since` on, when
 * given) become MRR records, which the ARR helpers turn into MRR/ARR totals and the top ten
 * customers.
 */
module Insights {
  import opened Common
  import opened Py
  import opened Text
  import opened Storage
  import Arr
  import Dict

  /** `top_customers_by_mrr(records, limit=10)`. */
  const TopLimit: int := 10

  /** `{'kpis': {...}, 'top_customers': [...]}`. */
  datatype OrgKpis = OrgKpis(kpis: Arr.Kpis, top: seq<(string, real)>)

  const ZeroKpis: OrgKpis := OrgKpis(Arr.Kpis(0.0, 0.0), [])

  /** `filter(customer__org=org)` and, with `since`, `filter(start_date__gte=since)`; SQL drops a NULL start date. */
  predicate Counted(customers: seq<Customer>, s: Subscription, org: nat, since: Option<Date>) {
    && s.customer < |customers| && customers[s.customer].org == org
    && (since.Some? ==> s.startDate.Some? && DateLe(since.value, s.startDate.value))
  }

  /**
   * `float(s.mrr or 0)`, then `float(str(s.mrr))`, then `0.0`: each step runs only when the
   * one before raises, so the chain always yields a number.
   */
  function CoerceMrr(v: PyValue, floatRepr: real -> string): real {
    match FloatOr0(v)
    case Some(x) => x
    case None =>
      match Float(PStr(Str(v, floatRepr)))
      case Some(x) => x
      case None => 0.0
  }

  /** A stored amount is a number, so the first step already succeeds and keeps its value. */
  lemma CoerceStoredMrr(m: real, floatRepr: real -> string)
    ensures CoerceMrr(PFloat(m), floatRepr) == m
  {
  }

  /** For a text amount the chain ends in the parsed number, or in 0.0 when the text does not parse. */
  lemma CoerceText(t: string, floatRepr: real -> string)
    ensures t == "" ==> CoerceMrr(PStr(t), floatRepr) == 0.0
    ensures t != "" ==> CoerceMrr(PStr(t), floatRepr) == Numbers.PyFloat(t).GetOr(0.0)
  {
  }

  /** `s.customer.external_id or s.customer.name or str(s.customer.pk)`. */
  function CustomerKey(c: Customer, pk: nat): (k: string)
    ensures k != ""
    ensures c.externalId.Some? && c.externalId.value != "" ==> k == c.externalId.value
    ensures (c.externalId.None? || c.externalId.value == "") && c.name != "" ==> k == c.name
    ensures (c.externalId.None? || c.externalId.value == "") && c.name == "" ==> k == IntToString(pk)
  {
    var eid := if c.externalId.Some? then PStr(c.externalId.value) else PNone;
    match Or(eid, Or(PStr(c.name), PStr(IntToString(pk))))
    case PStr(s) => s
    case _ => assert false; ""
  }

  /** The record appended for one subscription. */
  function RecordOf(customers: seq<Customer>, s: Subscription, floatRepr: real -> string): Arr.Record
    requires s.customer < |customers|
  {
    [("customer_id", PStr(CustomerKey(customers[s.customer], s.customer))), ("mrr", PFloat(CoerceMrr(PFloat(s.mrr), floatRepr)))]
  }

  /** The `records` list after the loop over the subscriptions `subs`, in table order. */
  function OrgRecords(customers: seq<Customer>, subs: seq<Subscription>, org: nat, since: Option<Date>, floatRepr: real -> string):
    seq<Arr.Record>
  {
    if subs == [] then []
    else
      var rs := OrgRecords(customers, subs[..|subs| - 1], org, since, floatRepr);
      var s := subs[|subs| - 1];
      if Counted(customers, s, org, since) then rs + [RecordOf(customers, s, floatRepr)] else rs
  }

  /** What `compute_org_kpis` returns; `readFails` says whether the database raises while reading. */
  function Kpis(db: Db, org: nat, since: Option<Date>, readFails: bool, floatRepr: real -> string): OrgKpis {
    if readFails then ZeroKpis
    else
      var rs := OrgRecords(db.customers, db.subscriptions, org, since, floatRepr);
      if rs == [] then ZeroKpis
      else OrgKpis(Arr.Kpis(Arr.TotalMrr(rs), 12.0 * Arr.TotalMrr(rs)), Arr.Top(rs, TopLimit, floatRepr))
  }

  /** `compute_org_kpis(org, since)`. */
  method ComputeOrgKpis(store: Store, org: nat, since: Option<Date>, readFails: bool, floatRepr: real -> string)
    returns (res: OrgKpis)
    ensures res == Kpis(store.Snapshot(), org, since, readFails, floatRepr)
  {
    if readFails {
      return ZeroKpis;
    }
    var subs := store.subscriptions;
    var customers := store.customers;
    var records: seq<Arr.Record> := [];
    for i := 0 to |subs|
      invariant records == OrgRecords(customers, subs[..i], org, since, floatRepr)
    {
      assert subs[..i + 1][..i] == subs[..i];
      var s := subs[i];
      if s.customer < |customers| && customers[s.customer].org == org
         && (since.None? || (s.startDate.Some? && DateLe(since.value, s.startDate.value))) {
        var mrrVal := CoerceMrr(PFloat(s.mrr), floatRepr);
        var cid := CustomerKey(customers[s.customer], s.customer);
        records := records + [[("customer_id", PStr(cid)), ("mrr", PFloat(mrrVal))]];
      }
    }
    assert subs[..|subs|] == subs;
    if records == [] {
      return ZeroKpis;
    }
    var kpis := Arr.ComputeMrrAndArr(records);
    var tops := Arr.TopCustomersByMrr(records, TopLimit, floatRepr);
    res := OrgKpis(kpis, tops);
  }

  // ---------------------------------------------------------------------------------------
  // Properties
  // ---------------------------------------------------------------------------------------

  /** The MRR of the counted subscriptions, summed directly over the table. */
  function CountedMrr(customers: seq<Customer>, subs: seq<Subscription>, org: nat, since: Option<Date>): real {
    if subs == [] then 0.0
    else
      var s := subs[|subs| - 1];
      CountedMrr(customers, subs[..|subs| - 1], org, since) + (if Counted(customers, s, org, since) then s.mrr else 0.0)
  }

  /** The number of counted subscriptions. */
  function CountedCount(customers: seq<Customer>, subs: seq<Subscription>, org: nat, since: Option<Date>): nat {
    if subs == [] then 0
    else
      var s := subs[|subs| - 1];
      CountedCount(customers, subs[..|subs| - 1], org, since) + (if Counted(customers, s, org, since) then 1 else 0)
  }

  /** One record per counted subscription, and their MRR is the counted subscriptions' MRR. */
  lemma {:induction false} OrgRecordsFacts(customers: seq<Customer>, subs: seq<Subscription>, org: nat, since: Option<Date>, floatRepr: real -> string)
    ensures |OrgRecords(customers, subs, org, since, floatRepr)| == CountedCount(customers, subs, org, since)
    ensures Arr.TotalMrr(OrgRecords(customers, subs, org, since, floatRepr)) == CountedMrr(customers, subs, org, since)
  {
    if subs != [] {
      var p := subs[..|subs| - 1];
      var s := subs[|subs| - 1];
      OrgRecordsFacts(customers, p, org, since, floatRepr);
      var rs := OrgRecords(customers, p, org, since, floatRepr);
      if Counted(customers, s, org, since) {
        var r := RecordOf(customers, s, floatRepr);
        assert (rs + [r])[..|rs + [r]| - 1] == rs;
        RecordMrr(customers, s, floatRepr);
      }
    }
  }

  /** A record contributes its subscription's amount. */
  lemma RecordMrr(customers: seq<Customer>, s: Subscription, floatRepr: real -> string)
    requires s.customer < |customers|
    ensures Arr.Contribution(RecordOf(customers, s, floatRepr)) == s.mrr
  {
    var r := RecordOf(customers, s, floatRepr);
    CoerceStoredMrr(s.mrr, floatRepr);
    assert r[1..] == [("mrr", PFloat(s.mrr))];
    assert Dict.Get(r[1..], "mrr") == Some(PFloat(s.mrr));
    assert Dict.Get(r, "mrr") == Some(PFloat(s.mrr));
  }

  /**
   * Only the organisation's subscriptions count: the MRR is the sum of their amounts (from
   * `since` on), ARR is twelve times it, and no subscription at all gives zero KPIs.
   */
  lemma KpisAreOrgMrr(db: Db, org: nat, since: Option<Date>, floatRepr: real -> string)
    ensures var k := Kpis(db, org, since, false, floatRepr).kpis;
      k.mrr == CountedMrr(db.customers, db.subscriptions, org, since) && k.arr == 12.0 * k.mrr
    ensures CountedCount(db.customers, db.subscriptions, org, since) == 0 ==> Kpis(db, org, since, false, floatRepr) == ZeroKpis
  {
    OrgRecordsFacts(db.customers, db.subscriptions, org, since, floatRepr);
  }

  /** A subscription of another organisation, or one started before `since`, changes nothing. */
  lemma UncountedIgnored(db: Db, s: Subscription, org: nat, since: Option<Date>, readFails: bool, floatRepr: real -> string)
    requires !Counted(db.customers, s, org, since)
    ensures Kpis(db.(subscriptions := db.subscriptions + [s]), org, since, readFails, floatRepr) == Kpis(db, org, since, readFails, floatRepr)
  {
    var subs := db.subscriptions + [s];
    assert subs[..|subs| - 1] == db.subscriptions;
  }

  /** `since` only ever removes subscriptions: one without a start date never counts under it. */
  lemma SinceFilters(customers: seq<Customer>, s: Subscription, org: nat, since: Date)
    ensures Counted(customers, s, org, Some(since)) ==> Counted(customers, s, org, None)
    ensures s.startDate.None? ==> !Counted(customers, s, org, Some(since))
    ensures s.startDate.Some? ==> (Counted(customers, s, org, Some(since)) <==> Counted(customers, s, org, None) && DateLe(since, s.startDate.value))
  {
  }

  /** A failing read degrades to zero KPIs and no top customers. */
  lemma ReadFailureIsZero(db: Db, org: nat, since: Option<Date>, floatRepr: real -> string)
    ensures Kpis(db, org, since, true, floatRepr) == OrgKpis(Arr.Kpis(0.0, 0.0), [])
  {
  }

  /** The top list has at most ten entries, sorted by summed MRR, largest first. */
  lemma TopIsBounded(db: Db, org: nat, since: Option<Date>, readFails: bool, floatRepr: real -> string)
    ensures |Kpis(db, org, since, readFails, floatRepr).top| <= 10
    ensures Dict.SortedDesc(Kpis(db, org, since, readFails, floatRepr).top, Dict.Snd)
  {
    var rs := OrgRecords(db.customers, db.subscriptions, org, since, floatRepr);
    Arr.TopFacts(rs, TopLimit, floatRepr);
  }
}
