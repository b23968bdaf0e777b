/**
 * `import_single_upload`: decode an upload's bytes, normalize them, get or create one customer
 * per record and write one subscription per record in chunks, retrying each chunk on
 * transient `OperationalError`s.
 */
module Importer {
  import opened Common
  import opened Py
  import Dict
  import opened Storage
  import opened Utf8
  import Normalize

  /** `chunk_size`. */
  const ChunkSize: nat := 200

  /** `retries > 6` raises, so a chunk is attempted at most seven times. */
  const BulkAttempts: nat := 7

  /** How a call ends: the count it returns, or the exception that escapes it. */
  datatype Returned = Returned(count: int) | Raised(e: Exc)

  // ---------------------------------------------------------------------------------------
  // Records to subscriptions
  // ---------------------------------------------------------------------------------------

  /** `r.get('customer_id') or None`: an empty id is no id. */
  function CustomerIdOf(r: Normalize.NormRecord): (eid: Option<string>)
    ensures eid.Some? ==> eid.value != "" && eid == r.customerId
    ensures r.customerId.Some? && r.customerId.value != "" ==> eid == r.customerId
  {
    if r.customerId.Some? && r.customerId.value != "" then r.customerId else None
  }

  /** `name or (cid or '')`, with the CharField's `str` of a non-string name. */
  function DefaultName(r: Normalize.NormRecord, floatRepr: real -> string): (name: string)
    ensures !Truthy(Dict.Get(r.raw, "name").GetOr(PNone)) ==> name == CustomerIdOf(r).GetOr("")
  {
    var nm := Dict.Get(r.raw, "name").GetOr(PNone);
    if Truthy(nm) then Str(nm, floatRepr) else CustomerIdOf(r).GetOr("")
  }

  /** The unsaved `Subscription(customer, mrr=r['mrr'] or 0, start_date=signup_date, source_upload)`. */
  function SubscriptionOf(r: Normalize.NormRecord, customer: nat, upload: nat): Subscription {
    Subscription(customer, r.mrr, r.signupDate, Some(upload))
  }

  /** The customer rows and the pending subscriptions after the record loop, or the exception that stops it. */
  datatype Built = Built(customers: seq<Customer>, subs: seq<Subscription>) | BuildFailed(customers: seq<Customer>, e: Exc)

  function Build(cs: seq<Customer>, org: nat, upload: nat, recs: seq<Normalize.NormRecord>, floatRepr: real -> string): Built
    decreases |recs|
  {
    if recs == [] then Built(cs, [])
    else match Build(cs, org, upload, recs[..|recs| - 1], floatRepr)
      case BuildFailed(c, e) => BuildFailed(c, e)
      case Built(c, subs) =>
        var r := recs[|recs| - 1];
        match GetOrCreate(c, org, CustomerIdOf(r), DefaultName(r, floatRepr))
        case GetFailed(e) => BuildFailed(c, e)
        case Got(c', pk) => Built(c', subs + [SubscriptionOf(r, pk, upload)])
  }

  /**
   * One subscription per record, in order, for this upload, carrying the record's mrr and
   * signup date and pointing at a customer of the upload's org with the record's id; the
   * customers already stored are kept as they were, and unique keys stay unique.
   */
  lemma {:induction false} BuildFacts(cs: seq<Customer>, org: nat, upload: nat, recs: seq<Normalize.NormRecord>, floatRepr: real -> string)
    ensures UniqueKeys(cs) ==> Build(cs, org, upload, recs, floatRepr).Built?
    ensures cs <= Build(cs, org, upload, recs, floatRepr).customers
    ensures UniqueKeys(cs) ==> UniqueKeys(Build(cs, org, upload, recs, floatRepr).customers)
    ensures Build(cs, org, upload, recs, floatRepr).Built? ==>
      var b := Build(cs, org, upload, recs, floatRepr);
      && |b.subs| == |recs|
      && forall i :: 0 <= i < |recs| ==>
        && b.subs[i].mrr == recs[i].mrr && b.subs[i].startDate == recs[i].signupDate
        && b.subs[i].sourceUpload == Some(upload)
        && b.subs[i].customer < |b.customers|
        && KeyMatches(b.customers[b.subs[i].customer], org, CustomerIdOf(recs[i]))
    decreases |recs|
  {
    if recs != [] {
      var n := |recs| - 1;
      var p := recs[..n];
      BuildFacts(cs, org, upload, p, floatRepr);
      var bp := Build(cs, org, upload, p, floatRepr);
      assert recs[..n + 1] == recs;
      if bp.Built? {
        var r := recs[n];
        BuildStep(cs, org, upload, recs, floatRepr, n, bp.customers, bp.subs);
        GetOrCreateFacts(bp.customers, org, CustomerIdOf(r), DefaultName(r, floatRepr));
        var g := GetOrCreate(bp.customers, org, CustomerIdOf(r), DefaultName(r, floatRepr));
        if g.Got? {
          var b := Build(cs, org, upload, recs, floatRepr);
          assert b == Built(g.customers, bp.subs + [SubscriptionOf(r, g.pk, upload)]);
          SubsSnoc(recs, org, upload, bp.customers, bp.subs, g.customers, g.pk);
        }
      }
    }
  }

  /** The subscriptions of the earlier records stay right when the customer rows grow and the last record's subscription is added. */
  lemma SubsSnoc(recs: seq<Normalize.NormRecord>, org: nat, upload: nat,
                 c: seq<Customer>, subs: seq<Subscription>, c': seq<Customer>, pk: nat)
    requires recs != [] && |subs| == |recs| - 1 && c <= c'
    requires pk < |c'| && KeyMatches(c'[pk], org, CustomerIdOf(recs[|recs| - 1]))
    requires forall i :: 0 <= i < |subs| ==>
      && subs[i].mrr == recs[i].mrr && subs[i].startDate == recs[i].signupDate
      && subs[i].sourceUpload == Some(upload)
      && subs[i].customer < |c|
      && KeyMatches(c[subs[i].customer], org, CustomerIdOf(recs[i]))
    ensures var s := subs + [SubscriptionOf(recs[|recs| - 1], pk, upload)];
      forall i :: 0 <= i < |recs| ==>
        && s[i].mrr == recs[i].mrr && s[i].startDate == recs[i].signupDate
        && s[i].sourceUpload == Some(upload)
        && s[i].customer < |c'|
        && KeyMatches(c'[s[i].customer], org, CustomerIdOf(recs[i]))
  {
    var s := subs + [SubscriptionOf(recs[|recs| - 1], pk, upload)];
    forall i | 0 <= i < |recs|
      ensures s[i].customer < |c'| && KeyMatches(c'[s[i].customer], org, CustomerIdOf(recs[i]))
    {
      if i < |subs| {
        assert s[i] == subs[i];
        assert c[subs[i].customer] == c'[subs[i].customer];
      }
    }
  }

  /**
   * Importing the same records again, into the rows the first import left, creates no
   * customer: every lookup finds the row the first import used or made.
   */
  lemma {:induction false} BuildAgainReuses(cs: seq<Customer>, org: nat, u1: nat, u2: nat, recs: seq<Normalize.NormRecord>, floatRepr: real -> string)
    requires UniqueKeys(cs)
    ensures var b := Build(cs, org, u1, recs, floatRepr);
      Build(b.customers, org, u2, recs, floatRepr).customers == b.customers
  {
    BuildFacts(cs, org, u1, recs, floatRepr);
    var b := Build(cs, org, u1, recs, floatRepr);
    forall i | 0 <= i < |recs|
      ensures Known(b.customers, org, CustomerIdOf(recs[i]))
    {
      assert KeyMatches(b.customers[b.subs[i].customer], org, CustomerIdOf(recs[i]));
    }
    BuildOverKnown(b.customers, org, u2, recs, floatRepr);
  }

  /** Some customer row has the key `(org, eid)`. */
  ghost predicate Known(cs: seq<Customer>, org: nat, eid: Option<string>) {
    exists k :: 0 <= k < |cs| && KeyMatches(cs[k], org, eid)
  }

  /** When every record's key already has a row, building leaves the rows unchanged. */
  lemma {:induction false} BuildOverKnown(cs: seq<Customer>, org: nat, upload: nat, recs: seq<Normalize.NormRecord>, floatRepr: real -> string)
    requires UniqueKeys(cs)
    requires forall i :: 0 <= i < |recs| ==> Known(cs, org, CustomerIdOf(recs[i]))
    ensures Build(cs, org, upload, recs, floatRepr).customers == cs
    decreases |recs|
  {
    if recs != [] {
      var p := recs[..|recs| - 1];
      forall i | 0 <= i < |p|
        ensures Known(cs, org, CustomerIdOf(p[i]))
      {
        assert p[i] == recs[i];
      }
      BuildOverKnown(cs, org, upload, p, floatRepr);
      BuildFacts(cs, org, upload, p, floatRepr);
      var r := recs[|recs| - 1];
      GetOrCreateFacts(cs, org, CustomerIdOf(r), DefaultName(r, floatRepr));
    }
  }

  // ---------------------------------------------------------------------------------------
  // Chunked writes
  // ---------------------------------------------------------------------------------------

  /** The consecutive batches `subs_to_create[i:i + chunk_size]`. */
  function Chunks<T>(subs: seq<T>): (cs: seq<seq<T>>)
    decreases |subs|
  {
    if subs == [] then [] else [subs[..MinInt(ChunkSize, |subs|)]] + Chunks(subs[MinInt(ChunkSize, |subs|)..])
  }

  function Flatten<T>(xs: seq<seq<T>>): seq<T> {
    if xs == [] then [] else xs[0] + Flatten(xs[1..])
  }

  /** The batches cover the list in order; each is non-empty and at most 200 long, and all but the last exactly 200. */
  lemma {:induction false} ChunksFacts<T>(subs: seq<T>)
    ensures Flatten(Chunks(subs)) == subs
    ensures forall k :: 0 <= k < |Chunks(subs)| ==> 0 < |Chunks(subs)[k]| <= ChunkSize
    ensures forall k :: 0 <= k < |Chunks(subs)| - 1 ==> |Chunks(subs)[k]| == ChunkSize
    decreases |subs|
  {
    if subs != [] {
      var n := MinInt(ChunkSize, |subs|);
      ChunksFacts(subs[n..]);
      var cs := Chunks(subs);
      assert cs[1..] == Chunks(subs[n..]);
      assert subs[..n] + subs[n..] == subs;
      forall k | 0 <= k < |cs| - 1
        ensures |cs[k]| == ChunkSize
      {
        if k == 0 {
          assert |Chunks(subs[n..])| > 0;
        } else {
          assert cs[k] == Chunks(subs[n..])[k - 1];
        }
      }
    }
  }

  /** How the write loop ends: the count of written subscriptions, the exception if one escaped, and the oracle left. */
  datatype Written = Written(count: nat, exc: Option<Exc>, rest: seq<Outcome>)

  function WriteChunks(subs: seq<Subscription>, faults: seq<Outcome>): (w: Written)
    ensures w.count <= |subs|
    decreases |subs|
  {
    if subs == [] then Written(0, None, faults)
    else
      var n := MinInt(ChunkSize, |subs|);
      var a := Retry(faults, 0, BulkAttempts);
      match a.outcome
      case Fail(e) => Written(0, Some(e), a.rest)
      case Ok =>
        var w := WriteChunks(subs[n..], a.rest);
        Written(n + w.count, w.exc, w.rest)
  }

  /**
   * Every subscription is written when no exception escapes; otherwise only whole chunks are
   * counted, fewer than all; with no failures to meet, everything is written.
   */
  lemma {:induction false} WriteChunksFacts(subs: seq<Subscription>, faults: seq<Outcome>)
    ensures WriteChunks(subs, faults).exc.None? ==> WriteChunks(subs, faults).count == |subs|
    ensures WriteChunks(subs, faults).exc.Some? ==>
      WriteChunks(subs, faults).count % ChunkSize == 0 && WriteChunks(subs, faults).count < |subs|
    ensures faults == [] ==> WriteChunks(subs, faults) == Written(|subs|, None, [])
    decreases |subs|
  {
    if subs != [] {
      var n := MinInt(ChunkSize, |subs|);
      var a := Retry(faults, 0, BulkAttempts);
      RetryFacts(faults, 0, BulkAttempts);
      WriteChunksFacts(subs[n..], a.rest);
    }
  }

  /** An `OperationalError` escapes only after seven in a row, all met by one chunk. */
  lemma ChunkGivesUpAfterSeven(faults: seq<Outcome>)
    ensures var a := Retry(faults, 0, BulkAttempts);
      IsOperational(a.outcome) ==> |faults| - |a.rest| == 7 && forall j :: 0 <= j < 7 ==> IsOperational(faults[j])
  {
    RetryFacts(faults, 0, BulkAttempts);
  }

  /** The loop after `i` subscriptions: what is still to come, counted from the start. */
  function Shifted(i: nat, w: Written): Written {
    w.(count := i + w.count)
  }

  /** One chunk: `bulk_create` retried while it meets `OperationalError`, at most seven times. */
  method WriteBatch(store: Store, batch: seq<Subscription>) returns (o: Outcome)
    modifies store
    ensures var a := Retry(old(store.faults), 0, BulkAttempts);
      && o == a.outcome
      && store.Snapshot() == old(store.Snapshot()).(
        subscriptions := if o.Ok? then old(store.subscriptions) + batch else old(store.subscriptions),
        faults := a.rest)
  {
    ghost var fc := store.faults;
    var retries := 0;
    while true
      invariant 0 <= retries < BulkAttempts
      invariant Retry(store.faults, retries, BulkAttempts) == Retry(fc, 0, BulkAttempts)
      invariant store.Snapshot() == old(store.Snapshot()).(faults := store.faults)
      decreases BulkAttempts - retries
    {
      o := store.BulkCreate(batch);
      if o.Ok? || o.e.kind != OperationalError {
        return;
      }
      retries := retries + 1;
      if retries > 6 {
        return;
      }
    }
  }

  /** One turn of the write loop. */
  lemma WriteStep(subs: seq<Subscription>, i: nat, f: seq<Outcome>)
    requires i < |subs|
    ensures var n := MinInt(ChunkSize, |subs| - i);
      var a := Retry(f, 0, BulkAttempts);
      WriteChunks(subs[i..], f) ==
        if a.outcome.Fail? then Written(0, Some(a.outcome.e), a.rest) else Shifted(n, WriteChunks(subs[i + n..], a.rest))
  {
    var n := MinInt(ChunkSize, |subs| - i);
    assert subs[i..][n..] == subs[i + n..];
  }

  /** One turn of the write loop: the chunk starting at `i`, written with retries. */
  method WriteTurn(store: Store, subs: seq<Subscription>, i: nat) returns (o: Outcome, n: nat)
    requires i < |subs|
    modifies store
    ensures n == MinInt(ChunkSize, |subs| - i) && i + n <= |subs|
    ensures var a := Retry(old(store.faults), 0, BulkAttempts); o == a.outcome && store.faults == a.rest
    ensures WriteChunks(subs[i..], old(store.faults)) ==
      if o.Fail? then Written(0, Some(o.e), store.faults) else Shifted(n, WriteChunks(subs[i + n..], store.faults))
    ensures store.Snapshot() == old(store.Snapshot()).(
      subscriptions := if o.Ok? then old(store.subscriptions) + subs[i..i + n] else old(store.subscriptions),
      faults := store.faults)
  {
    n := MinInt(ChunkSize, |subs| - i);
    WriteStep(subs, i, store.faults);
    o := WriteBatch(store, subs[i..i + n]);
  }

  /** The write loop over `subs_to_create`. */
  method WriteBatches(store: Store, subs: seq<Subscription>) returns (created: nat, exc: Option<Exc>)
    modifies store
    ensures var w := WriteChunks(subs, old(store.faults));
      && created == w.count && exc == w.exc
      && store.Snapshot() == old(store.Snapshot()).(subscriptions := old(store.subscriptions) + subs[..w.count], faults := w.rest)
  {
    ghost var f0 := store.faults;
    ghost var s0 := store.subscriptions;
    created := 0;
    var i := 0;
    while i < |subs|
      invariant i <= |subs| && created == i
      invariant store.Snapshot() == old(store.Snapshot()).(subscriptions := s0 + subs[..i], faults := store.faults)
      invariant WriteChunks(subs, f0) == Shifted(i, WriteChunks(subs[i..], store.faults))
      decreases |subs| - i
    {
      ghost var fi := store.faults;
      var o, n := WriteTurn(store, subs, i);
      if o.Fail? {
        assert WriteChunks(subs[i..], fi) == Written(0, Some(o.e), store.faults);
        assert WriteChunks(subs, f0) == Written(i, Some(o.e), store.faults);
        return created, Some(o.e);
      }
      assert WriteChunks(subs[i..], fi) == Shifted(n, WriteChunks(subs[i + n..], store.faults));
      assert WriteChunks(subs, f0) == Shifted(i + n, WriteChunks(subs[i + n..], store.faults));
      PrefixSlice(subs, i, i + n);
      AppendAssoc(s0, subs[..i], subs[i..i + n]);
      created := created + n;
      i := i + n;
    }
    assert subs[..|subs|] == subs;
    exc := None;
  }

  // ---------------------------------------------------------------------------------------
  // The whole import
  // ---------------------------------------------------------------------------------------

  /** The records an upload's bytes normalize to. */
  function RecordsOf(bytes: seq<byte>, sampleLines: Option<int>, pd: Normalize.Pandas): seq<Normalize.NormRecord> {
    Normalize.Normalized(DecodeIgnore(bytes), sampleLines, pd)
  }

  /** The rows after importing the normalized records `recs` of upload `u`, and how it ends. */
  function ImportRecords(db: Db, u: Upload, recs: seq<Normalize.NormRecord>, floatRepr: real -> string): (Db, Returned) {
    match Build(db.customers, u.org, u.id, recs, floatRepr)
    case BuildFailed(cs, e) => (db.(customers := cs), Raised(e))
    case Built(cs, subs) =>
      var w := WriteChunks(subs, db.faults);
      (db.(customers := cs, subscriptions := db.subscriptions + subs[..w.count], faults := w.rest),
       if w.exc.Some? then Raised(w.exc.value) else Returned(w.count))
  }

  /** The rows after `import_single_upload(upload, sample_lines)`, and how it ends. */
  function Import(db: Db, upload: Option<Upload>, sampleLines: Option<int>, pd: Normalize.Pandas): (Db, Returned) {
    if upload.None? || !upload.value.file.Stored? then (db, Returned(0))
    else ImportRecords(db, upload.value, RecordsOf(upload.value.file.bytes, sampleLines, pd), pd.floatRepr)
  }

  /** The record loop: get or create each record's customer and queue its subscription. */
  method BuildSubscriptions(store: Store, org: nat, upload: nat, recs: seq<Normalize.NormRecord>, floatRepr: real -> string)
    returns (b: Built)
    modifies store
    ensures b == Build(old(store.customers), org, upload, recs, floatRepr)
    ensures store.Snapshot() == old(store.Snapshot()).(customers := b.customers)
  {
    ghost var cs0 := store.customers;
    var subsToCreate: seq<Subscription> := [];
    for i := 0 to |recs|
      invariant Build(cs0, org, upload, recs[..i], floatRepr) == Built(store.customers, subsToCreate)
      invariant store.Snapshot() == old(store.Snapshot()).(customers := store.customers)
    {
      label Body:
      var rec := recs[i];
      var g := store.GetOrCreateCustomer(org, CustomerIdOf(rec), DefaultName(rec, floatRepr));
      BuildStep(cs0, org, upload, recs, floatRepr, i, old@Body(store.customers), subsToCreate);
      match g {
        case GetFailed(e) =>
          b := BuildFailed(store.customers, e);
          BuildStopped(cs0, org, upload, recs, floatRepr, i + 1);
          return;
        case Got(_, pk) =>
          subsToCreate := subsToCreate + [SubscriptionOf(rec, pk, upload)];
      }
    }
    assert recs[..|recs|] == recs;
    b := Built(store.customers, subsToCreate);
  }

  /** `import_single_upload(upload, sample_lines)`. */
  method ImportSingleUpload(store: Store, upload: Option<Upload>, sampleLines: Option<int>, pd: Normalize.Pandas)
    returns (r: Returned)
    modifies store
    ensures (store.Snapshot(), r) == Import(old(store.Snapshot()), upload, sampleLines, pd)
  {
    if upload.None? || upload.value.file.NoFile? {
      return Returned(0);
    }
    var u := upload.value;
    if u.file.Unreadable? {
      return Returned(0);
    }
    var raw := DecodeIgnore(u.file.bytes);
    var recs := Normalize.NormalizeCsvText(raw, sampleLines, pd);
    ghost var db0 := store.Snapshot();
    var b := BuildSubscriptions(store, u.org, u.id, recs, pd.floatRepr);
    if b.BuildFailed? {
      return Raised(b.e);
    }
    var created, exc := WriteBatches(store, b.subs);
    if exc.Some? {
      r := Raised(exc.value);
    } else {
      r := Returned(created);
    }
    assert (store.Snapshot(), r) == ImportRecords(db0, u, recs, pd.floatRepr);
  }

  /** One turn of the record loop. */
  lemma BuildStep(cs: seq<Customer>, org: nat, upload: nat, recs: seq<Normalize.NormRecord>, floatRepr: real -> string,
                  i: nat, c: seq<Customer>, subs: seq<Subscription>)
    requires i < |recs| && Build(cs, org, upload, recs[..i], floatRepr) == Built(c, subs)
    ensures Build(cs, org, upload, recs[..i + 1], floatRepr) ==
      match GetOrCreate(c, org, CustomerIdOf(recs[i]), DefaultName(recs[i], floatRepr))
      case GetFailed(e) => BuildFailed(c, e)
      case Got(c', pk) => Built(c', subs + [SubscriptionOf(recs[i], pk, upload)])
  {
    assert recs[..i + 1][..i] == recs[..i];
  }

  /** Once the record loop has failed, the later records change nothing. */
  lemma {:induction false} BuildStopped(cs: seq<Customer>, org: nat, upload: nat, recs: seq<Normalize.NormRecord>, floatRepr: real -> string, k: nat)
    requires k <= |recs| && Build(cs, org, upload, recs[..k], floatRepr).BuildFailed?
    ensures Build(cs, org, upload, recs, floatRepr) == Build(cs, org, upload, recs[..k], floatRepr)
    decreases |recs| - k
  {
    if k < |recs| {
      assert recs[..k + 1][..k] == recs[..k];
      BuildStopped(cs, org, upload, recs, floatRepr, k + 1);
    } else {
      assert recs[..k] == recs;
    }
  }

  /**
   * When no exception escapes, one subscription per record is appended and their number
   * returned, and nothing but customers, subscriptions and the oracle changes; with unique
   * customer keys and no failures to meet, that is always how it ends.
   */
  lemma ImportRecordsFacts(db: Db, u: Upload, recs: seq<Normalize.NormRecord>, floatRepr: real -> string)
    ensures var (after, r) := ImportRecords(db, u, recs, floatRepr);
      && after.uploads == db.uploads && after.automations == db.automations && after.executions == db.executions
      && db.subscriptions <= after.subscriptions
      && db.customers <= after.customers
      && (r.Returned? ==> r.count == |recs| && |after.subscriptions| == |db.subscriptions| + |recs|)
      && (r.Raised? ==> |after.subscriptions| < |db.subscriptions| + |recs|)
      && (UniqueKeys(db.customers) && db.faults == [] ==> r == Returned(|recs|))
      && (db.faults == [] ==> after.faults == [])
  {
    BuildFacts(db.customers, u.org, u.id, recs, floatRepr);
    match Build(db.customers, u.org, u.id, recs, floatRepr)
    case BuildFailed(cs, e) =>
    case Built(cs, subs) =>
      WriteChunksFacts(subs, db.faults);
      assert subs[..|subs|] == subs;
  }

  /** The importer leaves upload, automation and execution rows alone and, meeting no failure, the oracle empty. */
  lemma ImportKeepsRows(db: Db, u: Upload, sampleLines: Option<int>, pd: Normalize.Pandas)
    ensures var after := Import(db, Some(u), sampleLines, pd).0;
      && after.uploads == db.uploads && after.automations == db.automations && after.executions == db.executions
      && (db.faults == [] ==> after.faults == [])
  {
    if u.file.Stored? {
      ImportRecordsFacts(db, u, RecordsOf(u.file.bytes, sampleLines, pd), pd.floatRepr);
    }
  }

  /** With no upload, no file or a file that cannot be read, nothing is written and 0 is returned. */
  lemma ImportWithoutFile(db: Db, upload: Option<Upload>, sampleLines: Option<int>, pd: Normalize.Pandas)
    requires upload.None? || !upload.value.file.Stored?
    ensures Import(db, upload, sampleLines, pd) == (db, Returned(0))
  {
  }

  /**
   * The subscriptions an import appends follow the records one to one: same mrr, same start
   * date, this upload as source, and a customer of the upload's org with the record's id (or
   * NULL when the record has none).
   */
  lemma ImportedRows(db: Db, u: Upload, recs: seq<Normalize.NormRecord>, floatRepr: real -> string, i: nat)
    requires i < |ImportRecords(db, u, recs, floatRepr).0.subscriptions| - |db.subscriptions|
    ensures var after := ImportRecords(db, u, recs, floatRepr).0;
      var s := after.subscriptions[|db.subscriptions| + i];
      && i < |recs|
      && s.mrr == recs[i].mrr && s.startDate == recs[i].signupDate && s.sourceUpload == Some(u.id)
      && s.customer < |after.customers|
      && KeyMatches(after.customers[s.customer], u.org, CustomerIdOf(recs[i]))
  {
    BuildFacts(db.customers, u.org, u.id, recs, floatRepr);
  }
}
