/**
 * The database rows the import pipeline reads and writes (uploads, customers, subscriptions,
 * automations and their executions), held in one `Store`, and the transient failures a write
 * can hit, drawn from an oracle sequence of outcomes.
 */
module Storage {
  import opened Common
  import opened Py
  import Text

  type byte = x: int | 0 <= x < 256

  /** `UploadedCSV.status`. */
  datatype Status = Pending | Importing | Complete | Error

  /** The stored spelling of each status. */
  function StatusName(s: Status): (r: string)
    ensures r != ""
  {
    match s
    case Pending => "pending"
    case Importing => "importing"
    case Complete => "complete"
    case Error => "error"
  }

  /** The four statuses are stored under four different names. */
  lemma StatusNameInjective(s: Status, t: Status)
    ensures StatusName(s) == StatusName(t) <==> s == t
  {
  }

  /** Django's `OperationalError` is a `DatabaseError`; any other exception is neither. */
  datatype ExcKind = OperationalError | OtherDatabaseError | OtherError
  datatype Exc = Exc(kind: ExcKind, msg: string)

  predicate IsDatabaseError(e: Exc) { e.kind != OtherError }

  /** What one write attempt meets. */
  datatype Outcome = Ok | Fail(e: Exc)

  /** The oracle's next outcome; once it runs out every write succeeds. */
  function Head(faults: seq<Outcome>): Outcome {
    if faults == [] then Ok else faults[0]
  }

  function Tail(faults: seq<Outcome>): (r: seq<Outcome>)
    ensures |r| == if faults == [] then 0 else |faults| - 1
  {
    if faults == [] then [] else faults[1..]
  }

  /** `upload.file`: absent, present but unreadable, or the stored bytes. */
  datatype File = NoFile | Unreadable | Stored(bytes: seq<byte>)

  datatype Upload = Upload(
    id: nat,
    org: nat,
    file: File,
    status: Status,
    startedAt: Option<int>,
    completedAt: Option<int>,
    errorMessage: Option<string>,
    created: int)

  /** The columns an `update_fields` save may name. */
  datatype UploadField = StatusField | StartedField | CompletedField | ErrorField | CreatedField

  /** The `update_fields` of the saves that mark an upload importing, complete and errored. */
  const ImportingFields: set<UploadField> := {StatusField, StartedField, ErrorField, CreatedField}
  const CompleteFields: set<UploadField> := {StatusField, CompletedField, CreatedField}
  const ErrorFields: set<UploadField> := {StatusField, ErrorField}

  /** The row after saving the in-memory instance `mem` with `update_fields = fields`. */
  function Merge(row: Upload, mem: Upload, fields: set<UploadField>): (r: Upload)
    ensures r.id == row.id && r.org == row.org && r.file == row.file
    ensures r.status == if StatusField in fields then mem.status else row.status
    ensures r.startedAt == if StartedField in fields then mem.startedAt else row.startedAt
    ensures r.completedAt == if CompletedField in fields then mem.completedAt else row.completedAt
    ensures r.errorMessage == if ErrorField in fields then mem.errorMessage else row.errorMessage
    ensures r.created == if CreatedField in fields then mem.created else row.created
  {
    row.(
      status := if StatusField in fields then mem.status else row.status,
      startedAt := if StartedField in fields then mem.startedAt else row.startedAt,
      completedAt := if CompletedField in fields then mem.completedAt else row.completedAt,
      errorMessage := if ErrorField in fields then mem.errorMessage else row.errorMessage,
      created := if CreatedField in fields then mem.created else row.created)
  }

  /** A customer; its primary key is its position in `Store.customers`. */
  datatype Customer = Customer(org: nat, externalId: Option<string>, name: string)

  datatype Subscription = Subscription(customer: nat, mrr: real, startDate: Option<Date>, sourceUpload: Option<nat>)

  /** One element of `Automation.actions`: a JSON object, or some other JSON value. */
  datatype Action = ActionObject(fields: seq<(string, PyValue)>) | ActionOther(typeName: string)

  /** `actions` as stored: JSON `null` or a list. */
  datatype Automation = Automation(org: nat, actions: Option<seq<Action>>, lastRun: Option<int>)

  /** One entry of an execution's `results` list. */
  datatype ActionResult = ActionResult(action: PyValue, ok: bool)

  datatype ExecResult = NoResult | Results(results: seq<ActionResult>) | ErrorResult(error: string)

  datatype Execution = Execution(automation: nat, startedAt: int, finishedAt: Option<int>, success: bool, result: ExecResult)

  /** The outcome of a retried write: how it ended and what is left of the oracle. */
  datatype Attempt = Attempt(outcome: Outcome, rest: seq<Outcome>)

  /**
   * A write retried on `OperationalError` only: `failures` have happened so far, and the
   * failure that brings the count to `limit` is raised.
   */
  function Retry(faults: seq<Outcome>, failures: nat, limit: nat): (a: Attempt)
    requires failures < limit
    decreases limit - failures
  {
    match Head(faults)
    case Ok => Attempt(Ok, Tail(faults))
    case Fail(e) =>
      if e.kind == OperationalError && failures + 1 < limit then Retry(Tail(faults), failures + 1, limit)
      else Attempt(Fail(e), Tail(faults))
  }

  predicate IsOperational(o: Outcome) { o.Fail? && o.e.kind == OperationalError }

  /**
   * A retried write consumes at most `limit - failures` outcomes, all of them operational
   * errors except possibly the last; it raises an operational error only after exactly that
   * many, and otherwise ends with the last outcome it consumed.
   */
  lemma {:induction false} RetryFacts(faults: seq<Outcome>, failures: nat, limit: nat)
    requires failures < limit
    ensures var a := Retry(faults, failures, limit);
      var used := |faults| - |a.rest|;
      && |a.rest| <= |faults|
      && a.rest == faults[used..]
      && used <= limit - failures
      && (forall j :: 0 <= j < used - 1 ==> IsOperational(faults[j]))
      && (a.outcome.Fail? ==> 0 < used && a.outcome == faults[used - 1])
      && (IsOperational(a.outcome) ==> used == limit - failures)
      && (faults == [] ==> a.outcome == Ok)
    decreases limit - failures
  {
    var a := Retry(faults, failures, limit);
    match Head(faults)
    case Ok =>
    case Fail(e) =>
      if e.kind == OperationalError && failures + 1 < limit {
        RetryFacts(Tail(faults), failures + 1, limit);
        var used := |faults| - |a.rest|;
        forall j | 0 <= j < used - 1
          ensures IsOperational(faults[j])
        {
          if j > 0 {
            assert faults[j] == Tail(faults)[j - 1];
          }
        }
      }
  }

  // ---------------------------------------------------------------------------------------
  // Customer lookup
  // ---------------------------------------------------------------------------------------

  predicate KeyMatches(c: Customer, org: nat, eid: Option<string>) { c.org == org && c.externalId == eid }

  /** What `Customer.objects.get(org=org, external_id=eid)` finds; `external_id=None` matches NULL. */
  datatype Lookup = Absent | Unique(pk: nat) | Multiple(count: nat)

  function FindCustomer(cs: seq<Customer>, org: nat, eid: Option<string>): Lookup
    decreases |cs|
  {
    if cs == [] then Absent
    else
      var prev := FindCustomer(cs[..|cs| - 1], org, eid);
      if !KeyMatches(cs[|cs| - 1], org, eid) then prev
      else match prev
        case Absent => Unique(|cs| - 1)
        case Unique(_) => Multiple(2)
        case Multiple(n) => Multiple(n + 1)
  }

  /** The lookup finds nothing exactly when no row matches, the one row when one does, and fails with two or more. */
  lemma {:induction false} FindCustomerFacts(cs: seq<Customer>, org: nat, eid: Option<string>)
    ensures FindCustomer(cs, org, eid).Absent? <==> forall i :: 0 <= i < |cs| ==> !KeyMatches(cs[i], org, eid)
    ensures FindCustomer(cs, org, eid).Unique? ==>
      var pk := FindCustomer(cs, org, eid).pk;
      pk < |cs| && KeyMatches(cs[pk], org, eid) && forall i :: 0 <= i < |cs| && i != pk ==> !KeyMatches(cs[i], org, eid)
    ensures FindCustomer(cs, org, eid).Multiple? ==>
      FindCustomer(cs, org, eid).count >= 2 &&
      exists i, j :: 0 <= i < j < |cs| && KeyMatches(cs[i], org, eid) && KeyMatches(cs[j], org, eid)
    decreases |cs|
  {
    if cs != [] {
      var p := cs[..|cs| - 1];
      FindCustomerFacts(p, org, eid);
      if KeyMatches(cs[|cs| - 1], org, eid) && FindCustomer(p, org, eid).Unique? {
        var pk := FindCustomer(p, org, eid).pk;
        assert KeyMatches(cs[pk], org, eid) && KeyMatches(cs[|cs| - 1], org, eid);
      }
      if FindCustomer(p, org, eid).Multiple? {
        var i, j :| 0 <= i < j < |p| && KeyMatches(p[i], org, eid) && KeyMatches(p[j], org, eid);
        assert KeyMatches(cs[i], org, eid) && KeyMatches(cs[j], org, eid);
      }
    }
  }

  /** No two customers share an `(org, external_id)` pair. */
  ghost predicate UniqueKeys(cs: seq<Customer>) {
    forall i, j :: 0 <= i < j < |cs| ==> !KeyMatches(cs[j], cs[i].org, cs[i].externalId)
  }

  /** The result of `get_or_create`: the customer rows afterwards and the customer's key, or the exception. */
  datatype Got = Got(customers: seq<Customer>, pk: nat) | GetFailed(e: Exc)

  /** Django's `MultipleObjectsReturned` text, which caps the count it reports at 21 rows. */
  function MultipleMessage(n: nat): string {
    "get() returned more than one Customer -- it returned " + (if n < 21 then Text.NatToString(n) else "more than 20") + "!"
  }

  /** `Customer.objects.get_or_create(org=org, external_id=eid, defaults={'name': name})`. */
  function GetOrCreate(cs: seq<Customer>, org: nat, eid: Option<string>, name: string): Got {
    match FindCustomer(cs, org, eid)
    case Absent => Got(cs + [Customer(org, eid, name)], |cs|)
    case Unique(pk) => Got(cs, pk)
    case Multiple(n) => GetFailed(Exc(OtherError, MultipleMessage(n)))
  }

  /**
   * `get_or_create` returns a row with the requested key: the existing one, leaving the rows
   * alone, or a new one appended with the default name; it fails only when the key is already
   * ambiguous, and it keeps the keys unique.
   */
  lemma GetOrCreateFacts(cs: seq<Customer>, org: nat, eid: Option<string>, name: string)
    ensures var g := GetOrCreate(cs, org, eid, name);
      && (g.Got? ==> g.pk < |g.customers| && KeyMatches(g.customers[g.pk], org, eid) && cs <= g.customers)
      && (g.Got? && g.customers != cs ==> g.customers == cs + [Customer(org, eid, name)] && g.pk == |cs|)
      && (g.Got? && g.customers == cs ==> forall i :: 0 <= i < |cs| && i != g.pk ==> !KeyMatches(cs[i], org, eid))
      && ((exists i :: 0 <= i < |cs| && KeyMatches(cs[i], org, eid)) <==> g.Got? ==> g.customers == cs)
      && (UniqueKeys(cs) ==> g.Got? && UniqueKeys(g.customers))
  {
    FindCustomerFacts(cs, org, eid);
  }

  /** The rows as a value, for stating what an operation does to all of them. */
  datatype Db = Db(
    uploads: map<nat, Upload>,
    customers: seq<Customer>,
    subscriptions: seq<Subscription>,
    automations: map<nat, Automation>,
    executions: seq<Execution>,
    faults: seq<Outcome>)

  /** `Subscription.objects.filter(source_upload=pk).exists()`. */
  predicate HasSubscriptions(subs: seq<Subscription>, pk: nat) {
    exists i :: 0 <= i < |subs| && subs[i].sourceUpload == Some(pk)
  }

  /** The result of a `save(update_fields=...)` on `mem` given the next outcome `o`. */
  function SaveResult(uploads: map<nat, Upload>, mem: Upload, fields: set<UploadField>, o: Outcome): (map<nat, Upload>, Option<Exc>) {
    match o
    case Fail(e) => (uploads, Some(e))
    case Ok =>
      if mem.id in uploads then (uploads[mem.id := Merge(uploads[mem.id], mem, fields)], None)
      else (uploads, Some(Exc(OtherDatabaseError, "Save with update_fields did not affect any rows.")))
  }

  class Store {
    var uploads: map<nat, Upload>
    var customers: seq<Customer>
    var subscriptions: seq<Subscription>
    var automations: map<nat, Automation>
    var executions: seq<Execution>
    /** The outcomes the next writes meet, in order. */
    var faults: seq<Outcome>

    function Snapshot(): Db
      reads this
    {
      Db(uploads, customers, subscriptions, automations, executions, faults)
    }

    constructor (uploads: map<nat, Upload>, automations: map<nat, Automation>, faults: seq<Outcome>)
      ensures Snapshot() == Db(uploads, [], [], automations, [], faults)
    {
      this.uploads := uploads;
      this.customers := [];
      this.subscriptions := [];
      this.automations := automations;
      this.executions := [];
      this.faults := faults;
    }

    /** Draw the outcome the next write meets. */
    method NextOutcome() returns (o: Outcome)
      modifies this
      ensures o == Head(old(faults))
      ensures Snapshot() == old(Snapshot()).(faults := Tail(old(faults)))
    {
      o := Head(faults);
      faults := Tail(faults);
    }

    /** `Subscription.objects.bulk_create(batch)` inside `transaction.atomic()`: all or nothing. */
    method BulkCreate(batch: seq<Subscription>) returns (o: Outcome)
      modifies this
      ensures o == Head(old(faults))
      ensures Snapshot() == old(Snapshot()).(
        faults := Tail(old(faults)),
        subscriptions := if o.Ok? then old(subscriptions) + batch else old(subscriptions))
    {
      o := NextOutcome();
      if o.Ok? {
        subscriptions := subscriptions + batch;
      }
    }

    /** `instance.save(update_fields=fields)` on an upload. */
    method SaveUpload(mem: Upload, fields: set<UploadField>) returns (err: Option<Exc>)
      modifies this
      ensures (uploads, err) == SaveResult(old(uploads), mem, fields, Head(old(faults)))
      ensures Snapshot() == old(Snapshot()).(faults := Tail(old(faults)), uploads := uploads)
    {
      var o := NextOutcome();
      var r := SaveResult(uploads, mem, fields, o);
      uploads := r.0;
      err := r.1;
    }

    /** `Customer.objects.get_or_create(...)`; it is not subject to the oracle's failures. */
    method GetOrCreateCustomer(org: nat, eid: Option<string>, name: string) returns (g: Got)
      modifies this
      ensures g == GetOrCreate(old(customers), org, eid, name)
      ensures Snapshot() == old(Snapshot()).(customers := if g.Got? then g.customers else old(customers))
    {
      g := GetOrCreate(customers, org, eid, name);
      if g.Got? {
        customers := g.customers;
      }
    }

    /**
     * `UploadedCSV.objects.filter(pk=pk, status=PENDING).update(status=IMPORTING, ...)`: a
     * conditional update reporting the rows it changed.
     */
    method Claim(pk: nat, now: int) returns (rows: nat)
      modifies this
      ensures rows == if pk in old(uploads) && old(uploads)[pk].status == Pending then 1 else 0
      ensures Snapshot() == old(Snapshot()).(uploads := uploads)
      ensures uploads == if rows == 1 then old(uploads)[pk := Claimed(old(uploads)[pk], now)] else old(uploads)
    {
      if pk in uploads && uploads[pk].status == Pending {
        uploads := uploads[pk := Claimed(uploads[pk], now)];
        rows := 1;
      } else {
        rows := 0;
      }
    }

    /** `AutomationExecution.objects.create(automation=...)`: a new, unfinished record; its primary key is its position. */
    method CreateExecution(automation: nat, now: int) returns (i: nat)
      modifies this
      ensures i == |old(executions)|
      ensures Snapshot() == old(Snapshot()).(executions := old(executions) + [Execution(automation, now, None, false, NoResult)])
    {
      i := |executions|;
      executions := executions + [Execution(automation, now, None, false, NoResult)];
    }

    /** `exec_log.save()` on an existing record. */
    method SaveExecution(i: nat, e: Execution)
      requires i < |executions|
      modifies this
      ensures Snapshot() == old(Snapshot()).(executions := old(executions)[i := e])
    {
      executions := executions[i := e];
    }

    /** `auto.save(update_fields=['last_run'])`. */
    method SaveLastRun(pk: nat, t: int)
      modifies this
      ensures Snapshot() == old(Snapshot()).(automations :=
        if pk in old(automations) then old(automations)[pk := old(automations)[pk].(lastRun := Some(t))] else old(automations))
    {
      if pk in automations {
        automations := automations[pk := automations[pk].(lastRun := Some(t))];
      }
    }

    /** `UploadedCSV.objects.filter(pk=pk).update(...)`: an unconditional update of the row. */
    method UpdateUpload(pk: nat, mem: Upload, fields: set<UploadField>)
      modifies this
      ensures Snapshot() == old(Snapshot()).(uploads := uploads)
      ensures uploads == if pk in old(uploads) then old(uploads)[pk := Merge(old(uploads)[pk], mem, fields)] else old(uploads)
    {
      if pk in uploads {
        uploads := uploads[pk := Merge(uploads[pk], mem, fields)];
      }
    }
  }

  /** The row after a successful claim. */
  function Claimed(u: Upload, now: int): (r: Upload)
    ensures r.status == Importing && r.startedAt == Some(now) && r.errorMessage == Some("") && r.created == 0
    ensures r.id == u.id && r.org == u.org && r.file == u.file && r.completedAt == u.completedAt
  {
    u.(status := Importing, startedAt := Some(now), errorMessage := Some(""), created := 0)
  }

  /** Of two claims on one pending upload, in either order, exactly the first changes a row. */
  method ClaimTwice(s: Store, pk: nat, now1: int, now2: int) returns (first: nat, second: nat)
    requires pk in s.uploads && s.uploads[pk].status == Pending
    modifies s
    ensures first == 1 && second == 0
    ensures s.uploads == old(s.uploads)[pk := Claimed(old(s.uploads)[pk], now1)]
  {
    first := s.Claim(pk, now1);
    second := s.Claim(pk, now2);
  }
}
