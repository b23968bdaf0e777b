/**
 * The two Celery task bodies: running an automation's actions and recording the execution,
 * and importing one upload with its status transitions.
 */
module Tasks {
  import opened Common
  import opened Py
  import Dict
  import opened Storage
  import opened Importer
  import Normalize

  // ---------------------------------------------------------------------------------------
  // _execute_automation_sync
  // ---------------------------------------------------------------------------------------

  /** The dictionary the task returns: `{'error': ...}` or `{'ok': True, 'results': ...}`. */
  datatype Reply = ErrorReply(error: string) | OkReply(results: seq<ActionResult>)

  const NotFound: string := "not found"

  /** `act.get('name') or act.get('type') or 'unknown'`. */
  function ActionName(fields: seq<(string, PyValue)>): PyValue {
    Or(Dict.Get(fields, "name").GetOr(PNone), Or(Dict.Get(fields, "type").GetOr(PNone), PStr("unknown")))
  }

  /** The stub action types that report `ok`; every other name is `skipped`. */
  predicate IsSupported(name: PyValue) {
    name == PStr("generate_report") || name == PStr("send_email") || name == PStr("post_whatsapp")
  }

  /** `str(e)` of the `AttributeError` that `act.get` raises on a list element that is not a dictionary. */
  function AttributeErrorMessage(typeName: string): string {
    "'" + typeName + "' object has no attribute 'get'"
  }

  /** How the action loop ends: every action classified, or stopped by an exception. */
  datatype Ran = RanAll(results: seq<ActionResult>) | Stopped(error: string)

  /** The action loop over `auto.actions or []`, as a fold over the actions in order. */
  function RunActions(acts: seq<Action>): Ran {
    if acts == [] then RanAll([])
    else
      match RunActions(acts[..|acts| - 1])
      case Stopped(m) => Stopped(m)
      case RanAll(rs) =>
        match acts[|acts| - 1]
        case ActionOther(t) => Stopped(AttributeErrorMessage(t))
        case ActionObject(f) => RanAll(rs + [ActionResult(ActionName(f), IsSupported(ActionName(f)))])
  }

  /** The rows after `_execute_automation_sync(pk)` at times `now` (creation) and `finished`, and its reply. */
  function Execute(db: Db, pk: nat, now: int, finished: int): (Db, Reply) {
    if pk !in db.automations then (db, ErrorReply(NotFound))
    else
      match RunActions(db.automations[pk].actions.GetOr([]))
      case RanAll(rs) =>
        (db.(executions := db.executions + [Execution(pk, now, Some(finished), true, Results(rs))],
             automations := db.automations[pk := db.automations[pk].(lastRun := Some(finished))]),
         OkReply(rs))
      case Stopped(m) =>
        (db.(executions := db.executions + [Execution(pk, now, Some(finished), false, ErrorResult(m))]), ErrorReply(m))
  }

  /** `_execute_automation_sync(automation_pk)`; `now` and `finished` are what `timezone.now()` returns. */
  method ExecuteAutomationSync(store: Store, pk: nat, now: int, finished: int) returns (reply: Reply)
    modifies store
    ensures (store.Snapshot(), reply) == Execute(old(store.Snapshot()), pk, now, finished)
  {
    if pk !in store.automations {
      return ErrorReply(NotFound);
    }
    var auto := store.automations[pk];
    var i := store.CreateExecution(pk, now);
    var acts := auto.actions.GetOr([]);
    var results: seq<ActionResult> := [];
    var failure: Option<string> := None;
    ghost var created := store.Snapshot();
    var k := 0;
    while k < |acts| && failure.None?
      invariant 0 <= k <= |acts|
      invariant store.Snapshot() == created
      invariant failure.None? ==> RunActions(acts[..k]) == RanAll(results)
      invariant failure.Some? ==> RunActions(acts) == Stopped(failure.value)
    {
      assert acts[..k + 1][..k] == acts[..k];
      match acts[k] {
        case ActionOther(t) =>
          failure := Some(AttributeErrorMessage(t));
          StoppedStays(acts, k + 1, |acts|);
          assert acts[..|acts|] == acts;
        case ActionObject(f) =>
          var name := ActionName(f);
          if IsSupported(name) {
            results := results + [ActionResult(name, true)];
          } else {
            results := results + [ActionResult(name, false)];
          }
      }
      k := k + 1;
    }
    ghost var before := old(store.executions);
    if failure.None? {
      assert acts[..k] == acts;
      var e := Execution(pk, now, Some(finished), true, Results(results));
      store.SaveExecution(i, e);
      assert store.executions == before + [e];
      store.SaveLastRun(pk, finished);
      reply := OkReply(results);
    } else {
      var e := Execution(pk, now, Some(finished), false, ErrorResult(failure.value));
      store.SaveExecution(i, e);
      assert store.executions == before + [e];
      reply := ErrorReply(failure.value);
    }
  }

  /** Once an action has raised, the later actions are never looked at. */
  lemma {:induction false} StoppedStays(acts: seq<Action>, j: nat, n: nat)
    requires j <= n <= |acts| && RunActions(acts[..j]).Stopped?
    ensures RunActions(acts[..n]) == RunActions(acts[..j])
    decreases n - j
  {
    if j < n {
      assert acts[..j + 1][..j] == acts[..j];
      StoppedStays(acts, j + 1, n);
    }
  }

  /**
   * The loop yields one result per action, in order, each carrying the action's name and
   * whether it is a supported stub, exactly when every action is a dictionary; otherwise it
   * stops at the first action that is not, with that action's `AttributeError` text.
   */
  lemma {:induction false} RunActionsFacts(acts: seq<Action>)
    ensures RunActions(acts).RanAll? <==> forall i :: 0 <= i < |acts| ==> acts[i].ActionObject?
    ensures RunActions(acts).RanAll? ==> |RunActions(acts).results| == |acts|
    ensures RunActions(acts).RanAll? ==> forall i :: 0 <= i < |acts| ==>
      RunActions(acts).results[i] == ActionResult(ActionName(acts[i].fields), IsSupported(ActionName(acts[i].fields)))
    ensures RunActions(acts).Stopped? ==> exists i :: (0 <= i < |acts| && acts[i].ActionOther?
      && RunActions(acts).error == AttributeErrorMessage(acts[i].typeName)
      && forall j :: 0 <= j < i ==> acts[j].ActionObject?)
  {
    if acts != [] {
      var p := acts[..|acts| - 1];
      RunActionsFacts(p);
      assert forall i :: 0 <= i < |p| ==> p[i] == acts[i];
    }
  }

  /** The name precedence: the first truthy of `name` and `type`, else `'unknown'`. */
  lemma ActionNamePrecedence(fields: seq<(string, PyValue)>)
    ensures var n := Dict.Get(fields, "name").GetOr(PNone);
      Truthy(n) ==> ActionName(fields) == n
    ensures var n := Dict.Get(fields, "name").GetOr(PNone);
      var t := Dict.Get(fields, "type").GetOr(PNone);
      !Truthy(n) && Truthy(t) ==> ActionName(fields) == t
    ensures var n := Dict.Get(fields, "name").GetOr(PNone);
      var t := Dict.Get(fields, "type").GetOr(PNone);
      !Truthy(n) && !Truthy(t) ==> ActionName(fields) == PStr("unknown")
  {
  }

  /**
   * An unknown automation gets `{'error': 'not found'}` and no execution record. A known one
   * gets exactly one new record, started at `now` and finished at `finished`; it succeeds
   * exactly when the reply is the results, which it stores, and then the automation's
   * `last_run` is the record's `finished_at`; a failure leaves the automations untouched.
   */
  lemma ExecuteFacts(db: Db, pk: nat, now: int, finished: int)
    ensures pk !in db.automations ==> Execute(db, pk, now, finished) == (db, ErrorReply(NotFound))
    ensures var (after, reply) := Execute(db, pk, now, finished);
      pk in db.automations ==>
        && |after.executions| == |db.executions| + 1
        && after.executions[..|db.executions|] == db.executions
        && var e := after.executions[|db.executions|];
        && e.automation == pk && e.startedAt == now && e.finishedAt == Some(finished)
        && (e.success <==> reply.OkReply?)
        && (e.success ==> (e.result == Results(reply.results)
              && pk in after.automations && after.automations[pk].lastRun == e.finishedAt))
        && (!e.success ==> e.result == ErrorResult(reply.error) && after.automations == db.automations)
        && after.uploads == db.uploads && after.customers == db.customers && after.subscriptions == db.subscriptions
  {
  }

  /** An automation with no actions (`null` or `[]`) succeeds with an empty result list. */
  lemma ExecuteNoActions(db: Db, pk: nat, now: int, finished: int)
    requires pk in db.automations && db.automations[pk].actions.GetOr([]) == []
    ensures Execute(db, pk, now, finished).1 == OkReply([])
  {
  }

  // ---------------------------------------------------------------------------------------
  // import_uploaded_csv_task
  // ---------------------------------------------------------------------------------------

  /** The rows after one `save(update_fields=fields)` whose failure the task logs and swallows. */
  function SaveOnce(db: Db, mem: Upload, fields: set<UploadField>): Db {
    var r := SaveResult(db.uploads, mem, fields, Head(db.faults));
    db.(uploads := r.0, faults := Tail(db.faults))
  }

  /**
   * What follows the importer's outcome `r`: a count marks the upload complete; a
   * `DatabaseError` under a worker (`worker`, i.e. `self` is not `None`) marks it errored;
   * either way the outcome is passed on, and any other exception writes nothing.
   */
  function Recorded(db: Db, u: Upload, r: Returned, worker: bool, later: int): (Db, Returned) {
    match r
    case Returned(n) => (SaveOnce(db, u.(status := Complete, completedAt := Some(later), created := n), CompleteFields), r)
    case Raised(e) =>
      if worker && IsDatabaseError(e) then (SaveOnce(db, u.(status := Error, errorMessage := Some(e.msg)), ErrorFields), r)
      else (db, r)
  }

  /** The rows after the importer runs on `u` (with no row cap) and its outcome is recorded. */
  function ImportAndMark(db: Db, u: Upload, worker: bool, later: int, pd: Normalize.Pandas): (Db, Returned) {
    var (db2, r) := Import(db, Some(u), None, pd);
    Recorded(db2, u, r, worker, later)
  }

  /**
   * The rows after `import_uploaded_csv_task(upload_id)`, and what it returns or raises; the
   * unconditional importing mark writes the same values as a successful claim.
   */
  function ImportTask(db: Db, pk: nat, worker: bool, now: int, later: int, pd: Normalize.Pandas): (Db, Returned) {
    if pk !in db.uploads then (db, Returned(0))
    else
      var u := Claimed(db.uploads[pk], now);
      ImportAndMark(SaveOnce(db, u, ImportingFields), u, worker, later, pd)
  }

  /** `import_uploaded_csv_task(self, upload_id)`; `worker` says whether `self` is a task instance. */
  method ImportUploadedCsvTask(store: Store, pk: nat, worker: bool, now: int, later: int, pd: Normalize.Pandas)
    returns (r: Returned)
    modifies store
    ensures (store.Snapshot(), r) == ImportTask(old(store.Snapshot()), pk, worker, now, later, pd)
  {
    if pk !in store.uploads {
      return Returned(0);
    }
    var u := store.uploads[pk];
    u := u.(status := Importing, startedAt := Some(now), errorMessage := Some(""), created := 0);
    // A failed mark is logged and the import goes ahead.
    var _ := store.SaveUpload(u, ImportingFields);
    r := RunImporter(store, u, worker, later, pd);
  }

  /** The importer call and the status write that follows it. */
  method RunImporter(store: Store, u: Upload, worker: bool, later: int, pd: Normalize.Pandas) returns (r: Returned)
    modifies store
    ensures (store.Snapshot(), r) == ImportAndMark(old(store.Snapshot()), u, worker, later, pd)
  {
    ghost var before := store.Snapshot();
    r := ImportSingleUpload(store, Some(u), None, pd);
    ghost var imported := store.Snapshot();
    ImportAndMarkIs(before, u, worker, later, pd, imported, r);
    match r {
      case Raised(e) =>
        if worker && IsDatabaseError(e) {
          var _ := store.SaveUpload(u.(status := Error, errorMessage := Some(e.msg)), ErrorFields);
        }
      case Returned(n) =>
        var _ := store.SaveUpload(u.(status := Complete, completedAt := Some(later), created := n), CompleteFields);
    }
  }

  lemma ImportAndMarkIs(db: Db, u: Upload, worker: bool, later: int, pd: Normalize.Pandas, db2: Db, r: Returned)
    requires (db2, r) == Import(db, Some(u), None, pd)
    ensures ImportAndMark(db, u, worker, later, pd) == Recorded(db2, u, r, worker, later)
  {
  }

  /** A missing upload: the task returns 0 and changes nothing. */
  lemma ImportTaskMissing(db: Db, pk: nat, worker: bool, now: int, later: int, pd: Normalize.Pandas)
    requires pk !in db.uploads
    ensures ImportTask(db, pk, worker, now, later, pd) == (db, Returned(0))
  {
  }

  /** The importer's outcome is what the task returns or raises, whether or not the importing mark was saved. */
  lemma ImportTaskResult(db: Db, pk: nat, worker: bool, now: int, later: int, pd: Normalize.Pandas)
    requires pk in db.uploads
    ensures var u := Claimed(db.uploads[pk], now);
      ImportTask(db, pk, worker, now, later, pd).1 == Import(SaveOnce(db, u, ImportingFields), Some(u), None, pd).1
  {
    var u := Claimed(db.uploads[pk], now);
    var (db2, r) := Import(SaveOnce(db, u, ImportingFields), Some(u), None, pd);
    ImportAndMarkIs(SaveOnce(db, u, ImportingFields), u, worker, later, pd, db2, r);
  }

  /**
   * With no write failure to meet, the upload ends `complete` with the returned count; a
   * `DatabaseError` under a worker leaves it `error` with the exception's text; any other
   * exception, and every exception on the direct call, leaves it `importing`. The start time
   * is the task's own.
   */
  lemma ImportTaskWithoutFaults(db: Db, pk: nat, worker: bool, now: int, later: int, pd: Normalize.Pandas)
    requires pk in db.uploads && db.uploads[pk].id == pk && db.faults == []
    ensures var (after, r) := ImportTask(db, pk, worker, now, later, pd);
      && pk in after.uploads
      && after.uploads[pk].startedAt == Some(now)
      && (r.Returned? ==> after.uploads[pk].status == Complete && after.uploads[pk].created == r.count
                          && after.uploads[pk].completedAt == Some(later) && after.uploads[pk].errorMessage == Some(""))
      && (r.Raised? && worker && IsDatabaseError(r.e) ==>
            after.uploads[pk].status == Error && after.uploads[pk].errorMessage == Some(r.e.msg))
      && (r.Raised? && !(worker && IsDatabaseError(r.e)) ==> after.uploads[pk].status == Importing)
  {
    var u := Claimed(db.uploads[pk], now);
    var db1 := SaveOnce(db, u, ImportingFields);
    assert db1.faults == [] && db1.uploads[pk] == Merge(db.uploads[pk], u, ImportingFields);
    ImportKeepsRows(db1, u, None, pd);
    var (db2, r) := Import(db1, Some(u), None, pd);
    ImportAndMarkIs(db1, u, worker, later, pd, db2, r);
    assert db2.faults == [] && db2.uploads == db1.uploads;
  }
}
