/**
 * The upload status machine driven from the `post_save` handler: the guards that decide
 * whether an import runs, the conditional claim `pending -> importing`, the inline import
 * that ends in `complete` or `error`, the choice between running inline, enqueueing and a
 * background thread, and the thread body with its retried status saves.
 */
module Signals {
  import opened Common
  import opened Storage
  import opened Importer
  import Normalize

  /** `save_with_retry(..., max_attempts=6)`. */
  const SaveAttempts: nat := 6

  /** `getattr(settings, 'IMPORT_SAMPLE_LINES', 200)`'s default. */
  const DefaultSampleLines: int := 200

  /** How much of a traceback an error message keeps. */
  const TracebackLimit: nat := 1000

  const FailedPrefix: string := "Import failed (see server logs)\n"

  // ---------------------------------------------------------------------------------------
  // save_with_retry
  // ---------------------------------------------------------------------------------------

  /** The rows after `save_with_retry(mem, update_fields=fields)`, and the exception it re-raises, if any. */
  function SaveRetried(db: Db, mem: Upload, fields: set<UploadField>): (Db, Option<Exc>) {
    var a := Retry(db.faults, 0, SaveAttempts);
    match a.outcome
    case Fail(e) => (db.(faults := a.rest), Some(e))
    case Ok =>
      var r := SaveResult(db.uploads, mem, fields, Ok);
      (db.(uploads := r.0, faults := a.rest), r.1)
  }

  method SaveWithRetry(store: Store, mem: Upload, fields: set<UploadField>) returns (err: Option<Exc>)
    modifies store
    ensures (store.Snapshot(), err) == SaveRetried(old(store.Snapshot()), mem, fields)
  {
    ghost var f0 := store.faults;
    var attempts := 0;
    while true
      invariant 0 <= attempts < SaveAttempts
      invariant Retry(store.faults, attempts, SaveAttempts) == Retry(f0, 0, SaveAttempts)
      invariant store.Snapshot() == old(store.Snapshot()).(faults := store.faults)
      decreases SaveAttempts - attempts
    {
      ghost var f := store.faults;
      err := store.SaveUpload(mem, fields);
      if err.None? {
        return;
      }
      if err.value.kind != OperationalError {
        return;
      }
      attempts := attempts + 1;
      if attempts >= SaveAttempts {
        return;
      }
    }
  }

  /**
   * A save meets at most six outcomes; an `OperationalError` is re-raised only on the sixth
   * in a row, any other failure at once; with no failure to meet, the named fields of the row
   * are overwritten from the instance.
   */
  lemma SaveRetriedFacts(db: Db, mem: Upload, fields: set<UploadField>)
    ensures var (after, err) := SaveRetried(db, mem, fields);
      && |db.faults| - |after.faults| <= SaveAttempts
      && after.customers == db.customers && after.subscriptions == db.subscriptions
      && (err.Some? && err.value.kind == OperationalError ==>
            |db.faults| - |after.faults| == SaveAttempts && forall j :: 0 <= j < SaveAttempts ==> IsOperational(db.faults[j]))
      && (Head(db.faults).Fail? && !IsOperational(Head(db.faults)) ==> err == Some(Head(db.faults).e) && after.uploads == db.uploads)
      && (db.faults == [] && mem.id in db.uploads ==>
            err.None? && after.uploads == db.uploads[mem.id := Merge(db.uploads[mem.id], mem, fields)])
      && (err.Some? ==> after.uploads == db.uploads)
  {
    RetryFacts(db.faults, 0, SaveAttempts);
  }

  // ---------------------------------------------------------------------------------------
  // The thread body: _run_import_sync
  // ---------------------------------------------------------------------------------------

  /** `str(exc) + '\n' + traceback[:1000]`. */
  function ThreadErrorMessage(e: Exc, traceback: string): string {
    e.msg + "\n" + SliceTo(traceback, TracebackLimit)
  }

  /** The rows after the background thread's `_run_import_sync(pk)`. */
  function RunSync(db: Db, pk: nat, now: int, later: int, traceback: string, sampleLines: Option<int>, pd: Normalize.Pandas): Db {
    if pk !in db.uploads then db
    else
      var u := Claimed(db.uploads[pk], now);
      var db1 := SaveRetried(db, u, ImportingFields).0;
      var (db2, r) := Import(db1, Some(u), sampleLines, pd);
      match r
      case Raised(e) => SaveRetried(db2, u.(status := Error, errorMessage := Some(ThreadErrorMessage(e, traceback))), ErrorFields).0
      case Returned(n) => SaveRetried(db2, u.(status := Complete, completedAt := Some(later), created := n), CompleteFields).0
  }

  /** `_run_import_sync(upload_id)`. */
  method RunImportSync(store: Store, pk: nat, now: int, later: int, traceback: string, sampleLines: Option<int>, pd: Normalize.Pandas)
    modifies store
    ensures store.Snapshot() == RunSync(old(store.Snapshot()), pk, now, later, traceback, sampleLines, pd)
  {
    if pk !in store.uploads {
      // `objects.get` raises; the outer handler finds no row to mark.
      return;
    }
    var u := store.uploads[pk];
    u := u.(status := Importing, startedAt := Some(now), errorMessage := Some(""), created := 0);
    var _ := SaveWithRetry(store, u, ImportingFields);
    var r := ImportSingleUpload(store, Some(u), sampleLines, pd);
    match r {
      case Raised(e) =>
        u := u.(status := Error, errorMessage := Some(ThreadErrorMessage(e, traceback)));
        var _ := SaveWithRetry(store, u, ErrorFields);
      case Returned(n) =>
        u := u.(status := Complete, completedAt := Some(later), created := n);
        var _ := SaveWithRetry(store, u, CompleteFields);
    }
  }

  /**
   * With no transient failure to meet, the thread leaves the upload `complete` with the
   * returned count when the importer returns, and `error` with the exception's text and the
   * traceback's head when it raises; the start time is the one it set.
   */
  lemma RunSyncWithoutFaults(db: Db, pk: nat, now: int, later: int, traceback: string, sampleLines: Option<int>, pd: Normalize.Pandas)
    requires pk in db.uploads && db.uploads[pk].id == pk && db.faults == []
    ensures var after := RunSync(db, pk, now, later, traceback, sampleLines, pd);
      var u := Claimed(db.uploads[pk], now);
      var r := Import(SaveRetried(db, u, ImportingFields).0, Some(u), sampleLines, pd).1;
      && pk in after.uploads
      && after.uploads[pk].startedAt == Some(now)
      && (r.Returned? ==> after.uploads[pk].status == Complete && after.uploads[pk].created == r.count
                          && after.uploads[pk].completedAt == Some(later) && after.uploads[pk].errorMessage == Some(""))
      && (r.Raised? ==> after.uploads[pk].status == Error
                        && after.uploads[pk].errorMessage == Some(ThreadErrorMessage(r.e, traceback)))
  {
    var u := Claimed(db.uploads[pk], now);
    SaveRetriedFacts(db, u, ImportingFields);
    var db1 := SaveRetried(db, u, ImportingFields).0;
    assert db1.faults == [] && db1.uploads[pk] == Merge(db.uploads[pk], u, ImportingFields);
    ImportKeepsRows(db1, u, sampleLines, pd);
    var (db2, r) := Import(db1, Some(u), sampleLines, pd);
    assert db2.faults == [] && db2.uploads == db1.uploads;
    var row := db1.uploads[pk];
    assert row.startedAt == Some(now) && row.errorMessage == Some("");
    match r
    case Raised(e) =>
      var mem := u.(status := Error, errorMessage := Some(ThreadErrorMessage(e, traceback)));
      SaveRetriedFacts(db2, mem, ErrorFields);
      assert SaveRetried(db2, mem, ErrorFields).0.uploads[pk] == Merge(row, mem, ErrorFields);
    case Returned(n) =>
      var mem := u.(status := Complete, completedAt := Some(later), created := n);
      SaveRetriedFacts(db2, mem, CompleteFields);
      assert SaveRetried(db2, mem, CompleteFields).0.uploads[pk] == Merge(row, mem, CompleteFields);
  }

  /** The thread does nothing for an upload that no longer exists. */
  lemma RunSyncMissing(db: Db, pk: nat, now: int, later: int, traceback: string, sampleLines: Option<int>, pd: Normalize.Pandas)
    requires pk !in db.uploads
    ensures RunSync(db, pk, now, later, traceback, sampleLines, pd) == db
  {
  }

  // ---------------------------------------------------------------------------------------
  // The inline path: claim, import, record the outcome
  // ---------------------------------------------------------------------------------------

  /** What the environment does when the handler runs: clocks, the traceback text, and the task and commit hooks. */
  datatype Env = Env(now: int, later: int, traceback: string, taskAvailable: bool, enqueueOk: bool, onCommitOk: bool)

  /** `DEBUG_IMPORT_SYNC`, `DEBUG` and `IMPORT_SAMPLE_LINES`. */
  datatype Settings = Settings(importSync: bool, debug: bool, sampleLines: Option<int>)

  /** The row after `objects.filter(pk=pk).update(...)` of the outcome `r`. */
  function Finished(u: Upload, r: Returned, env: Env): (f: Upload)
    ensures r.Returned? ==> f.status == Complete && f.created == r.count && f.completedAt == Some(env.later)
    ensures r.Raised? ==> f.status == Error && f.errorMessage == Some(FailedPrefix + SliceTo(env.traceback, TracebackLimit))
    ensures f.startedAt == u.startedAt && f.id == u.id && f.org == u.org && f.file == u.file
  {
    match r
    case Returned(n) => u.(status := Complete, completedAt := Some(env.later), created := n)
    case Raised(_) => u.(status := Error, errorMessage := Some(FailedPrefix + SliceTo(env.traceback, TracebackLimit)))
  }

  /** The rows after the `DEBUG_IMPORT_SYNC` branch: only a successful claim runs the import. */
  function InlineImport(db: Db, instance: Upload, st: Settings, env: Env, pd: Normalize.Pandas): Db {
    var pk := instance.id;
    if pk !in db.uploads || db.uploads[pk].status != Pending then db
    else
      ImportAndFinish(db.(uploads := db.uploads[pk := Claimed(db.uploads[pk], env.now)]), instance, st, env, pd)
  }

  /** The rows after the import and the `update()` that records its outcome. */
  function ImportAndFinish(db: Db, instance: Upload, st: Settings, env: Env, pd: Normalize.Pandas): Db {
    var pk := instance.id;
    var (db2, r) := Import(db, Some(instance), st.sampleLines, pd);
    if pk in db2.uploads then db2.(uploads := db2.uploads[pk := Finished(db2.uploads[pk], r, env)]) else db2
  }

  /** The `DEBUG_IMPORT_SYNC` branch of `on_upload_saved`. */
  method InlineImportSync(store: Store, instance: Upload, st: Settings, env: Env, pd: Normalize.Pandas)
    modifies store
    ensures store.Snapshot() == InlineImport(old(store.Snapshot()), instance, st, env, pd)
  {
    var rows := store.Claim(instance.id, env.now);
    if rows != 0 {
      ImportAndRecord(store, instance, st, env, pd);
    }
  }

  /** The import under a successful claim, and the `update()` of its outcome. */
  method ImportAndRecord(store: Store, instance: Upload, st: Settings, env: Env, pd: Normalize.Pandas)
    modifies store
    ensures store.Snapshot() == ImportAndFinish(old(store.Snapshot()), instance, st, env, pd)
  {
    ghost var before := store.Snapshot();
    var r := ImportSingleUpload(store, Some(instance), st.sampleLines, pd);
    ghost var imported := store.Snapshot();
    ImportAndFinishIs(before, instance, st, env, pd, imported, r);
    var done := Finished(instance, r, env);
    var fields := if r.Returned? then CompleteFields else ErrorFields;
    store.UpdateUpload(instance.id, done, fields);
    if instance.id in imported.uploads {
      MergeFinished(imported.uploads[instance.id], instance, r, env);
    }
  }

  lemma ImportAndFinishIs(db: Db, instance: Upload, st: Settings, env: Env, pd: Normalize.Pandas, db2: Db, r: Returned)
    requires (db2, r) == Import(db, Some(instance), st.sampleLines, pd)
    ensures ImportAndFinish(db, instance, st, env, pd) ==
      if instance.id in db2.uploads then db2.(uploads := db2.uploads[instance.id := Finished(db2.uploads[instance.id], r, env)]) else db2
  {
  }

  /** Recording the outcome on the row with the outcome's field list gives the finished row. */
  lemma MergeFinished(row: Upload, instance: Upload, r: Returned, env: Env)
    ensures Merge(row, Finished(instance, r, env), if r.Returned? then CompleteFields else ErrorFields) == Finished(row, r, env)
  {
  }

  /**
   * A successful claim ends the upload `complete` with the importer's count, or `error` with
   * the fixed prefix and the traceback's head; either way it is no longer `pending`.
   */
  lemma InlineImportOutcome(db: Db, instance: Upload, st: Settings, env: Env, pd: Normalize.Pandas)
    requires instance.id in db.uploads && db.uploads[instance.id].status == Pending
    ensures var pk := instance.id;
      var after := InlineImport(db, instance, st, env, pd);
      var r := Import(db.(uploads := db.uploads[pk := Claimed(db.uploads[pk], env.now)]), Some(instance), st.sampleLines, pd).1;
      && pk in after.uploads
      && after.uploads[pk].startedAt == Some(env.now)
      && (r.Returned? <==> after.uploads[pk].status == Complete)
      && (r.Raised? <==> after.uploads[pk].status == Error)
      && (r.Returned? ==> after.uploads[pk].created == r.count && after.uploads[pk].completedAt == Some(env.later))
      && (r.Raised? ==> after.uploads[pk].errorMessage == Some(FailedPrefix + SliceTo(env.traceback, TracebackLimit)))
  {
    var pk := instance.id;
    ImportKeepsRows(db.(uploads := db.uploads[pk := Claimed(db.uploads[pk], env.now)]), instance, st.sampleLines, pd);
  }

  /**
   * Two handlers that both saw the upload pending, run one after the other: the second
   * claim changes no row, so the import runs once.
   */
  lemma InlineImportOnce(db: Db, instance: Upload, st: Settings, env1: Env, env2: Env, pd: Normalize.Pandas)
    ensures var once := InlineImport(db, instance, st, env1, pd);
      InlineImport(once, instance, st, env2, pd) == once
  {
    var pk := instance.id;
    if pk in db.uploads && db.uploads[pk].status == Pending {
      InlineImportOutcome(db, instance, st, env1, pd);
    }
  }

  // ---------------------------------------------------------------------------------------
  // on_upload_saved
  // ---------------------------------------------------------------------------------------

  /** Where the handler sends the import. */
  datatype Dispatch = Skipped | RanInline | Enqueued | ThreadOnCommit | ThreadNow

  /** The guards: a file, no subscription from this upload yet, and a stored status of `pending`. */
  predicate ShouldImport(db: Db, instance: Upload) {
    && !instance.file.NoFile?
    && !HasSubscriptions(db.subscriptions, instance.id)
    && instance.id in db.uploads && db.uploads[instance.id].status == Pending
  }

  /** The dispatch order: inline when asked to, else the task queue outside DEBUG, else a thread. */
  function Route(st: Settings, env: Env): (d: Dispatch)
    ensures d != Skipped
    ensures st.importSync <==> d == RanInline
    ensures d == Enqueued <==> !st.importSync && env.taskAvailable && !st.debug && env.enqueueOk
  {
    if st.importSync then RanInline
    else if env.taskAvailable && !st.debug && env.enqueueOk then Enqueued
    else if env.onCommitOk then ThreadOnCommit
    else ThreadNow
  }

  /** The rows after `on_upload_saved(instance)`, and where it sent the import. */
  function OnSaved(db: Db, instance: Upload, st: Settings, env: Env, pd: Normalize.Pandas): (Db, Dispatch) {
    if !ShouldImport(db, instance) then (db, Skipped)
    else
      var d := Route(st, env);
      (if d == RanInline then InlineImport(db, instance, st, env, pd) else db, d)
  }

  /** `on_upload_saved(sender, instance, created)`. */
  method OnUploadSaved(store: Store, instance: Upload, st: Settings, env: Env, pd: Normalize.Pandas) returns (d: Dispatch)
    modifies store
    ensures (store.Snapshot(), d) == OnSaved(old(store.Snapshot()), instance, st, env, pd)
  {
    if instance.file.NoFile? {
      return Skipped;
    }
    if HasSubscriptions(store.subscriptions, instance.id) {
      return Skipped;
    }
    var currentStatus := if instance.id in store.uploads then Some(store.uploads[instance.id].status) else None;
    if currentStatus.None? || currentStatus.value != Pending {
      return Skipped;
    }
    if st.importSync {
      InlineImportSync(store, instance, st, env, pd);
      return RanInline;
    }
    if env.taskAvailable && !st.debug {
      if env.enqueueOk {
        return Enqueued;
      }
      // An enqueue that raises falls through to the thread.
    }
    if env.onCommitOk {
      d := ThreadOnCommit;
    } else {
      d := ThreadNow;
    }
  }

  /**
   * The handler changes nothing unless the guards pass and the inline path is chosen; the
   * asynchronous paths hand over the upload untouched.
   */
  lemma OnSavedFacts(db: Db, instance: Upload, st: Settings, env: Env, pd: Normalize.Pandas)
    ensures !ShouldImport(db, instance) ==> OnSaved(db, instance, st, env, pd) == (db, Skipped)
    ensures ShouldImport(db, instance) && !st.importSync ==> OnSaved(db, instance, st, env, pd).0 == db
    ensures OnSaved(db, instance, st, env, pd).1 == Skipped <==> !ShouldImport(db, instance)
  {
  }

  /** Saving the upload again after an inline import triggers nothing: it is no longer pending. */
  lemma OnSavedTwice(db: Db, instance: Upload, st: Settings, env1: Env, env2: Env, pd: Normalize.Pandas)
    requires st.importSync
    ensures var once := OnSaved(db, instance, st, env1, pd).0;
      OnSaved(once, instance, st, env2, pd) == (once, Skipped)
  {
    if ShouldImport(db, instance) {
      InlineImportOutcome(db, instance, st, env1, pd);
    }
  }
}
