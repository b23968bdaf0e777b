# jarvis360 pipeline and client analytics, modelled in Dafny

This project models the part of jarvis360 that turns an uploaded CSV into billing data and the
figures computed from it, and proves properties of that model.

It covers the backend in order:

- **Normalizing:** `analysis/normalize.py` guesses the id, revenue and date columns and turns each row into a record.
- **Aggregating:**
  - `analysis/arr.py` computes MRR/ARR totals and top customers.
  - `analysis/cohorts.py` computes signup cohorts and the retention matrix.
- **Importing:**
  - `api/importer.py` gets or creates customers and bulk-creates subscriptions in chunks of 200, retrying chunks that fail transiently.
  - `api/signals.py` runs the upload status machine `pending -> importing -> complete | error`, with the conditional claim, the idempotency guard and the choice of dispatch.
  - `api/tasks.py` runs the automation and import task bodies.
- **Reading KPIs back:** `api/services/insights.py`.

It also covers the browser-side helpers:

- cohort tables and top customers;
- the monthly new/expansion/churn series;
- merging saved scenarios by canonical key;
- writing and reading CSV text;
- the two churn scores;
- the what-if simulation and the split of scenarios into the user's own and shared ones;
- the forecast page's streaming FNV-1a input key;
- the state transforms of the application shell: risk-sorted customers, toasts, marking a customer contacted, overview aggregates, the churn-heuristic toggle and the shell's own simulation.

## How the model is built

There is one Dafny module per source file, plus shared modules:

- `Common`, `Dict`, `Lists`, `Order` and `Text` for shared values and collections.
- `Numbers`, `Py`, `Js` and `Utf8` for the language-level conversions the code relies on.

Values become datatypes and pure code becomes functions. Code that updates variables in loops becomes methods. Each such method's `ensures` ties its result to a recursive specification function, and lemmas prove the source's promises about that function.

- **Database:** the rows the backend writes live in the class `Storage.Store`. Its methods modify the maps of uploads, customers, subscriptions, automations and executions.
- **Transient failures:** `OperationalError`, `DatabaseError` and the like come from an oracle sequence of outcomes held by the store. Only two kinds of write draw an outcome from it: each `bulk_create` attempt of a subscription chunk, and each `save()` of an upload row. Every other write always succeeds (see "## Left out").
- **Browser storage:** the stored scenario list is the class `Scenarios.ScenarioStorage`.
- **Dictionaries:** Python dictionaries, JavaScript `Map`s and plain objects keep insertion order, so they are association lists. The ways real JavaScript objects differ from this are listed under "## Left out".
- **Numbers:** money and scores are exact `real`s. The FNV-1a hash state is an integer in [0, 2^32) with its wrap-around written out.
- **Shared risk score:** `client/src/App.jsx:24-48` holds a copy of `calculateChurnRiskScore` that is textually the same formula as `client/src/lib/appShared.js:4-21`. The model defines the score once, as `AppShared.RiskScore`, and the shell's members use it.

## Model

| member | source | states |
|---|---|---|
| Normalize.KeepAmountCharsFacts | analysis/normalize.py:15 | the `[^0-9.\-]` cleanup keeps a string made only of digits, dots and dashes unchanged and deletes every other character |
| Normalize.KeepAmountCharsTrim | analysis/normalize.py:23-27 | white space is never an amount character, so stripping before the cleanup does not change what the cleanup keeps |
| Normalize.CleanAmountFacts | analysis/normalize.py:18-31 | `_clean_amount`: `None` gives 0.0, ints and floats pass through as floats, a string gives `float` of its amount characters or 0.0 when that raises, and an all-blank string gives 0.0 |
| Normalize.CleanAmountString | analysis/normalize.py:23-31 | the string branch equals parsing the amount characters of the unstripped text, 0.0 when the parse fails |
| Normalize.CleanAmountIgnoresSymbols | analysis/normalize.py:26-29 | currency signs, letters and commas around an amount are ignored: the value is the parse of the digits, dots and dashes alone |
| Normalize.LowerAll | analysis/normalize.py:52 | the lower-cased headers, one per header, in order |
| Normalize.LowerIndexKeys | analysis/normalize.py:52 | the keys of `{c.lower(): c}` are the distinct lower-cased headers in order of first appearance |
| Normalize.LowerIndexValue | analysis/normalize.py:52 | each lower-cased key maps to the last header that lower-cases to it |
| Normalize.FirstMatching | analysis/normalize.py:56-58 | the first index key matched by `ln == c or ln in c or c in ln`; `None` exactly when no key matches |
| Normalize.FindColumnSpec | analysis/normalize.py:53-59 | `find` returns `None` exactly when no candidate matches any key; otherwise it returns the header of the first hit in candidate-major, key-minor order |
| Normalize.Find | analysis/normalize.py:53-59 | the nested loops with their early return compute `FindColumn` |
| Normalize.DetectNone | analysis/normalize.py:61-63 | a role gets no column exactly when none of its candidates matches any lower-cased header |
| Normalize.ColumnIndex | analysis/normalize.py:73 | the position of a header among the columns, or `None` when it is not one of them |
| Normalize.RowLimit | analysis/normalize.py:66-70 | the `idx >= sample_lines` break lets all rows through without a cap, none for a cap of 0 or less, and otherwise the smaller of the cap and the row count |
| Normalize.RowRecords | analysis/normalize.py:68-88 | one record per row that the cap lets through |
| Normalize.FirstRecords | analysis/normalize.py:68-88 | the first `n` rows give exactly `n` records |
| Normalize.NormalizeCsvText | analysis/normalize.py:34-90 | the method computes `Normalized`: blank text gives `[]`, a failed read and a failed python-engine retry give `[]`, and otherwise the converted rows |
| Normalize.ConvertRows | analysis/normalize.py:65-90 | the row loop with its early `break` builds exactly the records of the rows under the cap |
| Normalize.NormalizedRead | analysis/normalize.py:39-63 | for non-blank text that reads as a table, the output is the row records under the columns detected on its headers |
| Normalize.NormalizedBlank | analysis/normalize.py:39-40 | text made only of white space gives no records |
| Normalize.NormalizedRows | analysis/normalize.py:65-90 | one record per row up to the cap, in row order, and record `i` is built from row `i` |
| Normalize.RecordOfFields | analysis/normalize.py:71-88 | a role without a column leaves its default (no id, mrr 0.0, no signup date); a role with a column reads that cell, the mrr through `_clean_amount` and the date through `to_datetime`; `raw` is the row as a dictionary |
| Arr.ComputeMrrAndArr | analysis/arr.py:10-18 | the loop's `total_mrr` is the fold `TotalMrr` over the records, and ARR is twelve times MRR |
| Arr.TotalMrrAppend | analysis/arr.py:12-17 | the total over a concatenation is the sum of the totals, so a record that fails to convert never aborts the sum |
| Arr.TotalMrrSkips | analysis/arr.py:14-17 | a record whose `float(mrr or 0)` raises leaves the total as it was, a falsy mrr counts as 0, and a converted one adds its value |
| Arr.TotalMrrNonNegative | analysis/arr.py:12-17 | non-negative contributions give a non-negative total |
| Arr.KeyOfPrecedence | analysis/arr.py:28 | the customer key is `str` of the first truthy of `customer_id`, `id`, `name`, and `'unknown'` when none is truthy |
| Arr.Entries | analysis/arr.py:27-32 | one `(key, amount)` pair per record, in record order |
| Arr.TopCustomersByMrr | analysis/arr.py:21-34 | the method computes `Top`: the `by_id` grouping sorted by summed mrr, largest first, cut to `limit` |
| Arr.ByIdKeys | analysis/arr.py:26-32 | `by_id` has exactly the records' keys, each once, at most one entry per record, and each holds the sum of its records' amounts |
| Arr.EntriesTotal | analysis/arr.py:27-32 | the amounts of the per-record pairs add up to the MRR total |
| Arr.ByIdTotal | analysis/arr.py:26-32 | the per-customer sums add up to `compute_mrr_and_arr`'s MRR |
| Arr.TopFacts | analysis/arr.py:33-34 | the result is sorted largest first, has at most `limit` and at most one entry per customer, is a prefix of the stable descending sort (ties keep first-seen order), and each entry is a customer key with its summed mrr |
| Arr.TopCoversTotal | analysis/arr.py:33-34 | when `limit` leaves room for every customer, the listed sums add up to the MRR total |
| Cohorts.MonthBucket | analysis/cohorts.py:13-15 | the bucket of a date is its year and month |
| Cohorts.BumpFacts | analysis/cohorts.py:28 | `counts[key] += 1` raises that key's count by one and no other, appends a new key at the end, and raises the total by one |
| Cohorts.Cohortize | analysis/cohorts.py:18-29 | the loop computes `Cohortized`, the counts per month in first-seen order |
| Cohorts.CohortizedFacts | analysis/cohorts.py:23-29 | missing dates are skipped; each month's count is the number of dates in it, a month is a key exactly when some date falls in it, no key appears twice, and the counts add up to the number of present dates |
| Cohorts.CohortizeExample | analysis/cohorts.py:18-29 | two January dates, one February date and a missing date give `{(2024, 1): 2, (2024, 2): 1}` |
| Cohorts.AppendToFacts | analysis/cohorts.py:47 | `cohorts[cohort].append(x)` extends that cohort's list by `x`, leaves the others, and appends a new key at the end |
| Cohorts.Retention | analysis/cohorts.py:52-57 | a cohort's row has one entry per month up to the longest membership (none for an empty cohort) |
| Cohorts.Rows | analysis/cohorts.py:51-58 | one row per cohort, in the grouping's order |
| Cohorts.RetentionMatrix | analysis/cohorts.py:32-60 | the two loops compute `Matrix`: rows of the grouped active months |
| Cohorts.GroupByCohort | analysis/cohorts.py:41-47 | the first loop builds the grouping: each dated pair's active months appended to its month's list, in input order |
| Cohorts.CohortRows | analysis/cohorts.py:50-58 | the second loop writes each cohort's retention row under its key, in order |
| Cohorts.RetentionCounts | analysis/cohorts.py:52-57 | the nested counting loops give `Retention`: entry `i` is the number of members active for more than `i` months |
| Cohorts.GroupsFacts | analysis/cohorts.py:41-47 | a month holds exactly the active months of its dated members in input order, it is a key exactly when it has a member, and keys are distinct |
| Cohorts.MatrixFacts | analysis/cohorts.py:40-60 | pairs without a signup date take no part; the matrix has a row exactly for the months of dated pairs, that row is the retention of the month's members, and no month appears twice |
| Cohorts.CountAboveMonotone | analysis/cohorts.py:53-57 | a later month never counts more members than an earlier one, and no entry exceeds the cohort size |
| Cohorts.CountAbovePositive | analysis/cohorts.py:52-57 | some member is still active past month `i` exactly when `i` is below the longest membership |
| Cohorts.CountAboveAll | analysis/cohorts.py:36-38 | with every member active at least one month, entry 0 is the cohort size, as the docstring promises |
| Cohorts.RetentionFacts | analysis/cohorts.py:36-58 | a row has one entry per month up to the longest membership, every entry is positive, entries never increase, and entry 0 equals the cohort size when each member is active at least one month |
| Cohorts.RetentionExample | analysis/cohorts.py:32-60 | January members active 3 and 1 months and a February member active 2 months give `[2, 1, 1]` and `[1, 1]`; no pairs give an empty matrix |
| Storage.StatusName | api/models.py:24-27 | every status is stored under a non-empty name |
| Storage.StatusNameInjective | api/models.py:24-33 | the four statuses `pending`, `importing`, `complete` and `error` are stored under four different names |
| Storage.Merge | api/signals.py:36 | `save(update_fields=fields)` writes exactly the named columns from the in-memory instance and keeps every other column of the stored row |
| Storage.RetryFacts | api/signals.py:30-45 | a write retried only on `OperationalError` consumes at most `limit` attempts, all operational errors but possibly the last; it raises an operational error only after exactly `limit` of them, re-raises any other error at once, and succeeds when nothing fails |
| Storage.FindCustomerFacts | api/importer.py:32-36 | the `(org, external_id)` lookup finds nothing exactly when no row matches, the unique matching row when there is one, and reports two or more matches otherwise |
| Storage.GetOrCreateFacts | api/importer.py:32-36 | `get_or_create` returns a row with the requested key: the existing one, leaving the rows alone, or one appended with the default name; it fails only when the key is already ambiguous, and it keeps keys unique |
| Storage.Store.constructor | api/models.py:16-38 | a store holding the given uploads and automations, no customers, subscriptions or executions, and the given failure oracle |
| Storage.Store.BulkCreate | api/importer.py:53-54 | `bulk_create` inside `transaction.atomic()` appends the whole batch when the next outcome is a success and nothing otherwise; it consumes one outcome |
| Storage.Store.SaveUpload | api/signals.py:36 | an `update_fields` save merges the named columns into the stored row on success, raises the outcome's error otherwise, and fails when the row no longer exists |
| Storage.Store.GetOrCreateCustomer | api/importer.py:32-36 | the customer rows change exactly as `GetOrCreate` says and nothing else changes |
| Storage.Store.Claim | api/signals.py:143-148 | the conditional update changes one row, to importing with the start time, an empty error and zero created, exactly when the upload exists and is pending; otherwise it changes nothing and reports 0 |
| Storage.Store.CreateExecution | api/tasks.py:30 | `AutomationExecution.objects.create` appends an unfinished, unsuccessful record without result and returns its key |
| Storage.Store.SaveExecution | api/tasks.py:45 | `exec_log.save()` replaces that execution record and nothing else |
| Storage.Store.SaveLastRun | api/tasks.py:47-48 | `auto.save(update_fields=['last_run'])` sets that automation's `last_run` and nothing else |
| Storage.Store.UpdateUpload | api/signals.py:158-162 | `filter(pk=pk).update(...)` writes the named columns of that row when it exists and changes nothing else |
| Storage.Claimed | api/signals.py:143-148 | a claimed row is importing, started now, with an empty error message and zero created, and keeps its key, organization, file and completion time |
| Storage.ClaimTwice | api/signals.py:139-151 | of two claims on one pending upload only the first changes a row, so a second handler skips the import |
| Importer.CustomerIdOf | api/importer.py:30 | an empty customer id counts as no id; a non-empty one is kept |
| Importer.DefaultName | api/importer.py:31 | a missing or falsy name falls back to the customer id, or to the empty string when there is none |
| Importer.BuildFacts | api/importer.py:29-42 | the record loop queues one subscription per record, in order, carrying the record's mrr and signup date and this upload, pointing at a customer of the upload's organization with the record's id; stored customers are kept and unique keys stay unique, so with unique keys the loop never fails |
| Importer.BuildAgainReuses | api/importer.py:32-36 | importing the same records again into the rows the first import left creates no customer |
| Importer.BuildOverKnown | api/importer.py:32-36 | when every record's key already has a row, the record loop leaves the customer rows unchanged |
| Importer.BuildStopped | api/importer.py:29-42 | once `get_or_create` has raised, the later records change nothing |
| Importer.ChunksFacts | api/importer.py:46-48 | the batches `subs_to_create[i:i + 200]` cover the list in order; each is non-empty and at most 200 long, all but the last exactly 200 |
| Importer.WriteChunks | api/importer.py:47-62 | the write loop never counts more subscriptions than were queued |
| Importer.WriteChunksFacts | api/importer.py:47-62 | when no exception escapes every queued subscription is counted; when one escapes only whole chunks are counted, fewer than all; with no failures to meet, everything is written |
| Importer.ChunkGivesUpAfterSeven | api/importer.py:49-61 | an `OperationalError` escapes a chunk only after seven operational errors in a row, all met by that chunk |
| Importer.WriteBatch | api/importer.py:49-62 | one chunk is retried while it meets `OperationalError`, at most seven times; it is appended exactly when an attempt succeeds, and only the failure oracle changes otherwise |
| Importer.WriteBatches | api/importer.py:46-64 | the write loop returns the count and the escaping exception that `Importer.WriteChunks` gives on the store's failure oracle, and appends exactly the chunks written before it |
| Importer.BuildSubscriptions | api/importer.py:29-42 | the record loop changes only the customer rows, exactly as `Importer.Build` says, and returns its queued subscriptions or the exception |
| Importer.ImportSingleUpload | api/importer.py:7-64 | `import_single_upload` changes the rows and returns or raises exactly as `Importer.Import` says |
| Importer.ImportRecordsFacts | api/importer.py:27-64 | when no exception escapes one subscription per record is appended and their number returned; an escaping exception leaves fewer appended; uploads, automations and executions are untouched; with unique keys and no failures the import always returns the record count |
| Importer.ImportKeepsRows | api/importer.py:7-64 | the importer leaves upload, automation and execution rows alone and, meeting no failure, leaves none to meet |
| Importer.ImportWithoutFile | api/importer.py:15-23 | with no upload, no file or a file that cannot be read, nothing is written and 0 is returned |
| Importer.ImportedRows | api/importer.py:37-42 | each subscription an import appends matches its record: same mrr, same start date, this upload as source, and a customer of the upload's organization with the record's id |
| Signals.SaveWithRetry | api/signals.py:30-45 | `save_with_retry` changes the rows and re-raises exactly as `Signals.SaveRetried` says |
| Signals.SaveRetriedFacts | api/signals.py:30-45 | a save meets at most six outcomes; an `OperationalError` is re-raised only after six in a row, any other failure at once and with the row untouched; with no failure to meet the named fields are written from the instance; customers and subscriptions never change |
| Signals.RunImportSync | api/signals.py:19-106 | the thread body marks the upload importing, imports it and records `complete` or `error`, each save retried and its failure swallowed, exactly as `Signals.RunSync` says |
| Signals.RunSyncWithoutFaults | api/signals.py:47-90 | with no transient failure the thread leaves the upload started at the time it set, `complete` with the importer's count and completion time when the import returns, and `error` with the exception text, a newline and the first 1000 characters of the traceback when it raises |
| Signals.RunSyncMissing | api/signals.py:26-27 | the thread changes nothing for an upload that no longer exists, the outer handler finding no row at 94-95 |
| Signals.Finished | api/signals.py:158-169 | the outcome update sets `complete` with the count and completion time, or `error` with the fixed prefix and the traceback's first 1000 characters, and keeps the key, organization, file and start time |
| Signals.InlineImportSync | api/signals.py:143-169 | the inline branch claims the upload and imports and records the outcome only when the claim changed a row, exactly as `Signals.InlineImport` says |
| Signals.ImportAndRecord | api/signals.py:155-169 | the import under a claim, followed by the `update()` of its outcome, changes the rows as `Signals.ImportAndFinish` says |
| Signals.MergeFinished | api/signals.py:158-169 | writing the outcome's own field list from the finished instance gives the finished stored row |
| Signals.InlineImportOutcome | api/signals.py:143-169 | after a successful claim the upload is `complete` exactly when the importer returned, with its count and the completion time, and `error` exactly when it raised, with the fixed prefix and traceback head; the start time is the claim's |
| Signals.InlineImportOnce | api/signals.py:139-151 | two handlers that both saw the upload pending, run one after the other, import once: the second claim changes no row |
| Signals.ShouldImport | api/signals.py:117-126 | the guards: the instance has a file, no subscription comes from this upload yet, and the stored status is `pending` |
| Signals.Route | api/signals.py:129-210 | the import runs inline exactly when `DEBUG_IMPORT_SYNC` is set, goes to the task queue exactly when it is not, a task exists, `DEBUG` is off and enqueueing succeeds, and otherwise starts a thread, never skipping |
| Signals.OnUploadSaved | api/signals.py:109-210 | `on_upload_saved` changes the rows and dispatches exactly as `Signals.OnSaved` says |
| Signals.OnSavedFacts | api/signals.py:117-210 | the handler skips exactly when a guard fails, and then changes nothing; the queued and thread paths leave the rows untouched |
| Signals.OnSavedTwice | api/signals.py:117-170 | saving the upload again after an inline import triggers nothing, because it is no longer pending |
| Tasks.ExecuteAutomationSync | api/tasks.py:24-56 | `_execute_automation_sync` changes the rows and replies exactly as `Tasks.Execute` says |
| Tasks.StoppedStays | api/tasks.py:35-41 | once an action has raised, the later actions are never looked at |
| Tasks.RunActionsFacts | api/tasks.py:35-41 | the action loop yields one result per action, in order, each with the action's name and whether it is a supported stub, exactly when every action is a dictionary; otherwise it stops at the first that is not, with its `AttributeError` text |
| Tasks.ActionNamePrecedence | api/tasks.py:36 | an action's name is the first truthy of `name` and `type`, else `'unknown'` |
| Tasks.ExecuteFacts | api/tasks.py:24-56 | an unknown automation gets `{'error': 'not found'}` and no record; a known one gets exactly one new record started at `now` and finished at `finished`, successful exactly when the reply carries the results, which it stores, and then `last_run` is its finish time; a failure records the error and leaves the automations alone; no other rows change |
| Tasks.ExecuteNoActions | api/tasks.py:34-49 | an automation whose actions are null or empty succeeds with an empty result list |
| Tasks.ImportUploadedCsvTask | api/tasks.py:62-113 | `import_uploaded_csv_task` changes the rows and returns or raises exactly as `Tasks.ImportTask` says |
| Tasks.RunImporter | api/tasks.py:84-113 | the importer call and the status write after it change the rows as `Tasks.ImportAndMark` says |
| Tasks.ImportTaskMissing | api/tasks.py:68-72 | a missing upload: the task returns 0 and changes nothing |
| Tasks.ImportTaskResult | api/tasks.py:75-113 | the task returns or raises the importer's own outcome, whether or not the importing mark was saved |
| Tasks.ImportTaskWithoutFaults | api/tasks.py:75-113 | with no write failure the upload ends `complete` with the returned count; a `DatabaseError` under a worker leaves it `error` with the exception text; any other exception, and every exception on a direct call, leaves it `importing`; the start time is the task's |
| Insights.CoerceStoredMrr | api/services/insights.py:29-30 | a stored amount is a number, so `float(s.mrr or 0)` already succeeds and keeps its value |
| Insights.CoerceText | api/services/insights.py:29-36 | for a text amount the coercion chain ends in the parsed number, or in 0.0 when the text is empty or does not parse |
| Insights.CustomerKey | api/services/insights.py:37 | a subscription's customer is keyed by its non-empty external id, else its non-empty name, else its primary key written out; the key is never empty |
| Insights.ComputeOrgKpis | api/services/insights.py:15-47 | `compute_org_kpis` reads the rows, changing none, and returns exactly the result of `Insights.Kpis` |
| Insights.OrgRecordsFacts | api/services/insights.py:25-38 | the loop appends one record per subscription of the organization (from `since` on), and their MRR is the sum of those subscriptions' amounts |
| Insights.RecordMrr | api/services/insights.py:30-38 | the record built for a subscription contributes exactly its amount |
| Insights.KpisAreOrgMrr | api/services/insights.py:23-44 | MRR is the sum of the organization's subscription amounts from `since` on, ARR is twelve times it, and no such subscription gives zero KPIs and no top customers |
| Insights.UncountedIgnored | api/services/insights.py:25-27 | a subscription of another organization, or one started before `since`, changes nothing in the result |
| Insights.SinceFilters | api/services/insights.py:26-27 | `since` only removes subscriptions: one counts under it exactly when it counts without it and starts on or after `since`, and one without a start date never counts under it |
| Insights.ReadFailureIsZero | api/services/insights.py:39-42 | a failing database read degrades to zero MRR and ARR and no top customers |
| Insights.TopIsBounded | api/services/insights.py:45 | the top list has at most ten entries, sorted by summed MRR, largest first |
| ClientCohorts.MonthKeyShape | client/src/utils/cohorts.js:5 | a month key is the local year's decimal text, a dash and the month padded to exactly two digits |
| ClientCohorts.MonthKeyInjective | client/src/utils/cohorts.js:5 | two local dates share a month key exactly when they fall in the same year and month |
| ClientCohorts.MonthKeyFromDateFacts | client/src/utils/cohorts.js:2-6 | `monthKeyFromDate` is `null` exactly for an invalid date, including unparsable text and `undefined`; otherwise a non-empty key |
| ClientCohorts.MonthsBetweenNull | client/src/utils/cohorts.js:8-14 | `monthsBetween` is `null` exactly when one of the dates is invalid |
| ClientCohorts.MonthsBetweenAntisymmetric | client/src/utils/cohorts.js:13 | from a valid date to itself the distance is 0, and swapping the dates negates it |
| ClientCohorts.MonthsBetweenAdds | client/src/utils/cohorts.js:13 | distances add up along a chain of three dates |
| ClientCohorts.MonthsBetweenZero | client/src/utils/cohorts.js:2-14 | the distance is 0 exactly between two valid dates with the same month key |
| ClientCohorts.FillAdd | client/src/utils/cohorts.js:33-36 | a record inside the window adds its value to its cohort's cell at its offset, creating a zero-filled bucket first when the cohort has none |
| ClientCohorts.FillSkip | client/src/utils/cohorts.js:24-32 | a record with an invalid signup date, a null offset or an offset outside `0 .. months - 1` changes no bucket |
| ClientCohorts.AddRecord | client/src/utils/cohorts.js:23-37 | one pass of the record loop updates the buckets exactly as `ClientCohorts.Step` says |
| ClientCohorts.AddToBucket | client/src/utils/cohorts.js:34-36 | the bucket update adds the value at the offset of that cohort's bucket, created first when missing |
| ClientCohorts.GenerateCohortTable | client/src/utils/cohorts.js:18-45 | `generateCohortTable` returns exactly the headers and rows of `ClientCohorts.Table` |
| ClientCohorts.FillKeys | client/src/utils/cohorts.js:34 | a cohort has a bucket exactly when some record lands in it inside the window, and no cohort has two |
| ClientCohorts.FillValues | client/src/utils/cohorts.js:33-36 | each bucket has `months` sums, each the total of the values landing in that cell |
| ClientCohorts.NoLandingCell | client/src/utils/cohorts.js:34-36 | a cohort without a bucket has nothing landing in any cell of the window |
| ClientCohorts.RowsOrdered | client/src/utils/cohorts.js:40-42 | the rows are strictly descending by cohort key, so no cohort appears twice |
| ClientCohorts.RowsContents | client/src/utils/cohorts.js:40-42 | every row is a cohort some record lands in, with `months` values, the sums of its cells |
| ClientCohorts.RowsCover | client/src/utils/cohorts.js:40-42 | every cohort some record lands in has a row |
| ClientCohorts.TableFacts | client/src/utils/cohorts.js:18-45 | the headers are `'0'` to `String(months - 1)`; the rows are exactly the cohorts some record lands in, each once, strictly descending by key, each with `months` cell sums |
| ClientCohorts.SkippedRecord | client/src/utils/cohorts.js:26-32 | appending a record that lands nowhere leaves the table unchanged |
| ClientCohorts.InvalidSignupSkipped | client/src/utils/cohorts.js:24-26 | a record whose signup date is invalid lands nowhere |
| ClientCohorts.RetentionFacts | client/src/utils/cohorts.js:51-54 | one percentage per value; with a positive month-0 value the first is 100, each is its value's share of month 0 and larger values get larger percentages; otherwise all are 0 |
| ClientCohorts.RetentionKeepsTable | client/src/utils/cohorts.js:48-57 | the retention table keeps the cohort table's headers, cohorts and values, adding each row's percentages |
| ClientCohorts.TopCustomers | client/src/utils/cohorts.js:59-68 | `topCustomers` returns exactly the (id, total) list of `ClientCohorts.Top` |
| ClientCohorts.CustomerIdPrecedence | client/src/utils/cohorts.js:63 | a record's id is the first truthy of `r[idKey]`, `r.id` and `r.name`, else `'unknown'` |
| ClientCohorts.TopFacts | client/src/utils/cohorts.js:61-67 | the list is sorted by total, largest first, keeps first-seen order among equal totals, has at most `limit` entries and one per distinct id, is a prefix of all groups sorted, and pairs each id of the records with the sum of its records' values |
| ClientCohorts.ListCustomersForCell | client/src/utils/cohorts.js:72-85 | `listCustomersForCell` returns exactly the records `ClientCohorts.ListForCell` selects, in input order |
| ClientCohorts.ListNeedsCell | client/src/utils/cohorts.js:74 | without a truthy cohort or a numeric month index the list is empty |
| ClientCohorts.CellRecordsMembers | client/src/utils/cohorts.js:76-83 | the listed records are exactly the input's records whose month key is the cohort and whose offset is the month index |
| ClientCohorts.ListSumIsCell | client/src/utils/cohorts.js:72-85 | for a cell inside the window, the listed records' values add up to that cell of the cohort table built with the same date key |
| ClientCohorts.NoEmptyCohort | client/src/utils/cohorts.js:5 | nothing lands in the cohort with the empty key, since every month key is non-empty |
| ClientCohorts.InCellIsCell | client/src/utils/cohorts.js:24-36 | inside the window, matching a cell in the listing and landing in it in the table are the same |
| Analytics.FindDateKey | client/src/utils/analytics.js:16-20 | the search over candidate keys returns the first key some record holds a date in, exactly as `Analytics.FirstDateKey` says |
| Analytics.FirstDateKeyFacts | client/src/utils/analytics.js:16-25 | a key is found exactly when some candidate works, and it is the first candidate that works: no earlier one does |
| Analytics.FoundKeyFacts | client/src/utils/analytics.js:13-28 | the fixed keys `date`, `month`, `created_at`, … take precedence; the first record's own fields are tried only when none of them works; the key found always holds a date in some record and is never the empty string |
| Analytics.NoRecordsNoKey | client/src/utils/analytics.js:11 | with no record there is no date key |
| Analytics.AddToMonths | client/src/utils/analytics.js:31-40 | one step of `records.forEach` places the record's MRR under its month and customer key, or skips a record with no valid date, as `Analytics.Place` says |
| Analytics.MonthsFacts | client/src/utils/analytics.js:37-39 | the month map has a month exactly when some record falls in it; months and customers are keyed uniquely; a customer's MRR in a month is the one from the last record that wrote it |
| Analytics.Movement | client/src/utils/analytics.js:53-69 | the two `forEach` loops of a later month compute exactly the new revenue of customers absent before, the increases of returning customers, and the decreases plus the previous MRR of customers gone or at zero |
| Analytics.MonthsWellKeyed | client/src/utils/analytics.js:37-39 | every month's customers are keyed uniquely |
| Analytics.BuildMonths | client/src/utils/analytics.js:30-40 | the `forEach` fills `monthCustomerMap` exactly as `Analytics.Months` says |
| Analytics.Enrich | client/src/utils/analytics.js:47-71 | `series.map` gives each month its total and its movements against the month before, as `Analytics.Series` says |
| Analytics.ComputeMonthlySeries | client/src/utils/analytics.js:10-74 | `computeMonthlySeries` returns exactly the result of `Analytics.MonthlySeries`, `null` included |
| Analytics.DateLikeHasPeriod | client/src/utils/analytics.js:17-36 | a field that passes the key search's test also passes the `forEach` guard and yields a month |
| Analytics.SeriesNullCases | client/src/utils/analytics.js:11-43 | `null` comes exactly from an empty list or from finding no date key; once a key is found some record falls in a month, so the check at line 43 never fires |
| Analytics.PeriodsFacts | client/src/utils/analytics.js:42 | the periods are the months some record falls in, strictly ascending, each once |
| Analytics.SeriesOfFacts | client/src/utils/analytics.js:42-49 | the rows are the months some record falls in, strictly ascending; each total is the sum of its customers' MRR, and a customer's MRR in a month is that of the last record for it |
| Analytics.SeriesFacts | client/src/utils/analytics.js:10-74 | the same facts for the records' own months under the key found |
| Analytics.FirstMonthIsNew | client/src/utils/analytics.js:50 | the first month counts all its revenue as new, with no expansion and no churn |
| Analytics.CurrentSplit | client/src/utils/analytics.js:48-64 | a month's total splits into new revenue, the returning customers' previous MRR, expansion less decreases |
| Analytics.PreviousSplit | client/src/utils/analytics.js:65-69 | the previous total splits into what returning customers had and what is lost, less the customers counted twice |
| Analytics.SharedSymmetric | client/src/utils/analytics.js:54-69 | the returning customers' previous MRR is the same summed in either month's order |
| Analytics.MovementLaw | client/src/utils/analytics.js:53-69 | the total moves by new revenue plus expansion minus churn, plus the previous MRR of customers still present at zero, which churn counts twice |
| Analytics.NoZeroNoDouble | client/src/utils/analytics.js:61-68 | without a returning customer at zero nothing is counted twice, so the total moves by exactly new plus expansion minus churn |
| Analytics.SeriesMovement | client/src/utils/analytics.js:47-71 | the movement law holds for every later row of the series against the row before it |
| Analytics.ZeroCountsTwice | client/src/utils/analytics.js:61-68 | a customer going from 100 to 0 churns 200 while the total falls by 100 |
| Scenarios.IndexPresent | client/src/utils/scenarioPersistence.js:34-40 | the loop over the stored scenarios builds `mergedMap` exactly as `Scenarios.PresentMap` says |
| Scenarios.IndexById | client/src/utils/scenarioPersistence.js:43-46 | the loop builds `presentById` exactly as `Scenarios.ById` says |
| Scenarios.AbsorbOne | client/src/utils/scenarioPersistence.js:49-71 | one pass over an incoming scenario updates the map exactly as one absorb step says |
| Scenarios.AbsorbIncoming | client/src/utils/scenarioPersistence.js:49-71 | the loop over the incoming scenarios updates the map exactly as `Scenarios.AbsorbAll` says |
| Scenarios.CollectKeys | client/src/utils/scenarioPersistence.js:74 | the incoming keys are each incoming scenario's key, in order, dropping the ones without |
| Scenarios.PushIncoming | client/src/utils/scenarioPersistence.js:75-80 | the first loop pushes the map's value of each incoming key it holds, in order, and records exactly those keys as added |
| Scenarios.PushRest | client/src/utils/scenarioPersistence.js:81-84 | the second loop appends, in map order, the values whose key was not added |
| Scenarios.KeyOfFacts | client/src/utils/scenarioPersistence.js:32 | the canonical key is `'srv-' + serverId` when there is a truthy server id, else a truthy local id, else none; a key is always truthy |
| Scenarios.NormFacts | client/src/utils/scenarioPersistence.js:27 | normalising sets `updatedAt` to the first truthy of `updatedAt`, `createdAt` and the clock's text, keeps a truthy one, and leaves every other field alone |
| Scenarios.PutKeyed | client/src/utils/scenarioPersistence.js:39 | storing a keyed scenario under its own key keeps every entry under its scenario's key, each key once |
| Scenarios.PresentMapKeyed | client/src/utils/scenarioPersistence.js:34-40 | the stored scenarios are indexed under their own keys, each key once |
| Scenarios.DropOptimisticFacts | client/src/utils/scenarioPersistence.js:53-60 | an incoming scenario with both a server id and a local id removes exactly the entry of the stored scenario with that local id, under that scenario's own key; any other scenario removes nothing |
| Scenarios.AbsorbFacts | client/src/utils/scenarioPersistence.js:49-71 | for the incoming scenario's key the later `updatedAt` wins, a tie going to the incoming one, an invalid date counting as time 0 and a missing entry taking the incoming one; every other key keeps what the drop step left |
| Scenarios.UnkeyedIgnored | client/src/utils/scenarioPersistence.js:36-63 | a scenario with neither a server id nor a local id changes neither map |
| Scenarios.AbsorbAllKeyed | client/src/utils/scenarioPersistence.js:49-71 | the merged map stays keyed through every incoming scenario |
| Scenarios.MergedKeyed | client/src/utils/scenarioPersistence.js:34-71 | after both loops every entry of the merged map sits under its scenario's own key, each key once |
| Scenarios.FrontRestFacts | client/src/utils/scenarioPersistence.js:74-84 | the two output loops list every value of the map, each the map's value for its key; the first part's keys are incoming keys and the rest's are not; distinct incoming keys give no repeated key |
| Scenarios.FinalListFacts | client/src/utils/scenarioPersistence.js:20-84 | the final list is the incoming keys' scenarios first, then every other merged scenario; none is lost before the cap, and with distinct incoming keys no key appears twice |
| Scenarios.RepeatedKeyTwice | client/src/utils/scenarioPersistence.js:77-80 | a key that comes twice among the incoming keys puts its value in the list twice |
| Scenarios.ConfirmReplacesOptimistic | client/src/utils/scenarioPersistence.js:50-60 | a stored optimistic scenario and its server-confirmed copy with the same local id merge into just the confirmed copy, whatever their times |
| Scenarios.ConfirmAbsorbed | client/src/utils/scenarioPersistence.js:53-65 | the confirmed copy's pass deletes the optimistic entry and stores the copy under its server key |
| Scenarios.EmptyStoragePersistsIncoming | client/src/utils/scenarioPersistence.js:20-90 | with nothing stored, a keyed incoming scenario, normalised, is what the merge returns and writes |
| Scenarios.MergeResultFacts | client/src/utils/scenarioPersistence.js:87 | the result is the first `min(50, n)` scenarios of the final list |
| Scenarios.ScenarioStorage.constructor | client/src/utils/scenarioPersistence.js:2 | the storage entry starts with the given slot |
| Scenarios.ScenarioStorage.Read | client/src/utils/scenarioPersistence.js:4-11 | a throwing `getItem`, an empty slot or text that does not parse reads as `[]` |
| Scenarios.ScenarioStorage.ReadSavedScenarios | client/src/utils/scenarioPersistence.js:4-11 | `readSavedScenarios` returns exactly what `Scenarios.Read` says and changes nothing |
| Scenarios.ScenarioStorage.PersistScenarios | client/src/utils/scenarioPersistence.js:13-15 | `persistScenarios` stores the list, and a throwing `setItem` leaves the slot as it was |
| Scenarios.ScenarioStorage.MergeAndPersistScenarios | client/src/utils/scenarioPersistence.js:20-95 | when storage throws, the incoming list is returned and nothing is written; otherwise the merge result is returned and written; the result has at most 50 scenarios unless it is the incoming list |
| Csv.SplitPieces | client/src/utils/csv.js:33-34 | no piece of `split(',')` holds the separator |
| Csv.SplitJoin | client/src/utils/csv.js:33-34 | joining the pieces of `split(c)` with `c` gives the text back |
| Csv.JoinSplit | client/src/utils/csv.js:33-34 | splitting pieces joined with `c` gives the pieces back when none holds `c` |
| Csv.ToCsv | client/src/utils/csv.js:1-14 | `toCSV` returns the header line and the row lines joined by `'\n'`, exactly as `Csv.CsvLines` says |
| Csv.ReadEscaped | client/src/utils/csv.js:9 | a text with its quotes doubled, followed by the closing quote, reads back as that text under the quoting rule of section 2, rule 7 of RFC 4180 |
| Csv.ReadQuoted | client/src/utils/csv.js:6-10 | a line of quoted, escaped cells joined by commas reads back as the cells' texts |
| Csv.CsvLinesFacts | client/src/utils/csv.js:3-13 | the output has the raw header line exactly when there are headers, then one line per row, which reads back as that row's cell texts in header order; with no headers every row line is empty |
| Csv.CellTextFacts | client/src/utils/csv.js:7 | a missing, null or undefined cell is written as the empty text, a string cell as itself |
| Csv.NonEmptyFacts | client/src/utils/csv.js:31 | `.filter(Boolean)` keeps exactly the non-empty lines, in order |
| Csv.TextLinesFacts | client/src/utils/csv.js:31 | every line kept is non-empty and holds no line break |
| Csv.CellsOfJoin | client/src/utils/csv.js:33-34 | splitting a line joined from comma-free pieces on `,` and trimming gives each piece trimmed |
| Csv.FillRow | client/src/utils/csv.js:36-42 | the `forEach` fills the row object exactly as `Csv.RowObject` says |
| Csv.RowObjectFacts | client/src/utils/csv.js:35-43 | the row object holds each header once; a header's value is the cell under its last occurrence, `''` past the row's end; any other key is `undefined` |
| Csv.NumericIsNumber | client/src/utils/csv.js:40 | a cell matching `/^-?\d+(?:\.\d+)?$/` becomes exactly JavaScript's `Number(v)` of it, the decimal it denotes |
| Csv.ParseCsvNoText | client/src/utils/csv.js:30 | a value that is not a string, or the empty string, gives no object |
| Csv.ParseCsvRows | client/src/utils/csv.js:31-35 | header-only text gives no object; otherwise one object per non-empty line after the header line |
| Csv.BlankHasNoLines | client/src/utils/csv.js:31-32 | a text of whitespace has no lines and gives no object |
| AppShared.Feature | client/src/lib/appShared.js:10-13 | a feature is `parseFloat` of the field when that gives a number, and 0 when it gives NaN |
| AppShared.Score | client/src/lib/appShared.js:14-20 | the weighted score is clamped to [0, 100] |
| AppShared.RiskScore | client/src/lib/appShared.js:4-21 | `calculateChurnRiskScore` always lies within [0, 100] |
| AppShared.ExactInRange | client/src/lib/appShared.js:6-20 | for a probability in [0, 1] and non-negative features the clamp never bites: the score is exactly 50·prob + 20·ticketRisk + 20·activityRisk + 10·mrrRisk with the risks of lines 11-13 |
| AppShared.Saturation | client/src/lib/appShared.js:11-13 | tickets saturate at 10, inactivity at 60 days, and from MRR 2000 on the MRR component is 0 |
| AppShared.Monotone | client/src/lib/appShared.js:10-20 | the score does not fall as probability, tickets or inactivity grow, nor rise as MRR grows |
| AppShared.NonNumericIsZero | client/src/lib/appShared.js:10-13 | missing, null, boolean, NaN and object inputs all read as 0 |
| AppShared.MissingIsZero | client/src/lib/appShared.js:5-13 | a field the customer does not have reads as 0 |
| Churn.WeightsOf | client/src/utils/churn.js:11-15 | a given weight is kept and a null or undefined one takes its default: 0.5 for tickets, 0.35 for activity, 0.15 for MRR |
| Churn.Estimate | client/src/utils/churn.js:18-27 | the estimate on numeric features always lies in [0, 1] |
| Churn.EstimateFromFeatures | client/src/utils/churn.js:46-48 | `estimateChurnFromFeatures` is the detailed estimate's number, within [0, 1] |
| Churn.EstimateSimple | client/src/utils/churn.js:50-52 | `estimateChurnSimple` is the same number, within [0, 1] |
| Churn.RiskBounds | client/src/utils/churn.js:18-20 | each risk lies in [0, 1] for non-negative features; tickets saturate at 10, inactivity at 60 days, and MRR risk is 0 from 5000 on |
| Churn.ContributionsFacts | client/src/utils/churn.js:30-35 | the sorted contributions are a permutation of the three, largest first, ties keeping the written order, and the first is the largest |
| Churn.DetailedEstimate | client/src/utils/churn.js:22-27 | the estimate is the sum of the three contributions, clamped to [0, 1] |
| Churn.DetailedContributions | client/src/utils/churn.js:4-43 | the reported contributions are the three sorted largest first, ties in the written order; the main driver is the first and largest |
| Churn.NonNumericIsZero | client/src/utils/churn.js:6-8 | a feature for which `Number(v)` is NaN counts as 0 |
| Churn.Monotone | client/src/utils/churn.js:18-27 | with non-negative weights the estimate does not fall as tickets or inactivity grow and does not rise as MRR grows |
| Churn.DefaultWeightsNonNegative | client/src/utils/churn.js:10-15 | the default weights are non-negative and sum to 1 |
| Churn.RiskOrdering | client/src/utils/churn.js:4-27 | three customers, from low to high risk, get non-decreasing estimates under the default weights |
| WhatIf.Reduction | client/src/pages/WhatIfSimulation.jsx:242 | the combined reduction never exceeds 0.99 |
| WhatIf.Simulate | client/src/pages/WhatIfSimulation.jsx:233-248 | no customers give five zeros; the projected savings are always the potential loss less the simulated loss |
| WhatIf.DeleteScenario | client/src/pages/WhatIfSimulation.jsx:223-230 | `deleteScenario` sets the list to the remaining scenarios and writes it to storage, a throwing `setItem` leaving storage alone; the selection is cleared exactly when it was the deleted id |
| WhatIf.TargetsFacts | client/src/pages/WhatIfSimulation.jsx:234-247 | the targets are exactly the customers at the selected level, in order, and all of them for `'All'`; the count is their number |
| WhatIf.NonTargetIgnored | client/src/pages/WhatIfSimulation.jsx:238-247 | a customer outside the selected level changes none of the five results |
| WhatIf.LossBounds | client/src/pages/WhatIfSimulation.jsx:242-244 | one customer's simulated loss is never negative and never below 1% of its potential loss, and with non-negative effects never above it |
| WhatIf.SumBounds | client/src/pages/WhatIfSimulation.jsx:240-245 | per-customer bounds between the potential and simulated losses add up over the sums |
| WhatIf.CustomerBounds | client/src/pages/WhatIfSimulation.jsx:240-244 | the one-customer bounds for a customer's own MRR and churn probability |
| WhatIf.SavedBounds | client/src/pages/WhatIfSimulation.jsx:233-248 | with non-negative MRR and churn the simulated loss is non-negative and the savings are at most 99% of the potential loss; with non-negative effects too the savings are non-negative |
| WhatIf.OwnerSplit | client/src/pages/WhatIfSimulation.jsx:267-292 | a local-only scenario is the user's and never shared; none is both; a server scenario with no known owner is in neither list; a server scenario is shared exactly when its owner is known and it is not the user's |
| WhatIf.ListsDisjoint | client/src/pages/WhatIfSimulation.jsx:267-292 | the two lists hold exactly the saved scenarios passing each filter, and no scenario appears in both |
| WhatIf.RemainingFacts | client/src/pages/WhatIfSimulation.jsx:225 | deleting keeps exactly the scenarios whose id is not strictly equal to the given one; deleting the same id again changes nothing |
| ForecastKey.FnvUpdate | client/src/pages/TimeSeriesForecast.jsx:89-95 | `fnv1aUpdate` returns exactly the state after feeding the text's UTF-16 code units (`charCodeAt(i)` for `i < length`) one at a time |
| ForecastKey.Digest | client/src/pages/TimeSeriesForecast.jsx:96 | the digest is non-empty lowercase hex without a leading zero, and reads back as the hash |
| ForecastKey.InputKey | client/src/pages/TimeSeriesForecast.jsx:98-141 | the effect's sequence of `fnv1aUpdate` calls yields exactly the digest of the hash of the settings and row text |
| ForecastKey.FeedData | client/src/pages/TimeSeriesForecast.jsx:115-139 | the monthly series's rows are fed when there are any, else the records', else `'0'`, continuing the hash of what came before |
| ForecastKey.FeedCounted | client/src/pages/TimeSeriesForecast.jsx:117-136 | the row count then the rows continue the hash of what came before |
| ForecastKey.FeedRows | client/src/pages/TimeSeriesForecast.jsx:118-136 | the row loop continues the hash of what came before with each row's chunk in turn |
| ForecastKey.Feed | client/src/pages/TimeSeriesForecast.jsx:89-95 | one update call continues the hash of what came before with the chunk |
| ForecastKey.SeriesChunks | client/src/pages/TimeSeriesForecast.jsx:118-125 | one chunk per series row, a bar, the period, a colon and the total |
| ForecastKey.RecordChunks | client/src/pages/TimeSeriesForecast.jsx:128-136 | one chunk per record, a bar, then `period` or `date` or `''`, `':'`, then `total` or `MRR` or `''` |
| ForecastKey.KeyCache.constructor | client/src/pages/TimeSeriesForecast.jsx:144-148 | the stored key starts as `null` |
| ForecastKey.KeyCache.ShouldSkip | client/src/pages/TimeSeriesForecast.jsx:144-148 | the effect skips exactly when the key equals the stored one, and the stored key is then the new key |
| ForecastKey.Streaming | client/src/pages/TimeSeriesForecast.jsx:89-95 | hashing `s` and then `t` equals hashing `s + t`, so feeding small chunks gives the hash of the whole text |
| ForecastKey.DigestFacts | client/src/pages/TimeSeriesForecast.jsx:96 | the digest has at most 8 digits and different hashes have different digests |
| ForecastKey.SeriesFirst | client/src/pages/TimeSeriesForecast.jsx:116-126 | a non-empty monthly series takes precedence: the records do not affect the key |
| ForecastKey.AsciiIsFnv1a | client/src/pages/TimeSeriesForecast.jsx:88-95 | on ASCII text the hash is exactly 32-bit FNV-1a over the text's octets |
| ForecastKey.SurrogatesHashed | client/src/pages/TimeSeriesForecast.jsx:89-95 | a character above U+FFFF is hashed as its two surrogate code units, high then low (U+1F600 as D83D, then DE00) |
| Text.Utf16Injective | client/src/pages/TimeSeriesForecast.jsx:90-91 | distinct strings have distinct UTF-16 code unit sequences, so comparing and hashing code units loses nothing |
| Text.LexLessTotal | client/src/utils/cohorts.js:41 | the code-unit order of `<` on strings is total on distinct strings and never holds both ways |
| Text.UnitOrderNotCodePointOrder | client/src/utils/analytics.js:42 | string order compares code units, not code points: U+1F600 sorts before U+FFFD |
| ForecastKey.EmptyDigest | client/src/pages/TimeSeriesForecast.jsx:88-96 | the empty input hashes to the offset basis, printed `811c9dc5` |
| App.RiskLevel | client/src/App.jsx:1590 | the level is High exactly when the score is at least 70, Medium exactly when it lies in [40, 70), Low exactly when it is below 40 |
| App.LevelMonotone | client/src/App.jsx:1590 | a higher score never gets a less severe level |
| App.EnhanceFields | client/src/App.jsx:1587-1630 | every enhanced row carries its customer's risk score, which lies in [0, 100], the level matching that score, and `_churnComputed` true exactly when the toggle is on and the churn needs an estimate |
| App.WithEstimateFields | client/src/App.jsx:1612-1615 | writing the estimate changes only `churnProbability`, `_churnDriver` and `_churnContributions` |
| App.EnhancedSorted | client/src/App.jsx:1586-1632 | the enhanced list is a permutation of the enhanced rows, sorted by descending score with ties in their original order; each row's level matches its score, so levels never rise down the list |
| App.EnhancedSane | client/src/App.jsx:1589 | an enhanced row with a non-negative numeric MRR satisfies the simulation's sanity condition: its score is a number in [0, 100] |
| App.PushToast | client/src/App.jsx:1528-1532 | the new toast comes first, followed by the old toasts in order, and at most six are kept |
| App.PushAllNewest | client/src/App.jsx:1528-1532 | after pushing a sequence of toasts the list is the pushed ones in reverse order followed by the old ones, cut to six |
| App.RemoveFacts | client/src/App.jsx:1533 | removing keeps exactly the toasts with another id, is idempotent, and changes nothing when no toast has the id |
| App.PushThenRemove | client/src/App.jsx:1528-1533 | dismissing the toast just pushed leaves the old toasts that were kept, minus any sharing its id |
| App.ContactFacts | client/src/App.jsx:1683-1690 | only rows whose id is strictly equal to the given one change; they get `isContacted` true and keep every other property; marking twice equals marking once |
| App.OverviewData | client/src/App.jsx:1694-1732 | the count is the number of customers, the total the sum of `Number(MRR)` or 0, the average 0 without customers, the revenue twelve times the total, the churned MRR and churn share over the customers at risk (share in [0, 1]), the expansion over the expanding customers, the retention estimate 1 without positive MRR and in [0, 1.02] for non-negative MRR, and the monthly series of the customers |
| App.NrrBounds | client/src/App.jsx:1708-1717 | with non-negative MRR the retention estimate lies in [0, 1.02] |
| App.ExpansionScaled | client/src/App.jsx:1714 | the expansion estimate is 2% of the expanding customers' MRR |
| App.RetentionBounds | client/src/App.jsx:1717 | a churned MRR and a grown MRR each within the total, with 2% expansion of the grown part, give a retention estimate in [0, 1.02] |
| App.StripFields | client/src/App.jsx:1668-1671 | after reverting, the four bookkeeping properties are undefined and every other property is unchanged |
| App.ApplyFields | client/src/App.jsx:1643-1653 | an eligible row, after the toggle is switched on, saves its churn in `_prevChurn`, gets the clamped estimate, `_churnComputed` true, the driver and the contributions, and keeps every other property |
| App.ApplyRowChanges | client/src/App.jsx:1643-1656 | switching on changes a row exactly when it is eligible; the changed row is computed, no longer eligible, and its churn is a number in [0, 1] |
| App.RevertRowChanges | client/src/App.jsx:1662-1675 | switching off changes a row exactly when its churn was computed, and the result is not computed |
| App.IneligibleKept | client/src/App.jsx:1646-1674 | rows the toggle does not select are returned unchanged, whether it is switched on or off |
| App.OnThenOff | client/src/App.jsx:1636-1680 | switching on then off gives back a defined previous churn, keeps the estimate when the previous churn was undefined, removes the bookkeeping properties and leaves every other property as it was |
| App.ToggleSettles | client/src/App.jsx:1636-1680 | the effect sets the customers exactly when some row is eligible (on) or computed (off), with the updated rows, and running it again on its own output sets nothing |
| App.NumberOf | client/src/App.jsx:1085 | `Number(v)` is NaN exactly when the value does not read as a number, and otherwise that number |
| App.SimulateApp | client/src/App.jsx:1073-1118 | no customers give all zeros; otherwise the target count is the number of customers at the selected level, and the current total sums over every customer (see App.CurrentTotalCountsAll) |
| App.NanPoisons | client/src/App.jsx:1088-1108 | one NaN term makes the whole reduced sum NaN |
| App.CurrentTotalCountsAll | client/src/App.jsx:1085 | the current total sums `c.MRR` or 0 over every customer: one more customer adds its own term, a falsy MRR adds nothing to a numeric total, and a customer outside the selected level leaves both losses, the savings and the target count unchanged |
| App.MrrOrZeroFacts | client/src/App.jsx:1085 | a missing, null, empty, zero or NaN MRR counts as 0, and a non-zero numeric MRR counts as itself |
| App.MissingMrrPoisons | client/src/App.jsx:1088-1108 | a target customer whose MRR is not a number makes the potential and the simulated loss NaN |
| App.NoRuleNoReduction | client/src/App.jsx:1094-1107 | a customer to whom no strategy applies keeps its baseline loss |
| App.ReductionRange | client/src/App.jsx:1096-1103 | with non-negative effects the reduction lies in [0, 0.95] |
| App.CustomerLossBounds | client/src/App.jsx:1088-1107 | for a sane customer and non-negative effects both losses are numbers and the reduced loss lies between 5% of the baseline and the baseline |
| App.SimulationBounds | client/src/App.jsx:1073-1118 | with sane targets and non-negative effects the results are numbers, the simulated loss lies between 5% of the potential loss and the potential loss, and the savings are their difference, between 0 and 95% of the potential loss |

## Left out

- **pandas parsing:** `read_csv` (both engines), `to_datetime(..., errors='coerce').date()` and float `repr` are parameters of the model (`Normalize.Pandas`). Their own parsing is not modelled.
- **Blank cells:** pandas turns every blank cell into NaN, in text columns as well as numeric ones. The model reads such a cell as `None`, and NaN arithmetic in the backend is not modelled.
  - A blank revenue cell: `_clean_amount` passes NaN through as a float, but the model gives the record an MRR of 0.0.
  - Importer.DefaultName: a blank `name` cell is NaN, which is truthy, so `name or (cid or '')` in `api/importer.py:31-35` keeps it and the `CharField` stores the new customer's name as `"nan"`. The model falls back to the id or `""` instead. The customer id is not affected, because `analysis/normalize.py:74-75` maps NaN to `None`.
- **Floating point:** numbers are exact reals, so binary rounding, overflow and `Infinity` are not modelled. Python's float printing and JavaScript's number-to-string conversion are parameters (`Printer`).
- Numbers.PyFloat: Python's `float()` also accepts `inf`, `infinity`, `nan` (any case, with a sign) and digit groups separated by underscores. The model reads those strings as a `ValueError`, so `float(mrr or 0)` in `analysis/arr.py` and the coercion chain of `api/services/insights.py` treat them as uncoercible. `_clean_amount` is not affected, because its cleanup removes letters and underscores before parsing.
- **Decimal column:** `Subscription.mrr` is `DecimalField(max_digits=12, decimal_places=2)` (`api/models.py:82`), and the model does not capture what that column does.
  - Importer.SubscriptionOf: the stored amount is the record's exact real. The database rounds it to cents, so `12.345` is not stored as `12.345`.
  - Insights.KpisAreOrgMrr: because of that the model's sums are over unrounded amounts, where `compute_org_kpis` reads back cents.
  - Importer.ImportedRows: an amount with more than 10 integer digits is rejected on save with an error that is not an `OperationalError`, so it escapes the chunk retry. The model accepts every amount.
- **JavaScript dates:** `new Date(...)` parsing and local-time fields are a `Calendar` parameter, so time zones are not modelled.
- **JavaScript strings:** a `string` is a sequence of Unicode scalar values. Where the source reads UTF-16 code units (the hash's `charCodeAt`, and `<` and the default `sort` on strings), the model takes them from `Text.Utf16`, so a character above U+FFFF counts as its two surrogates. There is no Unicode normalisation or case folding beyond ASCII.
- ForecastKey.FnvUpdate: a JavaScript string can hold a lone surrogate, which no Dafny `string` can. The hash of text holding one is not modelled. The same holds for the string order of Text.LexLess.
- Text.Lower: Python's `str.lower()` on the CSV headers (`analysis/normalize.py:52-55`) is modelled as ASCII-only lower-casing, so a header with a non-ASCII capital letter is matched differently.
- **JavaScript objects:** `JsObject` is an ordered list of own properties. Three behaviours of real objects are not captured:
  - Prototype members: a key such as `"constructor"` or `"toString"` reads as undefined in the model. In `client/src/utils/analytics.js:56-67` the real `prevCustomers[id]` returns a function for such an id, so that customer is never counted as new or churned and the `|| 0` sum concatenates text. A `__proto__` header is dropped by the assignment `obj[h] = ...` in `client/src/utils/csv.js:37-41`, but the model keeps it.
  - Key order: `Object.keys` lists integer-like keys first, ascending, before the other keys in insertion order. The model keeps pure insertion order. This can change which column the fallback date-key search of `client/src/utils/analytics.js:23` finds first, and the key order of parsed CSV rows.
  - Arrays: arrays are modelled as plain objects with index keys, so `Number([])` being 0 and `String([1, 2])` being `"1,2"` are not captured.
- **Identity comparisons:** the model does not track object identity, so `Js.StrictEquals` treats two objects or two dates as never `===`, even when they are one and the same reference. Two members are affected:
  - WhatIf.Remaining: the source's `deleteScenario(s.id)` with an object-valued id passes the same reference and removes the scenario (`client/src/pages/WhatIfSimulation.jsx:225`). The model keeps it.
  - App.MarkContacted: a row whose id is an object is never marked, even when the caller passes that very object.
  - The toggle's "row reference changed" test (`u !== customers[i]`) compares rows by value instead. This agrees with the source, since the effect builds a new object exactly for the rows it changes, as App.ApplyRowChanges and App.RevertRowChanges state.
- **Random customer keys:** the `Math.random` key in `computeMonthlySeries` for a record with neither `id` nor `name` is a parameter `randomId` indexed by the record's position.
- **Clocks and random ids:** the clock, timestamps, tracebacks and toast ids are parameters of the operations that read them. This covers `timezone.now()`, `new Date().toISOString()`, `Date.now()` and `Math.random`.
- Insights.OrgRecords: `Subscription.objects.filter(customer__org=org)` has no `order_by` (`api/services/insights.py:25-28`), so the database returns the rows in an unspecified order. The model takes them in the store's table order. That order fixes the first-seen order of the keys, and so the order of equal totals in Insights.TopIsBounded's top-ten list.
- **Runtime machinery:** the real Django ORM, transactions, the signal wiring, the Celery queue, `threading`, `transaction.on_commit`, `time.sleep`, `close_old_connections` and logging are left out because they are runtime machinery.
  - Enqueue and on-commit success are inputs of `Signals.Route`.
  - A claim race is modelled as sequential calls.
  - Celery's autoretry of the import task (at most 3 retries with backoff) is left out because it re-runs the same body, and each run is modelled.
- **Churn weights:** the weights saved in `localStorage` under `jarvis_churn_weights_v1` become the parameter `wa` of the shell's computations. The estimator never throws on the modelled values, so the shell's `catch` fallback to `riskScore / 100` is not modelled.
- Churn.WeightArgs: each stored weight is taken to be a number or absent. `JSON.parse` of the stored text can also give a weight that is text, a boolean or an object. `??` replaces only `null` and undefined with the default (`client/src/utils/churn.js:11-15`). The products `risk * w` coerce numeric text such as `"0.5"` and booleans, but non-numeric text or an object makes the estimate NaN (`client/src/utils/churn.js:23-27`). The shell then turns that NaN into 0 through `Number(res?.estimate) || 0` (`client/src/App.jsx:1612`, `1649`). Neither step is modelled.
- **`_churnContributions` array:** the array the shell stores is modelled as a plain object whose keys are the indices `"0"`, `"1"`, `"2"`.
- App.SimulateApp: reads `c.MRR > 500` and `c.MRR * rate` through `Number(...)`. JavaScript's `+` on a string MRR would concatenate, and the model does not capture that.
- App.SimulateApp: the three strategy effects are taken to be numbers (`App.Effects` holds `real`s). The shell reads them raw from `whatIfData` (`client/src/App.jsx:1074`, `1099-1101`), which a loaded scenario, an imported JSON file or a restored draft (`client/src/App.jsx:1060`, `1212`, `1224`) can replace with a value of any shape. With a missing effect, `reduction += undefined` makes the simulated loss of a customer meeting that rule NaN. A text effect would concatenate. Neither case is modelled.
- **UI rendering and browser I/O:** React state setters and rendering are left out as UI: toasts' timers, `downloadCSV`, `formatCurrency`, charts and exports. The effect's output is the value it would pass to `setCustomers`.
- **Forecast computation:** `computeForecast` is left out as floating-point forecasting, so the forecast page model stops at the input key. A `monthlySeries` that is null is treated as empty.
- **Stored scenarios:** stored text that parses to a JSON value other than an array is not modelled. The stored slot is nothing, unparseable text or a list of scenario objects.
- **Other client code:** `linearForecast`, Holt smoothing and its tuning, the Web Workers, the Prophet engine, the pandas statistics views, authentication and the rest of the UI are left out because they are floating-point numerics, randomness, foreign libraries or framework plumbing.
- **Importer retries:** the test `retries > 6` in `api/importer.py:59` allows seven attempts per chunk, and the model follows that.
- **Churn label:** the third contribution's label in `client/src/utils/churn.js` is stored in the file as mis-encoded UTF-8. The model keeps those characters, `"MRR (lowâ†’high risk)"`, as the file holds them.
- **Writes that never fail:** only subscription chunks and upload `save()`s take an outcome from the failure oracle. The other writes always succeed, so four error paths of the source are not modelled:
  - Storage.Store.GetOrCreateCustomer: an `OperationalError` from `Customer.objects.get_or_create` (`api/importer.py:32-36`) would escape the import.
  - Storage.Store.Claim: a failing claim `update()` (`api/signals.py:143-148`) or completion `update()` (`api/signals.py:158-162`) would be caught at `api/signals.py:163` and recorded as `error`.
  - Storage.Store.UpdateUpload: a failing error-path `update()` (`api/signals.py:166-169`) would propagate out of the handler.
  - Storage.Store.SaveExecution: a failing `exec_log.save()` or `auto.save()` (`api/tasks.py:45-48`) would be caught at `api/tasks.py:50`, the execution rewritten with success False, and the reply would be the error. The same holds for Storage.Store.SaveLastRun and Storage.Store.CreateExecution.
- Tasks.ExecuteAutomationSync: `auto.actions` is modelled as null or a list of action objects. A JSON object or string stored there would be iterated over its keys or characters, and `act.get` would then raise at `api/tasks.py:35-36`.
