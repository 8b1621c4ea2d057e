# Sample audit consumer, modelled in Dafny

The sample audit consumer watches the `SampleCollection` of the COPO database
through a change stream filtered to `update` events. For every event,
`process_changes` does four things:

- it works out which fields really changed (the outdated value against the new value);
- it decides whether the change came from the system or from a user;
- it sends the sample collection a `replace_one` request that carries corrected
  provenance (`updated_by`, `update_type`) when needed. As written, that request's
  filter is the corrected document itself, not the stored post-image (see the
  first note below);
- it appends `update_log`, `removal_log` and `truncated_log` entries to one
  audit record per sample in `AuditCollection`, creating that record on first use.

The loop records the stream's resume token after each event. On a store error it
reopens the stream once, after that token, or stops when no token was recorded.

The model has six modules:

- `Values` (values.dfy): field values, documents and change events.
- `FieldDiffer` (differ.dfy): the outdated-field map and the three entry-list
  loops. Each loop is a method proved equal to a recursive function. Lemmas
  state what those functions produce: bookkeeping fields never appear, an entry
  exists exactly for a changed field, and entries keep input order.
- `Provenance` (provenance.dfy): the classification of one update (the
  `update_type` branch and the system branch) and the choice of log time.
- `Audit` (audit.dfy): the `AuditCollection` as a class holding a map from
  document id to audit record, with the upsert-and-append write. The
  `SampleCollection` is a class that records the `replace_one` requests it is sent.
- `Reconcile` (reconcile.dfy): `process_changes` as a method over both
  collections. It is proved against `Step`, a function that applies the writes
  planned for one event. Lemmas about `Plan` and `Step` state the rules for
  provenance, time, removal and truncation.
- `Resume` (resume.dfy): the watch loop and the single reopen, as a method over a
  finite event history. Its result is tied to the function `Run`, and lemmas
  about `Run` state the token and resume rules.

Notes on behaviour the model keeps as the code has it:

- `fullDocumentAfterChangeImage` is the same dictionary as
  `fullDocumentAfterChange` (sample_audit.py:50). The in-place `.update` calls
  at lines 104 and 115 therefore change both. So a corrective `replace_one`
  uses the corrected document as both its filter and its replacement. That
  filter is never the post-image the store reported
  (`Reconcile.CorrectionRequestIsAliased`).
- The code checks `startswith` on the post-image `update_type`. A non-string
  value there (null, a number) raises `AttributeError`. The change stream
  handler only catches `PyMongoError`, so the run ends. The model returns
  `ProcessError` from `process_changes` before any write, and the run ends as
  `Crashed`.
- `time_updated` is reassigned to `date_modified` at line 121. The removal and
  truncation logs use that reassigned value too, not only the update log.
- The reopened stream (lines 235-240) does not record tokens. An error raised
  there is outside the `try`, so it ends the run.
- The gate at line 95 needs a pre-image that holds at least one updated field.
  Without that there is no classification, no correction and no `update_log`
  push, but removal and truncation entries are still written.

## Model

| member | source | states |
|---|---|---|
| `FieldDiffer.OutdatedFields` | sample_audit.py:79-80 | the outdated map holds exactly the updated fields that the pre-image holds, with their pre-image values |
| `FieldDiffer.OutdatedValueIsBeforeImage` | sample_audit.py:143-150 | the outdated value compared and logged for an updated field is its pre-image value, or "" when the pre-image lacks it |
| `FieldDiffer.RecordedPositionsAscending` | sample_audit.py:139-146 | the positions of recorded fields are valid and strictly ascending, and a position is listed exactly when its field is not excluded and its outdated and new values differ |
| `FieldDiffer.Recorded` | sample_audit.py:139-145 | reference definition of the loop's two skips: a field is recorded when it is not excluded and its outdated value differs from its new value. `RecordedPositionsAscending` and `UpdateLogMatchesImages` state what it selects |
| `FieldDiffer.UpdateLog` | sample_audit.py:137-159 | reference definition of the `update_log` entry list. `UpdateLogIsRecordedFieldsInOrder`, `UpdateLogExcludesBookkeeping`, `UpdateLogMatchesImages` and `UpdateLogFieldsDistinct` state its content |
| `FieldDiffer.UpdateLogIsRecordedFieldsInOrder` | sample_audit.py:137-159 | the update log has one entry per recorded field (not excluded, outdated value differs from new value), at strictly increasing positions of `updatedFields`, and a field is recorded exactly when its position is listed |
| `FieldDiffer.UpdateLogExcludesBookkeeping` | sample_audit.py:139-145 | no entry names changelog, date_modified, time_updated, updated_by or update_type, whatever the values; every entry's outdated and updated values differ and it carries the given actor, type and time |
| `FieldDiffer.UpdateLogMatchesImages` | sample_audit.py:143-159 | each entry's outdated value is the pre-image value (or "") and its updated value is the field's new value; every non-excluded field whose values differ gets an entry |
| `FieldDiffer.UpdateLogFieldsDistinct` | sample_audit.py:139-159 | when the updated field names are distinct (a dict), no two entries name the same field |
| `FieldDiffer.BuildUpdateLog` | sample_audit.py:137-159 | the append loop builds exactly the update log of the recorded fields |
| `FieldDiffer.RemovalLog` | sample_audit.py:169-177 | reference definition of the `removal_log` entry list; `RemovalLogEntries` states its content |
| `FieldDiffer.RemovalLogEntries` | sample_audit.py:169-177 | one removal entry per removed field, in input order, of type 'system' at the log time |
| `FieldDiffer.BuildRemovalLog` | sample_audit.py:169-177 | the append loop builds exactly that removal log |
| `FieldDiffer.TruncatedLog` | sample_audit.py:188-197 | reference definition of the `truncated_log` entry list; `TruncatedLogEntries` states its content |
| `FieldDiffer.TruncatedLogEntries` | sample_audit.py:188-197 | one truncation entry per truncated array, in input order, field "" and size 0 when absent, type 'system', at the log time |
| `FieldDiffer.BuildTruncatedLog` | sample_audit.py:188-197 | the append loop builds exactly that truncation log |
| `Provenance.ClassifyUser` | sample_audit.py:96-105 | in the `update_type` branch, actor and type come from the post-image; a 'tempuser_' type becomes 'user' and is the only case flagged for correction; a non-string type raises |
| `Provenance.ClassifySystem` | sample_audit.py:106-115 | otherwise both actor and type are 'system'; correction is flagged exactly when the post-image's updated_by or update_type is not 'system', and the corrected document says 'system' in both |
| `Provenance.Classify` | sample_audit.py:94-116 | the document is rewritten exactly when a correction is flagged, and only its updated_by and update_type fields may change |
| `Provenance.SystemDocumentNeverCorrected` | sample_audit.py:96-115 | a post-image already saying 'system' twice never triggers a correction, in either branch |
| `Provenance.CorrectionIsFixedPoint` | sample_audit.py:96-115 | classifying a corrected document again keeps its actor and type and flags no further correction |
| `Provenance.LogTime` | sample_audit.py:118-121 | the log time is the wall time unless `date_modified` was updated; then it is the document's `date_modified`, or the wall time when the document lacks that field |
| `Provenance.LogTimeUnaffectedByCorrection` | sample_audit.py:118-121 | the log time read from the corrected document equals that read from the post-image |
| `Audit.Upsert` | sample_audit.py:164-165 | the upsert creates the record with the seed when missing, keeps an existing seed, appends the pushed entries to the named log only, and leaves other records alone |
| `Audit.UpsertExtends` | sample_audit.py:164-165 | an upsert never drops a record, never rewrites a seed and keeps every log as a prefix |
| `Audit.AuditCollection.FindOneAndUpdate` | sample_audit.py:164-165 | the collection's records become the upsert of the old records |
| `Audit.SampleCollection.ReplaceOne` | sample_audit.py:133-134 | a replace request (filter, replacement) is recorded after the earlier ones |
| `Reconcile.InsertRecord` | sample_audit.py:73-91 | the seed has all eight `insert_record` fields: the document id as both `_id` and `copo_id`, the operation type as `action`, the collection name, and `manifest_id`, `sample_type`, `RACK_OR_PLATE_ID` and `TUBE_OR_WELL_ID` read from the post-image ("" when absent) |
| `Reconcile.SeedUnaffectedByCorrection` | sample_audit.py:73-115 | reading the seed from the corrected document gives the same `insert_record` as reading it from the post-image |
| `Reconcile.GatePassed` | sample_audit.py:95 | reference definition of the gate `updatedFields and outdatedFields`; its meaning is stated by the next row |
| `Reconcile.GateMeansPreImageHoldsUpdatedField` | sample_audit.py:79-95 | the gate passes exactly when some updated field is present in the pre-image |
| `Reconcile.Plan` | sample_audit.py:95-204 | reference definition of the writes for one event: the error raised by the classifier, or an optional replace request and an optional push per log. Its properties are the lemmas below |
| `Reconcile.Step` | sample_audit.py:38-204 | reference definition of the collections after one event: the replace request appended, then the three upserts in source order. `StepAppends` and `ApplyExtends` state what it does to the collections |
| `Reconcile.NoUpdateLogWithoutGate` | sample_audit.py:95 | unless the update touched fields and the pre-image holds one of them, there is no correction and no update-log push |
| `Reconcile.EmptyEventChangesNothing` | sample_audit.py:95-204 | an event that updated, removed and truncated nothing leaves both collections unchanged |
| `Reconcile.PlanRaisesOnlyOnNonStringUpdateType` | sample_audit.py:96-102 | processing raises exactly when the gate passes, update_type was updated and the post-image's update_type is not a string |
| `Reconcile.SystemBranchProvenance` | sample_audit.py:106-115 | when update_type was not updated, every entry says 'system' twice and a replace is requested exactly when the post-image is not already 'system' twice |
| `Reconcile.UserBranchProvenance` | sample_audit.py:96-105 | when update_type was updated, entries carry the post-image actor and the normalised type; a replace is requested exactly for a 'tempuser_' type, with update_type set to 'user' |
| `Reconcile.CorrectionRequestIsAliased` | sample_audit.py:123-134 | a replace request's filter equals its replacement, differs from the reported post-image, and needs no further correction |
| `Reconcile.EntriesCarryEventTime` | sample_audit.py:118-121 | entries of all three logs carry the wall time, or the post-image date_modified (default wall time) when the gate passed and date_modified was updated |
| `Reconcile.RemovalAndTruncationPushes` | sample_audit.py:167-204 | a removal or truncation push happens exactly when its list is non-empty, with one entry per element in input order |
| `Reconcile.StepAppends` | sample_audit.py:164-204 | after an event, the document's record exists exactly when it did before or something was pushed; its seed is kept or taken from insert_record; each log is extended by exactly the pushed entries; other records are untouched |
| `Reconcile.ApplyExtends` | sample_audit.py:164-204 | the writes of one event only add records, keep seeds and append to logs and to the replace requests |
| `Reconcile.ProcessChanges` | sample_audit.py:38-204 | processing an event either raises with both collections unchanged, or leaves them as `Step` prescribes |
| `Resume.Delivered` | sample_audit.py:216-219 | the events a stream delivers are a prefix of its events, all of them when the stream does not fail |
| `Resume.Drain` | sample_audit.py:218-220 | events are processed in order until one raises; processing stops short of the end exactly when one raises |
| `Resume.DrainExtends` | sample_audit.py:218-219 | processing a sequence of events only adds audit records and appends to logs |
| `Resume.ResumeAfter` | sample_audit.py:235-238 | a stream reopened after a token offers exactly the events after the first event that carries the token; that is a suffix of the history, shorter than a non-empty history |
| `Resume.ResumeAfterSkipsProcessed` | sample_audit.py:231-238 | with distinct tokens, reopening after the k-th event's token delivers exactly the events after it |
| `Resume.RecordedToken` | sample_audit.py:210-220 | reference definition of `resume_token` when the first stream stops; `TokenFollowsProcessing` states its value |
| `Resume.TokenFollowsProcessing` | sample_audit.py:218-220 | the token held when the first stream stops is that of the last event processing returned for, and none when it returned for none |
| `Resume.ReopenOnlyFromRecordedToken` | sample_audit.py:222-238 | the run keeps the recorded token; the stream is reopened exactly when the first stream fails with a token recorded, after that token; it halts with no reopen exactly when the failure comes with no token |
| `Resume.FailedPrefixThenResumeIsHistory` | sample_audit.py:230-238 | with distinct tokens, the events a failing stream delivered followed by those after its last token make up the whole history |
| `Resume.ResumeDeliversHistoryOnce` | sample_audit.py:230-240 | after a reopen, the reopened stream starts right after the last processed event: the first stream's events followed by the events after the recorded token are the whole history, each once, in order |
| `Resume.DrainAppend` | sample_audit.py:218-219 | processing two sequences of events one after the other, when the first raises nothing, is processing their concatenation |
| `Resume.ReopenedRunIsUninterrupted` | sample_audit.py:222-240 | when the first stream fails and the reopened stream runs to the end, the collections end as if one uninterrupted stream had processed the whole history, and the run ends normally exactly when that stream processes every event |
| `Resume.Run` | sample_audit.py:209-240 | reference definition of a whole run: the first stream, then at most one reopen after the recorded token. `ReopenOnlyFromRecordedToken`, `ResumeDeliversHistoryOnce` and `RunExtends` state its properties |
| `Resume.RunExtends` | sample_audit.py:209-240 | over a whole run, audit records are only created or appended to |
| `Resume.ResumedStream` | sample_audit.py:235-240 | the reopened stream's loop leaves the collections as `Drain` prescribes and reports the error that ended it |
| `Resume.Watch` | sample_audit.py:209-240 | the watch loop's final collections, outcome, token and reopen token are those of `Run` |

## Left out

- Environment and secret loading (`get_env`) and the MongoDB client set-up (sample_audit.py:11-35): configuration and network, outside the reconciliation logic.
- Console output: the JSON dump of each event, the rewrite of `documentKey._id` into a string for display (lines 53-58), and the messages of the error handler.
- Server-side semantics of `watch`, `replace_one` and `find_one_and_update`: no query matching, atomicity or concurrent writers. Replace requests are recorded, not applied to stored samples, so the model does not say whether a correction takes effect.
- Store errors are modelled at event granularity. A stream raises once a given number of events has been delivered. A store error raised part-way through `process_changes`, after some of its writes, is not modelled.
- The stream is a finite history. The real stream waits for events forever, so `StreamEnded` stands for "no more events in the history".
- Exception types: any `PyMongoError` is one abstract stream failure. The only non-store error modelled is the `AttributeError` from `startswith`.
- Values are strings, integers, opaque dates and null. Floats, booleans, nested documents and arrays are not modelled, nor Python's cross-type equalities among them (`1 == 1.0 == True`).
- A change event that holds `fullDocument` or `fullDocumentBeforeChange` as null, rather than leaving it out, is not modelled. Both images are maps, and an absent image is empty.
- An event without `documentKey` or `wallTime` is not modelled. The code fails on both (lines 54 and 64), and update events from the store always carry them.
- Time zones: `pytz` and `datetime` are imported but unused, and `wallTime` is opaque.
