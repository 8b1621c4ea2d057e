/** `process_changes`: one change event turned into a corrective replace request
    and up to three audit upserts. */
module Reconcile {
  import opened Values
  import opened FieldDiffer
  import opened Provenance
  import opened Audit

  /** `insert_record`, read from the post-image before any correction. */
  function InsertRecord(ev: ChangeEvent): (seed: Seed)
    // the document id doubles as the audit record's `_id` and its `copo_id`
    ensures seed.id == ev.documentId && seed.copoId == ev.documentId
    ensures seed.action == ev.operationType && seed.collectionName == ev.collectionName
    // the four sample identifiers come from the post-image, "" when it lacks them
    ensures seed.manifestId == Get(ev.after, "manifest_id", EMPTY)
    ensures seed.sampleType == Get(ev.after, "sample_type", EMPTY)
    ensures seed.rackOrPlateId == Get(ev.after, "RACK_OR_PLATE_ID", EMPTY)
    ensures seed.tubeOrWellId == Get(ev.after, "TUBE_OR_WELL_ID", EMPTY)
  {
    Seed(ev.documentId, ev.operationType, ev.collectionName, ev.documentId,
         Get(ev.after, "manifest_id", EMPTY), Get(ev.after, "sample_type", EMPTY),
         Get(ev.after, "RACK_OR_PLATE_ID", EMPTY), Get(ev.after, "TUBE_OR_WELL_ID", EMPTY))
  }

  /** `updatedFields and outdatedFields`: the update touched fields and the pre-image holds one of them. */
  predicate GatePassed(ev: ChangeEvent) {
    |ev.updatedFields| > 0 && OutdatedFields(ev.updatedFields, ev.before) != map[]
  }

  /** The gate passes exactly when some updated field is present in the pre-image. */
  lemma GateMeansPreImageHoldsUpdatedField(ev: ChangeEvent)
    ensures GatePassed(ev) <==> exists i :: 0 <= i < |ev.updatedFields| && ev.updatedFields[i].name in ev.before
  {
    var fs := ev.updatedFields;
    if GatePassed(ev) {
      var n :| n in OutdatedFields(fs, ev.before);
      var i :| 0 <= i < |fs| && fs[i].name == n;
    }
  }

  /** What processing one event writes: at most one replace request and at most one push per log. */
  datatype Effects = Effects(
    replace: Option<ReplaceRequest>,
    updates: Option<seq<UpdateEntry>>,
    removals: Option<seq<RemovalEntry>>,
    truncations: Option<seq<TruncatedEntry>>)

  /** The time every log entry of the event carries. */
  function EventTime(ev: ChangeEvent): Value {
    if GatePassed(ev) then LogTime(ev.updatedFields, ev.after, ev.wallTime) else ev.wallTime
  }

  function RemovalPush(ev: ChangeEvent, time: Value): Option<seq<RemovalEntry>> {
    if |ev.removedFields| > 0 then Some(RemovalLog(ev.removedFields, time)) else None
  }

  function TruncationPush(ev: ChangeEvent, time: Value): Option<seq<TruncatedEntry>> {
    if |ev.truncatedArrays| > 0 then Some(TruncatedLog(ev.truncatedArrays, time)) else None
  }

  /** The writes `process_changes` makes for one event, or the error it raises
      before making any. The corrective replace uses the corrected post-image as
      both filter and replacement, since the "original" image aliases it. */
  function Plan(ev: ChangeEvent): Result<Effects, ProcessError> {
    if GatePassed(ev) then
      match Classify(ev.updatedFields, ev.after)
      case Err(e) => Err(e)
      case Ok(c) =>
        var time := LogTime(ev.updatedFields, c.document, ev.wallTime);
        var outdated := OutdatedFields(ev.updatedFields, ev.before);
        Ok(Effects(
          if c.isChanged then Some(ReplaceRequest(c.document, c.document)) else None,
          Some(UpdateLog(ev.updatedFields, outdated, c.updatedBy, c.updateType, time)),
          RemovalPush(ev, time),
          TruncationPush(ev, time)))
    else
      Ok(Effects(None, None, RemovalPush(ev, ev.wallTime), TruncationPush(ev, ev.wallTime)))
  }

  /** The abstract state of both collections. */
  datatype Store = Store(records: map<DocId, AuditRecord>, requests: seq<ReplaceRequest>)

  /** The three upserts of one event, in the order `process_changes` issues them. */
  function UpsertAll(records: map<DocId, AuditRecord>, id: DocId, seed: Seed, eff: Effects): map<DocId, AuditRecord> {
    var r1 := if eff.updates.Some? then Upsert(records, id, seed, PushUpdates(eff.updates.value)) else records;
    var r2 := if eff.removals.Some? then Upsert(r1, id, seed, PushRemovals(eff.removals.value)) else r1;
    if eff.truncations.Some? then Upsert(r2, id, seed, PushTruncations(eff.truncations.value)) else r2
  }

  /** The writes of one event: the replace request (issued first) and the upserts. */
  function Apply(st: Store, id: DocId, seed: Seed, eff: Effects): Store {
    Store(UpsertAll(st.records, id, seed, eff), st.requests + if eff.replace.Some? then [eff.replace.value] else [])
  }

  /** The store after `process_changes` returns for `ev`, or the error it raises. */
  function Step(st: Store, ev: ChangeEvent): Result<Store, ProcessError> {
    match Plan(ev)
    case Err(e) => Err(e)
    case Ok(eff) => Ok(Apply(st, ev.documentId, InsertRecord(ev), eff))
  }

  /** The seed does not depend on the correction: reading the identifiers from the
      corrected document gives the same `insert_record`. */
  lemma SeedUnaffectedByCorrection(ev: ChangeEvent)
    requires Classify(ev.updatedFields, ev.after).Ok?
    ensures InsertRecord(ev.(after := Classify(ev.updatedFields, ev.after).value.document)) == InsertRecord(ev)
  {
  }

  /** Without a diffable change there is no classification, no correction and no `update_log` push. */
  lemma NoUpdateLogWithoutGate(ev: ChangeEvent)
    requires !GatePassed(ev)
    ensures Plan(ev).Ok? && Plan(ev).value.replace.None? && Plan(ev).value.updates.None?
  {
  }

  /** An event that touched, removed and truncated nothing leaves both collections as they were. */
  lemma EmptyEventChangesNothing(st: Store, ev: ChangeEvent)
    requires ev.updatedFields == [] && ev.removedFields == [] && ev.truncatedArrays == []
    ensures Step(st, ev) == Ok(st)
  {
    assert st.requests + [] == st.requests;
  }

  /** Processing raises exactly when the `update_type` branch meets a post-image `update_type` that is not a string. */
  lemma PlanRaisesOnlyOnNonStringUpdateType(ev: ChangeEvent)
    ensures Plan(ev).Err? <==>
      GatePassed(ev) && "update_type" in Names(ev.updatedFields) && !Get(ev.after, "update_type", EMPTY).Str?
  {
  }

  /** System branch: every entry is attributed to 'system', and a correction is
      requested exactly when the post-image does not already say 'system' twice. */
  lemma SystemBranchProvenance(ev: ChangeEvent)
    requires GatePassed(ev) && "update_type" !in Names(ev.updatedFields)
    ensures Plan(ev).Ok? && Plan(ev).value.updates.Some?
    ensures var eff := Plan(ev).value;
      && (forall e :: e in eff.updates.value ==> e.updatedBy == SYSTEM && e.updateType == SYSTEM)
      && (eff.replace.Some? <==>
          Get(ev.after, "updated_by", EMPTY) != SYSTEM || Get(ev.after, "update_type", EMPTY) != SYSTEM)
  {
    var fs := ev.updatedFields;
    var c := Classify(fs, ev.after).value;
    UpdateLogExcludesBookkeeping(fs, OutdatedFields(fs, ev.before), c.updatedBy, c.updateType,
      LogTime(fs, c.document, ev.wallTime));
  }

  /** User branch: the actor comes from the post-image; a temporary user is logged
      as 'user' and is the only case that requests a correction, of `update_type` alone. */
  lemma UserBranchProvenance(ev: ChangeEvent)
    requires GatePassed(ev) && "update_type" in Names(ev.updatedFields)
    requires Get(ev.after, "update_type", EMPTY).Str?
    ensures Plan(ev).Ok? && Plan(ev).value.updates.Some?
    ensures var eff, postType := Plan(ev).value, Get(ev.after, "update_type", EMPTY);
      && (forall e :: e in eff.updates.value ==>
        && e.updatedBy == Get(ev.after, "updated_by", EMPTY)
        && e.updateType == if IsTempUser(postType) then USER else postType)
      && (eff.replace.Some? <==> IsTempUser(postType))
      && (eff.replace.Some? ==> eff.replace.value.replacement == ev.after["update_type" := USER])
  {
    var fs := ev.updatedFields;
    var c := Classify(fs, ev.after).value;
    UpdateLogExcludesBookkeeping(fs, OutdatedFields(fs, ev.before), c.updatedBy, c.updateType,
      LogTime(fs, c.document, ev.wallTime));
  }

  /** The corrective replace is filtered on the corrected document itself (the
      "original" image aliases the post-image that was updated in place), which
      differs from the post-image the store reported; replaying the correction
      through the classifier asks for no further correction. */
  lemma CorrectionRequestIsAliased(ev: ChangeEvent)
    requires Plan(ev).Ok? && Plan(ev).value.replace.Some?
    ensures var req := Plan(ev).value.replace.value;
      && req.filter == req.replacement
      && req.filter != ev.after
      && Classify(ev.updatedFields, req.replacement).Ok?
      && !Classify(ev.updatedFields, req.replacement).value.isChanged
  {
    CorrectionIsFixedPoint(ev.updatedFields, ev.after);
  }

  /** All entries of all three logs carry the event's time: its wall time, or the
      post-image's `date_modified` when a diffable update touched `date_modified`. */
  lemma EntriesCarryEventTime(ev: ChangeEvent)
    requires Plan(ev).Ok?
    ensures var eff := Plan(ev).value;
      && (eff.updates.Some? ==> forall e :: e in eff.updates.value ==> e.timeUpdated == EventTime(ev))
      && (eff.removals.Some? ==> forall e :: e in eff.removals.value ==> e.timeRemoved == EventTime(ev))
      && (eff.truncations.Some? ==> forall e :: e in eff.truncations.value ==> e.timeTruncated == EventTime(ev))
  {
    var fs := ev.updatedFields;
    var time := ev.wallTime;
    if GatePassed(ev) {
      var c := Classify(fs, ev.after).value;
      time := LogTime(fs, c.document, ev.wallTime);
      LogTimeUnaffectedByCorrection(fs, ev.after, ev.wallTime);
      UpdateLogExcludesBookkeeping(fs, OutdatedFields(fs, ev.before), c.updatedBy, c.updateType, time);
    }
    RemovalLogEntries(ev.removedFields, time);
    TruncatedLogEntries(ev.truncatedArrays, time);
  }

  /** Removal and truncation logs get one entry per removed field or truncated
      array, in input order, and are pushed only when there is something to log. */
  lemma RemovalAndTruncationPushes(ev: ChangeEvent)
    requires Plan(ev).Ok?
    ensures var eff := Plan(ev).value;
      && (eff.removals.Some? <==> ev.removedFields != [])
      && (eff.removals.Some? ==>
          && |eff.removals.value| == |ev.removedFields|
          && forall i :: 0 <= i < |ev.removedFields| ==>
            eff.removals.value[i] == RemovalEntry(ev.removedFields[i], SYSTEM_TYPE, EventTime(ev)))
      && (eff.truncations.Some? <==> ev.truncatedArrays != [])
      && (eff.truncations.Some? ==>
          && |eff.truncations.value| == |ev.truncatedArrays|
          && forall i :: 0 <= i < |ev.truncatedArrays| ==>
            eff.truncations.value[i] == TruncatedEntryFor(ev.truncatedArrays[i], EventTime(ev)))
  {
    var fs := ev.updatedFields;
    if GatePassed(ev) {
      LogTimeUnaffectedByCorrection(fs, ev.after, ev.wallTime);
    }
    RemovalLogEntries(ev.removedFields, EventTime(ev));
    TruncatedLogEntries(ev.truncatedArrays, EventTime(ev));
  }

  /** The audit record of the event's document after the step: created with the
      event's seed when missing, each log extended by exactly the pushed entries;
      every other record is untouched. */
  lemma StepAppends(st: Store, ev: ChangeEvent)
    requires Step(st, ev).Ok?
    ensures var st', eff, id := Step(st, ev).value, Plan(ev).value, ev.documentId;
      var was := if id in st.records then st.records[id] else AuditRecord(InsertRecord(ev), [], [], []);
      && (id in st'.records <==> id in st.records || eff.updates.Some? || eff.removals.Some? || eff.truncations.Some?)
      && (forall k :: k in st.records && k != id ==> k in st'.records && st'.records[k] == st.records[k])
      && (id in st'.records ==>
        && st'.records[id].seed == was.seed
        && st'.records[id].updateLog == was.updateLog + GetOr(eff.updates, [])
        && st'.records[id].removalLog == was.removalLog + GetOr(eff.removals, [])
        && st'.records[id].truncatedLog == was.truncatedLog + GetOr(eff.truncations, []))
      && st'.requests == st.requests + (if eff.replace.Some? then [eff.replace.value] else [])
  {
  }

  /** The writes of one event only add records, keep seeds and append to logs and to the replace requests. */
  lemma ApplyExtends(st: Store, id: DocId, seed: Seed, eff: Effects)
    ensures Extends(st.records, Apply(st, id, seed, eff).records)
    ensures st.requests <= Apply(st, id, seed, eff).requests
  {
    var r0 := st.records;
    var r1 := if eff.updates.Some? then Upsert(r0, id, seed, PushUpdates(eff.updates.value)) else r0;
    var r2 := if eff.removals.Some? then Upsert(r1, id, seed, PushRemovals(eff.removals.value)) else r1;
    var r3 := if eff.truncations.Some? then Upsert(r2, id, seed, PushTruncations(eff.truncations.value)) else r2;
    if eff.updates.Some? { UpsertExtends(r0, id, seed, PushUpdates(eff.updates.value)); }
    if eff.removals.Some? { UpsertExtends(r1, id, seed, PushRemovals(eff.removals.value)); }
    if eff.truncations.Some? { UpsertExtends(r2, id, seed, PushTruncations(eff.truncations.value)); }
    ExtendsTransitive(r0, r1, r2);
    ExtendsTransitive(r0, r2, r3);
  }

  /** `process_changes(doc)` against the two collections. */
  method ProcessChanges(ev: ChangeEvent, audit: AuditCollection, samples: SampleCollection)
    returns (raised: Option<ProcessError>)
    modifies audit, samples
    ensures var st := Store(old(audit.records), old(samples.requests));
      match Step(st, ev)
      case Err(e) => raised == Some(e) && audit.records == old(audit.records) && samples.requests == old(samples.requests)
      case Ok(st') => raised == None && audit.records == st'.records && samples.requests == st'.requests
  {
    var fs := ev.updatedFields;
    var outdated := OutdatedFields(fs, ev.before);
    var seed := InsertRecord(ev);
    var time := ev.wallTime;
    ghost var st0 := Store(audit.records, samples.requests);
    ghost var eff := Effects(None, None, None, None);

    if |fs| > 0 && outdated != map[] {
      assert GatePassed(ev);
      var cls := Classify(fs, ev.after);
      if cls.Err? {
        return Some(cls.error);
      }
      var c := cls.value;
      if "date_modified" in Names(fs) {
        time := Get(c.document, "date_modified", time);
      }
      if c.isChanged {
        samples.ReplaceOne(c.document, c.document);
      }
      var output := BuildUpdateLog(fs, outdated, c.updatedBy, c.updateType, time);
      audit.FindOneAndUpdate(ev.documentId, seed, PushUpdates(output));
      eff := Effects(if c.isChanged then Some(ReplaceRequest(c.document, c.document)) else None, Some(output), None, None);
    }
    ghost var r1 := audit.records;
    assert samples.requests == st0.requests + if eff.replace.Some? then [eff.replace.value] else [];

    if |ev.removedFields| > 0 {
      var output := BuildRemovalLog(ev.removedFields, time);
      audit.FindOneAndUpdate(ev.documentId, seed, PushRemovals(output));
    }
    ghost var r2 := audit.records;
    eff := eff.(removals := RemovalPush(ev, time));
    assert r2 == if eff.removals.Some? then Upsert(r1, ev.documentId, seed, PushRemovals(eff.removals.value)) else r1;

    if |ev.truncatedArrays| > 0 {
      var output := BuildTruncatedLog(ev.truncatedArrays, time);
      audit.FindOneAndUpdate(ev.documentId, seed, PushTruncations(output));
    }
    eff := eff.(truncations := TruncationPush(ev, time));
    assert audit.records == UpsertAll(st0.records, ev.documentId, seed, eff);
    assert Plan(ev) == Ok(eff);
    raised := None;
  }
}
