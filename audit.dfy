/** The store side of `process_changes`: the `AuditCollection` with its
    upsert-and-append writes, and the corrective `replace_one` requests sent
    to the `SampleCollection`. */
module Audit {
  import opened Values
  import opened FieldDiffer

  /** `insert_record`: the identifiers an audit record is created with (`$setOnInsert`). */
  datatype Seed = Seed(
    id: DocId,
    action: string,
    collectionName: string,
    copoId: DocId,
    manifestId: Value,
    sampleType: Value,
    rackOrPlateId: Value,
    tubeOrWellId: Value)

  /** One audit document: its seed and three append-only logs. */
  datatype AuditRecord = AuditRecord(
    seed: Seed,
    updateLog: seq<UpdateEntry>,
    removalLog: seq<RemovalEntry>,
    truncatedLog: seq<TruncatedEntry>)

  /** The `$push`/`$each` part of one `find_one_and_update`: which log, which entries. */
  datatype Push =
    | PushUpdates(updates: seq<UpdateEntry>)
    | PushRemovals(removals: seq<RemovalEntry>)
    | PushTruncations(truncations: seq<TruncatedEntry>)

  function Appended(rec: AuditRecord, push: Push): AuditRecord {
    match push
    case PushUpdates(es) => rec.(updateLog := rec.updateLog + es)
    case PushRemovals(es) => rec.(removalLog := rec.removalLog + es)
    case PushTruncations(es) => rec.(truncatedLog := rec.truncatedLog + es)
  }

  /** `find_one_and_update({'_id': id}, {'$push': ..., '$setOnInsert': seed}, upsert=True)`. */
  function Upsert(records: map<DocId, AuditRecord>, id: DocId, seed: Seed, push: Push): (r: map<DocId, AuditRecord>)
    ensures r.Keys == records.Keys + {id}
    ensures forall k :: k in records && k != id ==> r[k] == records[k]
    // an existing record keeps its seed; a new one takes the given seed and starts from empty logs
    ensures r[id].seed == if id in records then records[id].seed else seed
    ensures var was := if id in records then records[id] else AuditRecord(seed, [], [], []);
      && r[id].updateLog == was.updateLog + (if push.PushUpdates? then push.updates else [])
      && r[id].removalLog == was.removalLog + (if push.PushRemovals? then push.removals else [])
      && r[id].truncatedLog == was.truncatedLog + (if push.PushTruncations? then push.truncations else [])
  {
    var rec := if id in records then records[id] else AuditRecord(seed, [], [], []);
    records[id := Appended(rec, push)]
  }

  /** `later` is `earlier` with possibly more records and longer logs: no record is
      dropped, no seed is rewritten and every log keeps its entries as a prefix. */
  ghost predicate Extends(earlier: map<DocId, AuditRecord>, later: map<DocId, AuditRecord>) {
    && earlier.Keys <= later.Keys
    && forall id :: id in earlier ==>
      && later[id].seed == earlier[id].seed
      && earlier[id].updateLog <= later[id].updateLog
      && earlier[id].removalLog <= later[id].removalLog
      && earlier[id].truncatedLog <= later[id].truncatedLog
  }

  lemma UpsertExtends(records: map<DocId, AuditRecord>, id: DocId, seed: Seed, push: Push)
    ensures Extends(records, Upsert(records, id, seed, push))
  {
  }

  lemma ExtendsTransitive(a: map<DocId, AuditRecord>, b: map<DocId, AuditRecord>, c: map<DocId, AuditRecord>)
    requires Extends(a, b) && Extends(b, c)
    ensures Extends(a, c)
  {
  }

  /** The audit collection, keyed by document id. */
  class AuditCollection {
    var records: map<DocId, AuditRecord>

    constructor ()
      ensures records == map[]
    {
      records := map[];
    }

    method FindOneAndUpdate(id: DocId, seed: Seed, push: Push)
      modifies this
      ensures records == Upsert(old(records), id, seed, push)
      ensures Extends(old(records), records)
    {
      var rec := if id in records then records[id] else AuditRecord(seed, [], [], []);
      match push {
        case PushUpdates(es) => rec := rec.(updateLog := rec.updateLog + es);
        case PushRemovals(es) => rec := rec.(removalLog := rec.removalLog + es);
        case PushTruncations(es) => rec := rec.(truncatedLog := rec.truncatedLog + es);
      }
      records := records[id := rec];
    }
  }

  /** A `replace_one(filter, replacement)` sent to the sample collection. */
  datatype ReplaceRequest = ReplaceRequest(filter: Doc, replacement: Doc)

  /** The sample collection, seen only through the replace requests sent to it. */
  class SampleCollection {
    var requests: seq<ReplaceRequest>

    constructor ()
      ensures requests == []
    {
      requests := [];
    }

    method ReplaceOne(filter: Doc, replacement: Doc)
      modifies this
      ensures requests == old(requests) + [ReplaceRequest(filter, replacement)]
    {
      requests := requests + [ReplaceRequest(filter, replacement)];
    }
  }
}
