/** The field differ of `process_changes`: the outdated values of the updated
    fields and the `update_log`, `removal_log` and `truncated_log` entry lists. */
module FieldDiffer {
  import opened Values

  /** Bookkeeping fields that never appear in an `update_log`. */
  const EXCLUDED: set<string> := {"changelog", "date_modified", "time_updated", "updated_by", "update_type"}

  const SYSTEM_TYPE: string := "system"

  datatype UpdateEntry = UpdateEntry(
    field: string,
    outdatedValue: Value,
    updatedValue: Value,
    updatedBy: Value,
    updateType: Value,
    timeUpdated: Value)

  datatype RemovalEntry = RemovalEntry(field: string, removalType: string, timeRemoved: Value)

  datatype TruncatedEntry = TruncatedEntry(field: string, newSize: int, truncatedType: string, timeTruncated: Value)

  /** `outdatedFields`: the pre-image value of every updated field that the pre-image holds. */
  function OutdatedFields(fs: seq<Field>, before: Doc): (outdated: map<string, Value>)
    ensures outdated.Keys == Names(fs) * before.Keys
    ensures forall n :: n in outdated ==> outdated[n] == before[n]
  {
    map n | n in Names(fs) && n in before :: before[n]
  }

  /** The outdated value the log compares and records: `outdatedFields.get(field, str())`. */
  function OutdatedValue(outdated: map<string, Value>, name: string): Value {
    Get(outdated, name, EMPTY)
  }

  /** Whether an updated field gets an `update_log` entry. */
  predicate Recorded(f: Field, outdated: map<string, Value>) {
    f.name !in EXCLUDED && OutdatedValue(outdated, f.name) != f.value
  }

  function EntryFor(f: Field, outdated: map<string, Value>, updatedBy: Value, updateType: Value, time: Value): UpdateEntry {
    UpdateEntry(f.name, OutdatedValue(outdated, f.name), f.value, updatedBy, updateType, time)
  }

  /** The `update_log` entry list, built by appending in `updatedFields` order. */
  function UpdateLog(fs: seq<Field>, outdated: map<string, Value>, updatedBy: Value, updateType: Value, time: Value): seq<UpdateEntry> {
    if fs == [] then []
    else
      var f := fs[|fs| - 1];
      UpdateLog(fs[..|fs| - 1], outdated, updatedBy, updateType, time)
        + (if Recorded(f, outdated) then [EntryFor(f, outdated, updatedBy, updateType, time)] else [])
  }

  /** The positions in `fs` of the recorded fields, ascending. */
  function RecordedPositions(fs: seq<Field>, outdated: map<string, Value>): seq<nat> {
    if fs == [] then []
    else
      RecordedPositions(fs[..|fs| - 1], outdated)
        + (if Recorded(fs[|fs| - 1], outdated) then [|fs| - 1] else [])
  }

  /** The outdated value of an updated field is its pre-image value, or "" when the pre-image lacks it. */
  lemma OutdatedValueIsBeforeImage(fs: seq<Field>, before: Doc, i: nat)
    requires i < |fs|
    ensures OutdatedValue(OutdatedFields(fs, before), fs[i].name) == Get(before, fs[i].name, EMPTY)
  {
  }

  /** The recorded positions are valid, strictly ascending, and are exactly the positions of recorded fields. */
  lemma {:induction false} RecordedPositionsAscending(fs: seq<Field>, outdated: map<string, Value>)
    ensures var pos := RecordedPositions(fs, outdated);
      && (forall k :: 0 <= k < |pos| ==> pos[k] < |fs|)
      && (forall j, k :: 0 <= j < k < |pos| ==> pos[j] < pos[k])
      && (forall i :: 0 <= i < |fs| ==> (Recorded(fs[i], outdated) <==> i in pos))
  {
    if fs != [] {
      var init := fs[..|fs| - 1];
      RecordedPositionsAscending(init, outdated);
      assert forall i :: 0 <= i < |init| ==> init[i] == fs[i];
    }
  }

  /** The update log holds exactly the entries of the recorded fields, in `updatedFields` order. */
  lemma {:induction false} UpdateLogIsRecordedFieldsInOrder(
    fs: seq<Field>, outdated: map<string, Value>, updatedBy: Value, updateType: Value, time: Value)
    ensures var log, pos := UpdateLog(fs, outdated, updatedBy, updateType, time), RecordedPositions(fs, outdated);
      && |log| == |pos|
      && (forall k :: 0 <= k < |pos| ==> pos[k] < |fs| && log[k] == EntryFor(fs[pos[k]], outdated, updatedBy, updateType, time))
      && (forall j, k :: 0 <= j < k < |pos| ==> pos[j] < pos[k])
      && (forall i :: 0 <= i < |fs| ==> (Recorded(fs[i], outdated) <==> i in pos))
  {
    RecordedPositionsAscending(fs, outdated);
    if fs != [] {
      var init := fs[..|fs| - 1];
      UpdateLogIsRecordedFieldsInOrder(init, outdated, updatedBy, updateType, time);
      var log0, pos0 := UpdateLog(init, outdated, updatedBy, updateType, time), RecordedPositions(init, outdated);
      var log, pos := UpdateLog(fs, outdated, updatedBy, updateType, time), RecordedPositions(fs, outdated);
      forall k | 0 <= k < |pos|
        ensures log[k] == EntryFor(fs[pos[k]], outdated, updatedBy, updateType, time)
      {
        if k < |pos0| {
          assert log[k] == log0[k] && pos[k] == pos0[k] && init[pos0[k]] == fs[pos0[k]];
        }
      }
    }
  }

  /** No entry is ever produced for a bookkeeping field, and every entry records a real change. */
  lemma {:induction false} UpdateLogExcludesBookkeeping(
    fs: seq<Field>, outdated: map<string, Value>, updatedBy: Value, updateType: Value, time: Value)
    ensures forall e :: e in UpdateLog(fs, outdated, updatedBy, updateType, time) ==>
      e.field !in EXCLUDED && e.outdatedValue != e.updatedValue
      && e.updatedBy == updatedBy && e.updateType == updateType && e.timeUpdated == time
  {
    if fs != [] {
      UpdateLogExcludesBookkeeping(fs[..|fs| - 1], outdated, updatedBy, updateType, time);
    }
  }

  /** Every `update_log` entry is a non-bookkeeping updated field whose outdated value (the
      pre-image value, or "" when absent) differs from its new value; every such field gets an entry. */
  lemma UpdateLogMatchesImages(fs: seq<Field>, before: Doc, updatedBy: Value, updateType: Value, time: Value)
    ensures var log := UpdateLog(fs, OutdatedFields(fs, before), updatedBy, updateType, time);
      && (forall e :: e in log ==>
        && e.field !in EXCLUDED
        && e.outdatedValue == Get(before, e.field, EMPTY)
        && e.outdatedValue != e.updatedValue
        && exists i :: 0 <= i < |fs| && fs[i].name == e.field && fs[i].value == e.updatedValue)
      && (forall i :: 0 <= i < |fs| && fs[i].name !in EXCLUDED && Get(before, fs[i].name, EMPTY) != fs[i].value ==>
        exists e :: e in log && e.field == fs[i].name && e.updatedValue == fs[i].value)
  {
    var outdated := OutdatedFields(fs, before);
    var log := UpdateLog(fs, outdated, updatedBy, updateType, time);
    var pos := RecordedPositions(fs, outdated);
    UpdateLogIsRecordedFieldsInOrder(fs, outdated, updatedBy, updateType, time);
    UpdateLogExcludesBookkeeping(fs, outdated, updatedBy, updateType, time);
    forall e | e in log
      ensures e.outdatedValue == Get(before, e.field, EMPTY)
      ensures exists i :: 0 <= i < |fs| && fs[i].name == e.field && fs[i].value == e.updatedValue
    {
      var k :| 0 <= k < |log| && log[k] == e;
      OutdatedValueIsBeforeImage(fs, before, pos[k]);
    }
    forall i | 0 <= i < |fs| && fs[i].name !in EXCLUDED && Get(before, fs[i].name, EMPTY) != fs[i].value
      ensures exists e :: e in log && e.field == fs[i].name && e.updatedValue == fs[i].value
    {
      OutdatedValueIsBeforeImage(fs, before, i);
      assert i in pos;
      var k :| 0 <= k < |pos| && pos[k] == i;
      assert log[k] in log;
    }
  }

  /** With distinct updated names, each field appears in at most one entry. */
  lemma UpdateLogFieldsDistinct(fs: seq<Field>, outdated: map<string, Value>, updatedBy: Value, updateType: Value, time: Value)
    requires DistinctNames(fs)
    ensures var log := UpdateLog(fs, outdated, updatedBy, updateType, time);
      forall j, k :: 0 <= j < k < |log| ==> log[j].field != log[k].field
  {
    UpdateLogIsRecordedFieldsInOrder(fs, outdated, updatedBy, updateType, time);
  }

  /** `output` of the `update_log` loop. */
  method BuildUpdateLog(fs: seq<Field>, outdated: map<string, Value>, updatedBy: Value, updateType: Value, time: Value)
    returns (output: seq<UpdateEntry>)
    ensures output == UpdateLog(fs, outdated, updatedBy, updateType, time)
  {
    output := [];
    var i := 0;
    while i < |fs|
      invariant 0 <= i <= |fs|
      invariant output == UpdateLog(fs[..i], outdated, updatedBy, updateType, time)
    {
      var f := fs[i];
      if f.name in EXCLUDED {
        // bookkeeping field: skipped
      } else if OutdatedValue(outdated, f.name) == f.value {
        // unchanged value: skipped
      } else {
        output := output + [UpdateEntry(f.name, OutdatedValue(outdated, f.name), f.value, updatedBy, updateType, time)];
      }
      assert fs[..i + 1][..i] == fs[..i];
      i := i + 1;
    }
    assert fs[..i] == fs;
  }

  function RemovalLog(removed: seq<string>, time: Value): seq<RemovalEntry> {
    if removed == [] then []
    else RemovalLog(removed[..|removed| - 1], time) + [RemovalEntry(removed[|removed| - 1], SYSTEM_TYPE, time)]
  }

  /** One `removal_log` entry per removed field, in input order, of type 'system' at the given time. */
  lemma {:induction false} RemovalLogEntries(removed: seq<string>, time: Value)
    ensures var log := RemovalLog(removed, time);
      |log| == |removed| && forall i :: 0 <= i < |removed| ==> log[i] == RemovalEntry(removed[i], SYSTEM_TYPE, time)
  {
    if removed != [] {
      RemovalLogEntries(removed[..|removed| - 1], time);
    }
  }

  /** `output` of the `removal_log` loop. */
  method BuildRemovalLog(removed: seq<string>, time: Value) returns (output: seq<RemovalEntry>)
    ensures output == RemovalLog(removed, time)
  {
    output := [];
    var i := 0;
    while i < |removed|
      invariant 0 <= i <= |removed|
      invariant output == RemovalLog(removed[..i], time)
    {
      output := output + [RemovalEntry(removed[i], SYSTEM_TYPE, time)];
      assert removed[..i + 1][..i] == removed[..i];
      i := i + 1;
    }
    assert removed[..i] == removed;
  }

  /** The entry of one truncated array: a missing `field` reads "", a missing `newSize` reads 0. */
  function TruncatedEntryFor(t: TruncatedArray, time: Value): TruncatedEntry {
    TruncatedEntry(GetOr(t.field, ""), GetOr(t.newSize, 0), SYSTEM_TYPE, time)
  }

  function TruncatedLog(truncated: seq<TruncatedArray>, time: Value): seq<TruncatedEntry> {
    if truncated == [] then []
    else TruncatedLog(truncated[..|truncated| - 1], time) + [TruncatedEntryFor(truncated[|truncated| - 1], time)]
  }

  /** One `truncated_log` entry per truncated array, in input order, of type 'system' at the given time. */
  lemma {:induction false} TruncatedLogEntries(truncated: seq<TruncatedArray>, time: Value)
    ensures var log := TruncatedLog(truncated, time);
      && |log| == |truncated|
      && forall i :: 0 <= i < |truncated| ==>
        && log[i].field == (if truncated[i].field.Some? then truncated[i].field.value else "")
        && log[i].newSize == (if truncated[i].newSize.Some? then truncated[i].newSize.value else 0)
        && log[i].truncatedType == SYSTEM_TYPE
        && log[i].timeTruncated == time
  {
    if truncated != [] {
      TruncatedLogEntries(truncated[..|truncated| - 1], time);
    }
  }

  /** `output` of the `truncated_log` loop. */
  method BuildTruncatedLog(truncated: seq<TruncatedArray>, time: Value) returns (output: seq<TruncatedEntry>)
    ensures output == TruncatedLog(truncated, time)
  {
    output := [];
    var i := 0;
    while i < |truncated|
      invariant 0 <= i <= |truncated|
      invariant output == TruncatedLog(truncated[..i], time)
    {
      var element := truncated[i];
      var field := if element.field.Some? then element.field.value else "";
      var newSize := if element.newSize.Some? then element.newSize.value else 0;
      output := output + [TruncatedEntry(field, newSize, SYSTEM_TYPE, time)];
      assert truncated[..i + 1][..i] == truncated[..i];
      i := i + 1;
    }
    assert truncated[..i] == truncated;
  }
}
