/** The provenance classifier of `process_changes`: who made an update
    (`updated_by`, `update_type`), whether the just-applied document must be
    rewritten with corrected provenance, and which time the logs carry. */
module Provenance {
  import opened Values
  import opened FieldDiffer

  const SYSTEM: Value := Str(SYSTEM_TYPE)
  const USER: Value := Str("user")
  const TEMP_USER_PREFIX: string := "tempuser_"

  /** The classification of one update event. `document` is the post-image
      after the in-place `.update` of its provenance fields. */
  datatype Classification = Classification(updatedBy: Value, updateType: Value, isChanged: bool, document: Doc)

  /** `str.startswith` called on a post-image `update_type` that is not a string
      (AttributeError, which the change stream loop does not catch). */
  datatype ProcessError = UpdateTypeNotString(value: Value)

  predicate IsTempUser(v: Value) {
    v.Str? && TEMP_USER_PREFIX <= v.s
  }

  /** The `update_type` branch: the post-image names the actor; a temporary user becomes 'user'. */
  function ClassifyUser(after: Doc): (r: Result<Classification, ProcessError>)
    ensures r.Err? <==> !Get(after, "update_type", EMPTY).Str?
    ensures r.Ok? ==> r.value.updatedBy == Get(after, "updated_by", EMPTY)
    ensures r.Ok? ==> (r.value.isChanged <==> IsTempUser(Get(after, "update_type", EMPTY)))
    ensures r.Ok? ==> r.value.updateType == if r.value.isChanged then USER else Get(after, "update_type", EMPTY)
  {
    var updatedBy := Get(after, "updated_by", EMPTY);
    var updateType := Get(after, "update_type", EMPTY);
    if !updateType.Str? then Err(UpdateTypeNotString(updateType))
    else if TEMP_USER_PREFIX <= updateType.s then
      Ok(Classification(updatedBy, USER, true, after["update_type" := USER]))
    else
      Ok(Classification(updatedBy, updateType, false, after))
  }

  /** The other branch: the write is attributed to the system; the document is
      corrected unless both provenance fields already read 'system'. */
  function ClassifySystem(after: Doc): (c: Classification)
    ensures c.updatedBy == SYSTEM && c.updateType == SYSTEM
    ensures c.isChanged <==> Get(after, "updated_by", EMPTY) != SYSTEM || Get(after, "update_type", EMPTY) != SYSTEM
    ensures Get(c.document, "updated_by", EMPTY) == SYSTEM && Get(c.document, "update_type", EMPTY) == SYSTEM
  {
    var afterUpdatedBy := Get(after, "updated_by", EMPTY);
    var afterUpdateType := Get(after, "update_type", EMPTY);
    if afterUpdatedBy != SYSTEM || afterUpdateType != SYSTEM then
      Classification(SYSTEM, SYSTEM, true, after["update_type" := SYSTEM]["updated_by" := SYSTEM])
    else
      Classification(SYSTEM, SYSTEM, false, after)
  }

  /** The classification of an event whose update touched the fields `fs`. */
  function Classify(fs: seq<Field>, after: Doc): (r: Result<Classification, ProcessError>)
    ensures r.Ok? ==>
      // the document is rewritten exactly when a correction is flagged
      && (r.value.isChanged <==> r.value.document != after)
      // and only its provenance fields change
      && after.Keys <= r.value.document.Keys <= after.Keys + {"updated_by", "update_type"}
      && forall k :: k in after && k != "updated_by" && k != "update_type" ==> r.value.document[k] == after[k]
  {
    if "update_type" in Names(fs) then ClassifyUser(after) else Ok(ClassifySystem(after))
  }

  /** The log time: the event's wall time, unless the update touched
      `date_modified`, in which case the post-image's `date_modified`. */
  function LogTime(fs: seq<Field>, document: Doc, wallTime: Value): (time: Value)
    ensures "date_modified" !in Names(fs) ==> time == wallTime
    ensures "date_modified" in Names(fs) && "date_modified" in document ==> time == document["date_modified"]
    ensures "date_modified" !in document ==> time == wallTime
  {
    if "date_modified" in Names(fs) then Get(document, "date_modified", wallTime) else wallTime
  }

  /** A document whose provenance already reads 'system' is never corrected, whichever fields the update touched. */
  lemma SystemDocumentNeverCorrected(fs: seq<Field>, after: Doc)
    requires Get(after, "updated_by", EMPTY) == SYSTEM && Get(after, "update_type", EMPTY) == SYSTEM
    ensures Classify(fs, after).Ok? && !Classify(fs, after).value.isChanged
  {
  }

  /** Correction is a fixed point: classifying the corrected document again
      keeps the provenance and asks for no further correction. */
  lemma CorrectionIsFixedPoint(fs: seq<Field>, after: Doc)
    requires Classify(fs, after).Ok?
    ensures var c := Classify(fs, after).value;
      Classify(fs, c.document) == Ok(Classification(c.updatedBy, c.updateType, false, c.document))
  {
    var c := Classify(fs, after).value;
    if "update_type" in Names(fs) && c.isChanged {
      assert Get(c.document, "update_type", EMPTY) == USER;
      assert !(TEMP_USER_PREFIX <= "user");
    }
  }

  /** The classification never changes the post-image's `date_modified`, so the log time may be read from either. */
  lemma LogTimeUnaffectedByCorrection(fs: seq<Field>, after: Doc, wallTime: Value)
    requires Classify(fs, after).Ok?
    ensures LogTime(fs, Classify(fs, after).value.document, wallTime) == LogTime(fs, after, wallTime)
  {
  }
}
