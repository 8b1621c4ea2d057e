/** Values, documents and change events as the sample audit consumer sees them. */
module Values {

  datatype Option<+T> = None | Some(value: T)

  datatype Result<+T, +E> = Ok(value: T) | Err(error: E)

  /** A field value of a stored document: a string, an integer, a date
      (an opaque instant, as `wallTime` and `date_modified` are) or null. */
  datatype Value = Str(s: string) | Int(i: int) | Date(instant: int) | Null

  /** A document (pre-image, post-image, audit seed source) is a map from field names to values. */
  type Doc = map<string, Value>

  /** `documentKey._id`: an opaque stable identifier. */
  type DocId = string

  /** A change stream resume token: opaque, one per delivered event. */
  type Token = nat

  /** The empty string that `str()` produces as a default value. */
  const EMPTY: Value := Str("")

  /** `d.get(key, default)` */
  function Get(d: Doc, key: string, default: Value): Value {
    if key in d then d[key] else default
  }

  function GetOr<T>(o: Option<T>, default: T): T {
    match o
    case Some(v) => v
    case None => default
  }

  /** One `(name, value)` pair of `updateDescription.updatedFields`, in the order the store reports them. */
  datatype Field = Field(name: string, value: Value)

  /** One element of `updateDescription.truncatedArrays`; either key may be absent. */
  datatype TruncatedArray = TruncatedArray(field: Option<string>, newSize: Option<int>)

  /** One update notification of the change stream on the sample collection. */
  datatype ChangeEvent = ChangeEvent(
    documentId: DocId,                  // documentKey._id
    collectionName: string,             // ns.coll, "" when absent
    operationType: string,              // operationType, "" when absent
    before: Doc,                        // fullDocumentBeforeChange, {} when absent
    after: Doc,                         // fullDocument, {} when absent
    wallTime: Value,                    // wallTime (always present)
    updatedFields: seq<Field>,          // updateDescription.updatedFields, [] when absent
    removedFields: seq<string>,         // updateDescription.removedFields, [] when absent
    truncatedArrays: seq<TruncatedArray>, // updateDescription.truncatedArrays, [] when absent
    token: Token)                       // the stream's resume token once this event has been returned

  /** The field names of an `updatedFields` list (Python's `field in updatedFields`). */
  function Names(fs: seq<Field>): (names: set<string>)
    ensures forall i :: 0 <= i < |fs| ==> fs[i].name in names
    ensures forall n :: n in names ==> exists i :: 0 <= i < |fs| && fs[i].name == n
  {
    set i | 0 <= i < |fs| :: fs[i].name
  }

  /** A dictionary never holds a key twice. */
  ghost predicate DistinctNames(fs: seq<Field>) {
    forall i, j :: 0 <= i < j < |fs| ==> fs[i].name != fs[j].name
  }
}
