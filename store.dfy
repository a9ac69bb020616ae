/** Stored documents as the document store holds them: plain values, store
    timestamps and JavaScript dates. */
module Store {
  import opened Base
  import opened Js

  /** A stored field: a plain value, a store timestamp (its milliseconds), a
      JavaScript `Date` (`None` for an invalid date), or a nested object of fields. */
  datatype Value =
    | Val(json: Json)
    | Stamp(millis: int)
    | DateVal(time: Option<int>)
    | Obj(fields: map<string, Value>)

  /** A stored document, field by field. */
  type StoredDoc = map<string, Value>

  function Field(d: StoredDoc, key: string): Option<Value> {
    if key in d then Some(d[key]) else None
  }

  /** JavaScript truthiness of a field that may be `undefined`. */
  predicate TruthyValue(v: Option<Value>) {
    match v
    case None => false
    case Some(Val(j)) => Truthy(j)
    case Some(_) => true
  }

  /** `a || b` on fields. */
  function OrValue(a: Option<Value>, b: Value): (r: Value)
    ensures TruthyValue(a) ==> r == a.value
    ensures !TruthyValue(a) ==> r == b
  {
    if TruthyValue(a) then a.value else b
  }

  /** `typeof v === "number"`. */
  predicate IsNumberValue(v: Option<Value>) {
    v.Some? && v.value.Val? && (v.value.json.JNum? || v.value.json.JNaN?)
  }

  /** A plain object stored as a document. */
  function FromDoc(d: Doc): (r: StoredDoc)
    ensures r.Keys == d.Keys
    ensures forall k :: k in d ==> r[k] == Val(d[k])
  {
    map k | k in d :: Val(d[k])
  }

  /** `{ cameraId: id, ...data }`: the document id first, so a `cameraId` field of
      the document itself overrides it. */
  function Tag(key: string, id: string, data: StoredDoc): (r: StoredDoc)
    ensures r.Keys == data.Keys + {key}
    ensures key !in data ==> r[key] == Val(JStr(id))
    ensures forall k :: k in data ==> r[k] == data[k]
  {
    map[key := Val(JStr(id))] + data
  }

  /** Removing the added key gives back the document. */
  lemma TagUntag(key: string, id: string, data: StoredDoc)
    requires key !in data
    ensures Tag(key, id, data) - {key} == data
  {
    assert (Tag(key, id, data) - {key}).Keys == data.Keys;
  }

  /** A document id the store accepts as one path segment. */
  predicate ValidDocId(id: string) {
    id != "" && '/' !in id
  }

  /** Every id is text the store takes as a document id; any other id makes
      `doc(id)` throw. */
  predicate AllValidIds(ids: seq<Json>) {
    forall i :: 0 <= i < |ids| ==> ids[i].JStr? && ValidDocId(ids[i].s)
  }
}
