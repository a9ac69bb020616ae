/** `GET /operator/cameras`: the cameras assigned to the signed-in operator, read
    from the operator's document in the `operators` collection. */
module OperatorCameras {
  import opened Base
  import opened Js
  import opened Store
  import opened Seqs

  /** The store as this handler reads it; `fails` stands for any read that throws. */
  datatype Snapshot = Snapshot(operators: map<string, StoredDoc>, cameras: map<string, StoredDoc>, fails: bool)

  /** The assigned ids: `operator.cameras` when it is an array, else none. */
  function AssignedIds(op: StoredDoc): (r: seq<Json>)
    ensures !(Field(op, "cameras").Some? && Field(op, "cameras").value == Val(JArr(r))) ==> r == []
  {
    match Field(op, "cameras")
    case Some(Val(JArr(items))) => items
    case _ => []
  }

  function IdTexts(ids: seq<Json>): (r: seq<string>)
    requires AllValidIds(ids)
    ensures |r| == |ids| && forall i :: 0 <= i < |ids| ==> ids[i] == JStr(r[i])
  {
    seq(|ids|, i requires 0 <= i < |ids| => ids[i].s)
  }

  /** The camera documents that exist, in assigned-id order, each tagged with its id. */
  function ExistingCameras(ids: seq<string>, cameras: map<string, StoredDoc>): (r: seq<StoredDoc>)
    ensures |r| == |Filter(ids, id => id in cameras)|
    ensures forall i :: 0 <= i < |r| ==>
      var id := Filter(ids, id => id in cameras)[i]; id in cameras && r[i] == Tag("cameraId", id, cameras[id])
  {
    var present := Filter(ids, id => id in cameras);
    seq(|present|, i requires 0 <= i < |present| => Tag("cameraId", present[i], cameras[present[i]]))
  }

  /** The handler's answer for the user `uid` (taken from `req.user?.uid`). Every
      failure, including a missing or unusable uid, answers with an empty list. */
  function OperatorCameras(uid: Option<string>, store: Snapshot): (r: seq<StoredDoc>)
    ensures store.fails ==> r == []
    ensures uid.None? || !ValidDocId(uid.value) || uid.value !in store.operators ==> r == []
    ensures (uid.Some? && uid.value in store.operators
             && Field(store.operators[uid.value], "status") != Some(Val(JStr("active")))) ==> r == []
  {
    if store.fails || uid.None? || !ValidDocId(uid.value) then []
    else if uid.value !in store.operators then []
    else
      var op := store.operators[uid.value];
      if Field(op, "status") != Some(Val(JStr("active"))) then []
      else
        var ids := AssignedIds(op);
        if !AllValidIds(ids) then []
        else ExistingCameras(IdTexts(ids), store.cameras)
  }

  /** The list holds only assigned cameras that exist, at most one per assigned id,
      in the order of assignment; a camera whose document has no `cameraId` field
      carries its own id. */
  lemma ListingIsAssigned(uid: string, store: Snapshot)
    requires !store.fails && ValidDocId(uid) && uid in store.operators
    requires Field(store.operators[uid], "status") == Some(Val(JStr("active")))
    requires AllValidIds(AssignedIds(store.operators[uid]))
    ensures var ids := IdTexts(AssignedIds(store.operators[uid]));
      var r := OperatorCameras(Some(uid), store);
      var present := Filter(ids, id => id in store.cameras);
      && |r| <= |ids|
      && IsSubsequence(present, ids)
      && (forall i :: 0 <= i < |r| ==> present[i] in ids && present[i] in store.cameras)
      && (forall i :: 0 <= i < |r| && "cameraId" !in store.cameras[present[i]] ==>
            r[i]["cameraId"] == Val(JStr(present[i])))
  {
    var ids := IdTexts(AssignedIds(store.operators[uid]));
    FilterIsSubsequence(ids, id => id in store.cameras);
  }

  /** A `cameras` field that is not an array counts as no cameras. */
  lemma NonArrayIsEmpty(uid: string, store: Snapshot)
    requires !store.fails && ValidDocId(uid) && uid in store.operators
    requires Field(store.operators[uid], "status") == Some(Val(JStr("active")))
    requires !(Field(store.operators[uid], "cameras").Some?
               && Field(store.operators[uid], "cameras").value.Val?
               && Field(store.operators[uid], "cameras").value.json.JArr?)
    ensures OperatorCameras(Some(uid), store) == []
  {
  }
}
