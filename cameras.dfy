/** The `cameras` table behind `/cameras`: list, add, update (merge) and delete. */
module Cameras {
  import opened Base
  import opened Js
  import opened Store
  import opened Seqs

  type Table = map<string, StoredDoc>

  /** A handler's answer: `{ success: true }` or an error status with its message. */
  datatype Response = Success | Failure(status: int, message: string)

  const FetchFailed := "Failed to fetch cameras"
  const AddFailed := "Failed to add camera"
  const UpdateFailed := "Failed to update camera"
  const DeleteFailed := "Failed to delete camera"

  /** `!cameraId || !name || !area` fails. */
  predicate HasRequiredFields(body: Doc) {
    TruthyOpt(Get(body, "cameraId")) && TruthyOpt(Get(body, "name")) && TruthyOpt(Get(body, "area"))
  }

  /** The store accepts the write: the id is usable text, and neither coordinate is
      `undefined` (the store refuses `undefined` field values). */
  function StorableCamera(body: Doc): (r: bool)
    ensures r ==> "latitude" in body && "longitude" in body && "cameraId" in body
  {
    Get(body, "cameraId").Some? && Get(body, "cameraId").value.JStr? && ValidDocId(Get(body, "cameraId").value.s)
    && "latitude" in body && "longitude" in body
  }

  /** The document `/add` writes: the given name, area and coordinates, `active`
      always true, and the creation time. */
  function NewCamera(body: Doc, now: int): (r: StoredDoc)
    requires "name" in body && "area" in body && "latitude" in body && "longitude" in body
    ensures r.Keys == {"name", "area", "latitude", "longitude", "active", "createdAt"}
    ensures r["active"] == Val(JBool(true)) && r["createdAt"] == Stamp(now)
    ensures forall k :: k in {"name", "area", "latitude", "longitude"} ==> r[k] == Val(body[k])
  {
    map["name" := Val(body["name"]), "area" := Val(body["area"]),
        "latitude" := Val(body["latitude"]), "longitude" := Val(body["longitude"]),
        "active" := Val(JBool(true)), "createdAt" := Stamp(now)]
  }

  /** `POST /add` on `table` at time `now`; `fails` stands for a failing store. */
  function AddCamera(table: Table, body: Doc, now: int, fails: bool): (r: (Response, Table))
    ensures !HasRequiredFields(body) ==> r == (Failure(400, "Missing fields"), table)
    ensures HasRequiredFields(body) && (fails || !StorableCamera(body)) ==> r == (Failure(500, AddFailed), table)
    ensures r.0 == Success <==> HasRequiredFields(body) && !fails && StorableCamera(body)
    ensures r.0 == Success ==>
      var id := body["cameraId"].s;
      && r.1.Keys == table.Keys + {id}
      && r.1[id] == NewCamera(body, now)
      && r.1[id].Keys == {"name", "area", "latitude", "longitude", "active", "createdAt"}
      && r.1[id]["active"] == Val(JBool(true)) && r.1[id]["createdAt"] == Stamp(now)
      && (forall k :: k in {"name", "area", "latitude", "longitude"} ==> r.1[id][k] == Val(body[k]))
      && (forall other :: other in table && other != id ==> r.1[other] == table[other])
  {
    if !HasRequiredFields(body) then (Failure(400, "Missing fields"), table)
    else if fails || !StorableCamera(body) then (Failure(500, AddFailed), table)
    else (Success, table[body["cameraId"].s := NewCamera(body, now)])
  }

  /** `PUT /:cameraId`: the request's fields and `updatedAt` merged over the existing
      document. Updating a missing document fails. */
  function UpdateCamera(table: Table, id: string, body: Doc, now: int, fails: bool): (r: (Response, Table))
    ensures r.0 == Success <==> !fails && ValidDocId(id) && id in table
    ensures r.0 != Success ==> r == (Failure(500, UpdateFailed), table)
    ensures r.0 == Success ==>
      && r.1.Keys == table.Keys
      && r.1[id].Keys == table[id].Keys + body.Keys + {"updatedAt"}
      && r.1[id]["updatedAt"] == Stamp(now)
      && (forall k :: k in body && k != "updatedAt" ==> r.1[id][k] == Val(body[k]))
      && (forall k :: k in table[id] && k !in body && k != "updatedAt" ==> r.1[id][k] == table[id][k])
      && (forall other :: other in table && other != id ==> r.1[other] == table[other])
  {
    if fails || !ValidDocId(id) || id !in table then (Failure(500, UpdateFailed), table)
    else (Success, table[id := table[id] + FromDoc(body) + map["updatedAt" := Stamp(now)]])
  }

  /** `DELETE /:cameraId`: only the named camera goes (deleting a missing one
      succeeds and changes nothing). */
  function DeleteCamera(table: Table, id: string, fails: bool): (r: (Response, Table))
    ensures r.0 == Success <==> !fails && ValidDocId(id)
    ensures r.0 != Success ==> r == (Failure(500, DeleteFailed), table)
    ensures r.0 == Success ==> r.1.Keys == table.Keys - {id}
    ensures forall other :: other in r.1 ==> other in table && r.1[other] == table[other]
  {
    if fails || !ValidDocId(id) then (Failure(500, DeleteFailed), table)
    else (Success, table - {id})
  }

  /** The `cameras` collection. */
  class CameraTable {
    var docs: Table

    constructor(initial: Table)
      ensures docs == initial
    {
      docs := initial;
    }

    /** `GET /`: one entry per stored camera, its id under `cameraId` and then its
        fields. The order is the store's; `order` reports it. */
    method List(fails: bool) returns (r: Response, listing: seq<StoredDoc>, order: seq<string>)
      ensures fails ==> r == Failure(500, FetchFailed) && listing == []
      ensures !fails ==> r == Success
      ensures !fails ==> NoDuplicates(order) && (forall id :: id in order <==> id in docs)
      ensures |listing| == |order|
      ensures forall i :: 0 <= i < |order| ==> order[i] in docs && listing[i] == Tag("cameraId", order[i], docs[order[i]])
    {
      order, listing := [], [];
      if fails {
        return Failure(500, FetchFailed), listing, order;
      }
      var rest := docs.Keys;
      while rest != {}
        invariant rest <= docs.Keys
        invariant forall id :: id in order ==> id in docs && id !in rest
        invariant forall id :: id in docs ==> id in rest || id in order
        invariant NoDuplicates(order)
        invariant |listing| == |order|
        invariant forall i :: 0 <= i < |order| ==> order[i] in docs && listing[i] == Tag("cameraId", order[i], docs[order[i]])
        decreases |rest|
      {
        var id :| id in rest;
        NoDuplicatesSnoc(order, id);
        order := order + [id];
        listing := listing + [Tag("cameraId", id, docs[id])];
        rest := rest - {id};
      }
      r := Success;
    }

    method Add(body: Doc, now: int, fails: bool) returns (r: Response)
      modifies this
      ensures (r, docs) == AddCamera(old(docs), body, now, fails)
    {
      if !HasRequiredFields(body) {
        return Failure(400, "Missing fields");
      }
      if fails || !StorableCamera(body) {
        return Failure(500, AddFailed);
      }
      docs := docs[body["cameraId"].s := NewCamera(body, now)];
      r := Success;
    }

    method Update(id: string, body: Doc, now: int, fails: bool) returns (r: Response)
      modifies this
      ensures (r, docs) == UpdateCamera(old(docs), id, body, now, fails)
    {
      if fails || !ValidDocId(id) || id !in docs {
        return Failure(500, UpdateFailed);
      }
      docs := docs[id := docs[id] + FromDoc(body) + map["updatedAt" := Stamp(now)]];
      r := Success;
    }

    method Delete(id: string, fails: bool) returns (r: Response)
      modifies this
      ensures (r, docs) == DeleteCamera(old(docs), id, fails)
    {
      if fails || !ValidDocId(id) {
        return Failure(500, DeleteFailed);
      }
      docs := docs - {id};
      r := Success;
    }
  }

  /** Adding a camera again replaces its document wholesale: fields of the old
      document that the new one lacks are gone. */
  lemma AddReplaces(table: Table, body: Doc, now: int, k: string)
    requires AddCamera(table, body, now, false).0 == Success
    requires k !in {"name", "area", "latitude", "longitude", "active", "createdAt"}
    ensures k !in AddCamera(table, body, now, false).1[body["cameraId"].s]
  {
  }

  /** Adding ignores any `active` flag the request carries. */
  lemma AddAlwaysActive(table: Table, body: Doc, now: int)
    requires AddCamera(table, body, now, false).0 == Success
    ensures AddCamera(table, body, now, false).1[body["cameraId"].s]["active"] == Val(JBool(true))
    ensures AddCamera(table, body - {"active"}, now, false) == AddCamera(table, body, now, false)
  {
    var b := body - {"active"};
    assert Get(b, "cameraId") == Get(body, "cameraId");
    assert Get(b, "name") == Get(body, "name");
    assert Get(b, "area") == Get(body, "area");
  }
}
