/** The dashboard map page: an admin sees every incident, an operator only those
    near one of the cameras assigned to them. */
module AreaMap {
  import opened Base
  import opened Js
  import opened Store
  import opened Seqs

  /** `{ id: d.id, ...d.data() }`: a stored `id` field wins over the document id. */
  function Record(id: string, data: Doc): (r: Doc)
    ensures "id" in r && (r["id"] == if "id" in data then data["id"] else JStr(id))
    ensures forall k :: k in data ==> k in r && r[k] == data[k]
  {
    map["id" := JStr(id)] + data
  }

  function Records(snaps: seq<(string, Doc)>): (r: seq<Doc>)
    ensures |r| == |snaps| && forall k :: 0 <= k < |r| ==> r[k] == Record(snaps[k].0, snaps[k].1)
  {
    seq(|snaps|, k requires 0 <= k < |snaps| => Record(snaps[k].0, snaps[k].1))
  }

  /** The outcome of one `getDoc`: the document's data, no document, or a read
      that rejects. */
  datatype Fetch = Found(data: Doc) | Absent | Failed

  /** Every assigned id can be fetched: `doc(db, "cameras", id)` accepts it and its
      read does not reject. One that fails rejects the whole `Promise.all`. */
  predicate Fetchable(ids: seq<Json>, lookup: string -> Fetch) {
    AllValidIds(ids) && forall k :: 0 <= k < |ids| ==> !lookup(ids[k].s).Failed?
  }

  /** The assigned cameras that have a document, in assigned order; `lookup` is the
      `cameras/{id}` read. */
  function Cameras(ids: seq<Json>, lookup: string -> Fetch): (r: seq<Doc>)
    requires AllValidIds(ids)
    ensures forall c :: c in r <==> exists k :: 0 <= k < |ids| && lookup(ids[k].s) == Found(c)
  {
    if ids == [] then []
    else
      assert forall k :: 1 <= k < |ids| ==> ids[k] == ids[1..][k - 1];
      var rest := Cameras(ids[1..], lookup);
      (if lookup(ids[0].s).Found? then [lookup(ids[0].s).data] else []) + rest
  }

  /** Strictly within 0.01 degrees of the camera on both axes, after JavaScript's
      numeric conversion of both sides; NaN is never near. */
  function NearCamera(incident: Doc, cam: Doc): (r: bool)
    ensures r ==> ToNumber(Prop(Get(incident, "location"), "lat")).Some? && ToNumber(Get(cam, "latitude")).Some?
    ensures r ==> ToNumber(Prop(Get(incident, "location"), "lng")).Some? && ToNumber(Get(cam, "longitude")).Some?
  {
    var loc := Get(incident, "location");
    var lat, lng := ToNumber(Prop(loc, "lat")), ToNumber(Prop(loc, "lng"));
    var clat, clng := ToNumber(Get(cam, "latitude")), ToNumber(Get(cam, "longitude"));
    lat.Some? && clat.Some? && lng.Some? && clng.Some?
    && Abs(lat.value - clat.value) < 0.01 && Abs(lng.value - clng.value) < 0.01
  }

  /** The filter's test: a truthy location near some camera. */
  predicate InArea(incident: Doc, cams: seq<Doc>) {
    TruthyOpt(Get(incident, "location")) && exists c :: c in cams && NearCamera(incident, c)
  }

  /** The incidents kept by the filter, in order. */
  function InAreaOf(all: seq<Doc>, cams: seq<Doc>): (r: seq<Doc>)
    ensures IsSubsequence(r, all)
    ensures forall k :: 0 <= k < |r| ==> InArea(r[k], cams)
  {
    FilterIsSubsequence(all, i => InArea(i, cams));
    Filter(all, i => InArea(i, cams))
  }

  /** The filter keeps exactly the incidents with a location near one of `cams`. */
  lemma InAreaOfFacts(all: seq<Doc>, cams: seq<Doc>)
    ensures var shown := InAreaOf(all, cams);
      && IsSubsequence(shown, all)
      && (forall k :: 0 <= k < |shown| ==> InArea(shown[k], cams))
      && (forall k :: 0 <= k < |all| && InArea(all[k], cams) ==> all[k] in shown)
  {
    FilterIsSubsequence(all, i => InArea(i, cams));
  }

  /** What the page ends up showing. */
  datatype Shown = StillLoading | Showing(incidents: seq<Doc>)

  /** `cameraIds.length === 0` for a truthy `cameras` value: an empty array, or an
      object whose `length` is 0. */
  predicate NoLength(ids: Json) {
    (ids.JArr? && ids.items == []) || (ids.JObj? && Get(ids.fields, "length") == Some(JNum(0.0)))
  }

  /** The auth callback: `role` is the token's `role` claim, `all` the incident
      records (`None` when the token or the incident read rejects), `operator` the
      `operators/{uid}` read and `lookup` the `cameras/{id}` reads. A rejected read,
      a `cameras` value that is neither empty nor an array (`map` throws), or an id
      that `doc()` refuses ends the callback early, and the page stays loading. */
  function Visible(role: Option<Json>, all: Option<seq<Doc>>, operator: Fetch, lookup: string -> Fetch): (r: Shown)
    ensures r.StillLoading? <==>
      || all.None?
      || (role != Some(JStr("admin"))
          && (|| operator.Failed?
              || (operator.Found?
                  && var ids := OrElse(Get(operator.data, "cameras"), JArr([]));
                     !NoLength(ids) && !(ids.JArr? && Fetchable(ids.items, lookup)))))
    ensures r.Showing? && role != Some(JStr("admin")) ==> IsSubsequence(r.incidents, all.value)
  {
    if all.None? then StillLoading
    else if role == Some(JStr("admin")) then Showing(all.value)
    else if operator.Failed? then StillLoading
    else if operator.Absent? then Showing([])
    else
      var ids := OrElse(Get(operator.data, "cameras"), JArr([]));
      if NoLength(ids) then Showing([])
      else if ids.JArr? && Fetchable(ids.items, lookup) then
        Showing(InAreaOf(all.value, Cameras(ids.items, lookup)))
      else StillLoading
  }

  /** The admin claim sees every incident, in order, without any operator read. */
  lemma AdminSeesAll(all: seq<Doc>, operator: Fetch, lookup: string -> Fetch)
    ensures Visible(Some(JStr("admin")), Some(all), operator, lookup) == Showing(all)
  {
  }

  /** Anyone else without an operator document, or with no assigned cameras, sees
      nothing. */
  lemma NoAssignmentSeesNothing(role: Option<Json>, all: seq<Doc>, operator: Fetch, lookup: string -> Fetch)
    requires role != Some(JStr("admin"))
    requires operator.Absent? || (operator.Found? && (!TruthyOpt(Get(operator.data, "cameras")) || Get(operator.data, "cameras") == Some(JArr([]))))
    ensures Visible(role, Some(all), operator, lookup) == Showing([])
  {
  }

  /** A number, an empty id or a path with `/` among the assigned ids keeps the page
      loading, whatever the store holds. */
  lemma InvalidIdStaysLoading(role: Option<Json>, all: seq<Doc>, op: Doc, ids: seq<Json>, lookup: string -> Fetch)
    requires role != Some(JStr("admin"))
    requires Get(op, "cameras") == Some(JArr(ids)) && ids != []
    requires exists k :: 0 <= k < |ids| && ids[k] in {JNum(42.0), JStr(""), JStr("a/b")}
    ensures Visible(role, Some(all), Found(op), lookup) == StillLoading
  {
    var k :| 0 <= k < |ids| && ids[k] in {JNum(42.0), JStr(""), JStr("a/b")};
    assert !(ids[k].JStr? && ValidDocId(ids[k].s)) by {
      if ids[k] == JStr("a/b") {
        assert "a/b"[1] == '/';
      }
    }
  }

  /** An operator with fetchable assigned cameras sees the incidents the area filter
      keeps for the cameras that exist. */
  lemma OperatorSeesArea(role: Option<Json>, all: seq<Doc>, op: Doc, ids: seq<Json>, lookup: string -> Fetch)
    requires role != Some(JStr("admin"))
    requires Get(op, "cameras") == Some(JArr(ids)) && ids != []
    requires Fetchable(ids, lookup)
    ensures Visible(role, Some(all), Found(op), lookup) == Showing(InAreaOf(all, Cameras(ids, lookup)))
  {
  }

  /** What the operator is shown: exactly the incidents with a location near one of
      their existing cameras, in their original order. */
  lemma AssignedArea(all: seq<Doc>, ids: seq<Json>, lookup: string -> Fetch)
    requires AllValidIds(ids)
    ensures var shown := InAreaOf(all, Cameras(ids, lookup));
      && IsSubsequence(shown, all)
      && (forall k :: 0 <= k < |shown| ==> TruthyOpt(Get(shown[k], "location")))
      && (forall k :: 0 <= k < |shown| ==> exists j, c :: 0 <= j < |ids| && lookup(ids[j].s) == Found(c) && NearCamera(shown[k], c))
      && (forall k, j, c :: (0 <= k < |all| && 0 <= j < |ids| && lookup(ids[j].s) == Found(c)
                             && TruthyOpt(Get(all[k], "location")) && NearCamera(all[k], c)) ==> all[k] in shown)
  {
    var cams := Cameras(ids, lookup);
    var shown := InAreaOf(all, cams);
    InAreaOfFacts(all, cams);
    forall k | 0 <= k < |shown|
      ensures TruthyOpt(Get(shown[k], "location"))
      ensures exists j, c :: 0 <= j < |ids| && lookup(ids[j].s) == Found(c) && NearCamera(shown[k], c)
    {
      assert InArea(shown[k], cams);
      var c :| c in cams && NearCamera(shown[k], c);
      var j :| 0 <= j < |ids| && lookup(ids[j].s) == Found(c);
    }
    forall k, j, c | (0 <= k < |all| && 0 <= j < |ids| && lookup(ids[j].s) == Found(c)
                      && TruthyOpt(Get(all[k], "location")) && NearCamera(all[k], c))
      ensures all[k] in shown
    {
      assert c in cams;
      assert InArea(all[k], cams);
    }
  }

  /** An assigned id without a camera document changes nothing. */
  lemma MissingCameraIgnored(ids: seq<Json>, missing: string, lookup: string -> Fetch)
    requires AllValidIds(ids) && ValidDocId(missing) && lookup(missing) == Absent
    ensures Cameras([JStr(missing)] + ids, lookup) == Cameras(ids, lookup)
    ensures Cameras(ids + [JStr(missing)], lookup) == Cameras(ids, lookup)
  {
    assert ([JStr(missing)] + ids)[1..] == ids;
    CamerasSnocMissing(ids, missing, lookup);
  }

  lemma {:induction false} CamerasSnocMissing(ids: seq<Json>, missing: string, lookup: string -> Fetch)
    requires AllValidIds(ids) && ValidDocId(missing) && lookup(missing) == Absent
    ensures AllValidIds(ids + [JStr(missing)])
    ensures Cameras(ids + [JStr(missing)], lookup) == Cameras(ids, lookup)
  {
    if ids == [] {
      assert ([] + [JStr(missing)])[1..] == [];
    } else {
      assert (ids + [JStr(missing)])[1..] == ids[1..] + [JStr(missing)];
      assert AllValidIds(ids[1..]);
      CamerasSnocMissing(ids[1..], missing, lookup);
    }
  }

  /** The page's state. */
  class MapPage {
    var incidents: Option<seq<Doc>>
    var loading: bool

    constructor()
      ensures incidents.None? && loading
    {
      incidents, loading := None, true;
    }

    /** The `onAuthStateChanged` callback; no signed-in user changes nothing. */
    method OnAuth(signedIn: bool, role: Option<Json>, all: Option<seq<Doc>>, operator: Fetch, lookup: string -> Fetch)
      modifies this
      ensures !signedIn || Visible(role, all, operator, lookup).StillLoading? ==> incidents == old(incidents) && loading == old(loading)
      ensures signedIn && Visible(role, all, operator, lookup).Showing? ==>
        incidents == Some(Visible(role, all, operator, lookup).incidents) && !loading
    {
      if !signedIn {
        return;
      }
      var shown := Visible(role, all, operator, lookup);
      if shown.StillLoading? {
        return;
      }
      incidents := Some(shown.incidents);
      loading := false;
    }
  }
}
