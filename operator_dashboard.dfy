/** The operator dashboard's incident feed: the camera filter, the camera options and
    the badge colour of an incident type. */
module OperatorDashboard {
  import opened Base
  import opened Js
  import opened Seqs

  /** `i.cameraId === filter` for the filter text chosen in the select. */
  predicate OnCamera(incident: Doc, filter: string) {
    Get(incident, "cameraId") == Some(JStr(filter))
  }

  /** `filteredIncidents`. */
  function Filtered(incidents: seq<Doc>, filter: string): (r: seq<Doc>)
    ensures filter == "all" ==> r == incidents
    ensures filter != "all" ==> forall k :: 0 <= k < |r| ==> OnCamera(r[k], filter)
    ensures filter != "all" ==> forall k :: 0 <= k < |incidents| && OnCamera(incidents[k], filter) ==> incidents[k] in r
  {
    if filter == "all" then incidents else Filter(incidents, i => OnCamera(i, filter))
  }

  /** Any other filter shows exactly the incidents of that camera, in their order;
      `"all"` shows everything, so a camera named `all` cannot be shown on its own. */
  lemma FilterShowsCamera(incidents: seq<Doc>, filter: string)
    ensures filter == "all" ==> Filtered(incidents, filter) == incidents
    ensures IsSubsequence(Filtered(incidents, filter), incidents)
    ensures filter != "all" ==>
      && (forall k :: 0 <= k < |Filtered(incidents, filter)| ==> OnCamera(Filtered(incidents, filter)[k], filter))
      && (forall k :: 0 <= k < |incidents| && OnCamera(incidents[k], filter) ==> incidents[k] in Filtered(incidents, filter))
  {
    FilterIsSubsequence(incidents, i => OnCamera(i, filter));
    if filter == "all" {
      SubsequenceOfItself(incidents);
    }
  }

  lemma {:induction false} SubsequenceOfItself(xs: seq<Doc>)
    ensures IsSubsequence(xs, xs)
  {
    if xs != [] {
      SubsequenceOfItself(xs[1..]);
    }
  }

  function CameraIds(incidents: seq<Doc>): (r: seq<Option<Json>>)
    ensures |r| == |incidents| && forall k :: 0 <= k < |r| ==> r[k] == Get(incidents[k], "cameraId")
  {
    seq(|incidents|, k requires 0 <= k < |incidents| => Get(incidents[k], "cameraId"))
  }

  /** `[...new Set(incidents.map(i => i.cameraId))]`; a missing id is `None`. */
  function CameraOptions(incidents: seq<Doc>): (r: seq<Option<Json>>)
    ensures NoDuplicates(r)
    ensures forall k :: 0 <= k < |incidents| ==> Get(incidents[k], "cameraId") in r
  {
    Distinct(CameraIds(incidents))
  }

  /** Each camera id is offered once, every id of the feed is offered, and they come in
      the order they first occur. */
  lemma OptionsAreDistinct(incidents: seq<Doc>)
    ensures NoDuplicates(CameraOptions(incidents))
    ensures forall k :: 0 <= k < |incidents| ==> Get(incidents[k], "cameraId") in CameraOptions(incidents)
    ensures forall v :: v in CameraOptions(incidents) ==> exists k :: 0 <= k < |incidents| && Get(incidents[k], "cameraId") == v
    ensures IsSubsequence(CameraOptions(incidents), CameraIds(incidents))
    ensures InFirstOccurrenceOrder(CameraOptions(incidents), CameraIds(incidents))
  {
    var ids := CameraIds(incidents);
    DistinctIsSubsequence(ids);
    DistinctInFirstOccurrenceOrder(ids);
    forall v | v in CameraOptions(incidents)
      ensures exists k :: 0 <= k < |incidents| && Get(incidents[k], "cameraId") == v
    {
      var k :| 0 <= k < |ids| && ids[k] == v;
    }
  }

  /** `v?.includes(t)`: a substring test on text, an element test on an array,
      `undefined` on `null` or `undefined`; `None` when `includes` is missing and
      the call throws. */
  function Includes(v: Option<Json>, t: string): (r: Option<bool>)
    ensures r.None? <==> v.Some? && !(v.value == JNull || v.value.JStr? || v.value.JArr?)
    ensures !IsPresent(v) ==> r == Some(false)
  {
    match v
    case None => Some(false)
    case Some(JNull) => Some(false)
    case Some(JStr(s)) => Some(Contains(s, t))
    case Some(JArr(items)) => Some(JStr(t) in items)
    case _ => None
  }

  /** `getSeverityColor(type)`. */
  function SeverityColor(crimeType: Option<Json>): (r: Option<string>)
    ensures r.Some? ==> r.value in {"bg-red-600", "bg-orange-500", "bg-yellow-500"}
    ensures r == Some("bg-red-600") <==> Includes(crimeType, "FIGHT") == Some(true)
  {
    match Includes(crimeType, "FIGHT")
    case None => None
    case Some(true) => Some("bg-red-600")
    case Some(false) =>
      match Includes(crimeType, "INTRUSION")
      case None => None
      case Some(true) => Some("bg-orange-500")
      case Some(false) => Some("bg-yellow-500")
  }

  /** For a text type: red when it contains FIGHT anywhere (even alongside INTRUSION),
      orange when it contains INTRUSION but not FIGHT, yellow otherwise, case-sensitively. */
  lemma ColourOfText(s: string)
    ensures SeverityColor(Some(JStr(s))) == Some(
      if exists i :: OccursAt(s, "FIGHT", i) then "bg-red-600"
      else if exists i :: OccursAt(s, "INTRUSION", i) then "bg-orange-500"
      else "bg-yellow-500")
  {
    ContainsIff(s, "FIGHT");
    ContainsIff(s, "INTRUSION");
  }

  /** A missing type is yellow, and only a non-text, non-array value throws. */
  lemma ColourOfOthers(crimeType: Option<Json>)
    ensures crimeType.None? || crimeType == Some(JNull) ==> SeverityColor(crimeType) == Some("bg-yellow-500")
    ensures SeverityColor(crimeType).None? <==>
      crimeType.Some? && !(crimeType.value == JNull || crimeType.value.JStr? || crimeType.value.JArr?)
  {
  }
}
