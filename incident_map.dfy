/** The incident map's front: the guards on its input and the incidents it hands to
    the marker layer. */
module IncidentMap {
  import opened Base
  import opened Js
  import opened Seqs

  /** What `IncidentMap` renders. */
  datatype View = Loading | NoIncidents | NoLocations | Markers(incidents: seq<Json>)

  /** `i.location?.lat != null && i.location?.lng != null`; `None` when `i` itself is
      `null`, since reading `location` from it throws. */
  function HasLocation(i: Json): (r: Option<bool>)
    ensures r.None? <==> i == JNull
    ensures r == Some(true) ==>
      && i.JObj? && "location" in i.fields && i.fields["location"].JObj?
      && IsPresent(Get(i.fields["location"].fields, "lat")) && IsPresent(Get(i.fields["location"].fields, "lng"))
  {
    if i == JNull then None
    else
      var loc := Prop(Some(i), "location");
      Some(IsPresent(Prop(loc, "lat")) && IsPresent(Prop(loc, "lng")))
  }

  predicate Located(i: Json) {
    HasLocation(i) == Some(true)
  }

  /** The `filter` over `items`: the incidents with a location, in order; `None`
      when one of them is `null` and the test throws. */
  function WithLocation(items: seq<Json>): (r: Option<seq<Json>>)
    ensures r.None? <==> JNull in items
    ensures r.Some? ==> IsSubsequence(r.value, items) && forall k :: 0 <= k < |r.value| ==> Located(r.value[k])
    ensures r.Some? ==> forall k :: 0 <= k < |items| && Located(items[k]) ==> items[k] in r.value
  {
    FilterIsSubsequence(items, Located);
    if JNull in items then None else Some(Filter(items, Located))
  }

  /** The `map`: the incident with `location.lat` and `location.lng` replaced by
      their `Number` conversions, every other field kept. */
  function Normalise(i: Json): (r: Json)
    ensures !(i.JObj? && "location" in i.fields && i.fields["location"].JObj?) ==> r == i
    ensures i.JObj? ==> r.JObj? && r.fields.Keys == i.fields.Keys
    ensures i.JObj? ==> forall k :: k in i.fields && k != "location" ==> r.fields[k] == i.fields[k]
  {
    if i.JObj? && "location" in i.fields && i.fields["location"].JObj? then
      var loc := i.fields["location"].fields;
      JObj(i.fields["location" := JObj(loc["lat" := NumberValue(Get(loc, "lat"))]["lng" := NumberValue(Get(loc, "lng"))])])
    else i
  }

  function NormaliseAll(items: seq<Json>): (r: seq<Json>)
    ensures |r| == |items| && forall k :: 0 <= k < |r| ==> r[k] == Normalise(items[k])
  {
    seq(|items|, k requires 0 <= k < |items| => Normalise(items[k]))
  }

  /** `IncidentMap({ incidents })`; `None` when the filter throws. */
  function Render(incidents: Option<Json>): (r: Option<View>)
    ensures r == Some(Loading) <==> !TruthyOpt(incidents)
    ensures r.None? <==> TruthyOpt(incidents) && incidents.value.JArr? && JNull in incidents.value.items
    ensures r.Some? && r.value.Markers? ==> r.value.incidents != []
  {
    if !TruthyOpt(incidents) then Some(Loading)
    else if !incidents.value.JArr? || incidents.value.items == [] then Some(NoIncidents)
    else match WithLocation(incidents.value.items)
      case None => None
      case Some(valid) => Some(if valid == [] then NoLocations else Markers(NormaliseAll(valid)))
  }

  /** The filter keeps exactly the located incidents, in their original order, and
      throws exactly when some incident is `null`. */
  lemma WithLocationFacts(items: seq<Json>)
    ensures WithLocation(items).None? <==> JNull in items
    ensures WithLocation(items).Some? ==>
      var r := WithLocation(items).value;
      && IsSubsequence(r, items)
      && (forall k :: 0 <= k < |r| ==> Located(r[k]))
      && (forall k :: 0 <= k < |items| && Located(items[k]) ==> items[k] in r)
  {
    FilterIsSubsequence(items, Located);
  }

  /** The three guards: a falsy input is still loading, a non-array or empty one has
      no incidents, and a list without a located incident shows the error. */
  lemma Guards(incidents: Option<Json>)
    ensures !TruthyOpt(incidents) ==> Render(incidents) == Some(Loading)
    ensures incidents.Some? && (incidents.value.JObj? || incidents.value == JArr([])) ==> Render(incidents) == Some(NoIncidents)
    ensures Render(incidents) == Some(NoLocations) <==>
      incidents.Some? && incidents.value.JArr? && incidents.value.items != [] && WithLocation(incidents.value.items) == Some([])
  {
  }

  /** The map is drawn only with located incidents, each normalised from one of the
      input's incidents, in order. */
  lemma MarkersAreNormalisedLocated(items: seq<Json>)
    requires Render(Some(JArr(items))).Some? && Render(Some(JArr(items))).value.Markers?
    ensures var valid := WithLocation(items).value;
      && Render(Some(JArr(items))).value.incidents == NormaliseAll(valid)
      && valid != [] && IsSubsequence(valid, items)
      && forall k :: 0 <= k < |valid| ==> Located(valid[k])
  {
    WithLocationFacts(items);
  }

  /** Normalising keeps every other field, converts the coordinates with `Number`,
      and leaves the rest of the location alone. */
  lemma NormaliseKeepsFields(i: Json)
    requires Located(i)
    ensures i.JObj? && Normalise(i).JObj?
    ensures var loc := i.fields["location"].fields;
      var n := Normalise(i).fields;
      && n.Keys == i.fields.Keys
      && (forall k :: k in i.fields && k != "location" ==> n[k] == i.fields[k])
      && n["location"] == JObj(loc["lat" := NumberValue(Some(loc["lat"]))]["lng" := NumberValue(Some(loc["lng"]))])
  {
  }
}
