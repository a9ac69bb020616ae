/** `geocodeLocation`: a place name to coordinates through the geocoding service,
    with fallbacks that never throw. */
module Geocode {
  import opened Base
  import opened Js

  /** The result: a name and the two coordinates (`None` for `undefined`). */
  datatype Place = Place(name: Json, lat: Option<Json>, lng: Option<Json>)

  const UnknownLocation := "Unknown Location"

  /** `o.key` where reading it throws when `o` is `undefined` or `null`: the outer
      `None` is the throw. */
  function Access(o: Option<Json>, key: string): (r: Option<Option<Json>>)
    ensures r.None? <==> !IsPresent(o)
    ensures r.Some? ==> r.value == Prop(o, key)
  {
    if !IsPresent(o) then None else Some(Prop(o, key))
  }

  /** `!results.length`, and `results[0]` when there is a first result; `None` when
      reading `length` throws. A text result list has no `geometry` to read. */
  function FirstResult(results: Option<Json>): Option<(bool, Option<Json>)> {
    match results
    case None => None
    case Some(JNull) => None
    case Some(JArr(items)) => Some((|items| == 0, if |items| > 0 then Some(items[0]) else None))
    case Some(JStr(s)) => Some((s == "", Some(JNull)))
    case Some(JObj(m)) => Some((!TruthyOpt(Get(m, "length")), Get(m, "0")))
    case Some(_) => Some((true, None))
  }

  /** The success path after the status check: the first result's
      `geometry.location.lat` and `.lng`; `None` when one of those reads throws. */
  function Coordinates(first: Option<Json>): Option<(Option<Json>, Option<Json>)> {
    match Access(first, "geometry")
    case None => None
    case Some(geometry) =>
      match Access(geometry, "location")
      case None => None
      case Some(location) =>
        if !IsPresent(location) then None
        else Some((Prop(location, "lat"), Prop(location, "lng")))
  }

  /** The place reported when something throws. */
  function FailSafe(name: Option<Json>): Place {
    Place(OrElse(name, JStr(UnknownLocation)), Some(JNull), Some(JNull))
  }

  /** `geocodeLocation(name)` given the service's answer (`None`: the request
      fails). `requested` says whether the service was asked. */
  function GeocodeLocation(name: Option<Json>, response: Option<Json>): (r: (Place, bool))
    ensures !TruthyOpt(name) ==> r == (Place(JStr(UnknownLocation), Some(JNull), Some(JNull)), false)
    ensures IsString(name) && Trim(name.value.s) == "" ==>
              r == (Place(JStr(UnknownLocation), Some(JNull), Some(JNull)), false)
    ensures r.1 ==> IsString(name) && Trim(name.value.s) != ""
    ensures r.1 && response.None? ==> r.0 == FailSafe(name)
    ensures r.1 ==> r.0.name == name.value
  {
    if !TruthyOpt(name) then (Place(JStr(UnknownLocation), Some(JNull), Some(JNull)), false)
    else if !name.value.JStr? then (FailSafe(name), false)   // `trim` is not a function
    else if Trim(name.value.s) == "" then (Place(JStr(UnknownLocation), Some(JNull), Some(JNull)), false)
    else
      var noCoordinates := (Place(name.value, Some(JNull), Some(JNull)), true);
      match response
      case None => (FailSafe(name), true)
      case Some(data) =>
        if data == JNull then (FailSafe(name), true)
        else if Prop(response, "status") != Some(JStr("OK")) then noCoordinates
        else match FirstResult(Prop(response, "results"))
          case None => (FailSafe(name), true)
          case Some((empty, first)) =>
            if empty then noCoordinates
            else match Coordinates(first)
              case None => (FailSafe(name), true)
              case Some((lat, lng)) => (Place(name.value, lat, lng), true)
  }

  /** Only whitespace trims to nothing. */
  lemma {:induction false} TrimEmptyIffBlank(s: string)
    ensures Trim(s) == "" <==> IsBlank(s)
  {
    TrimStartBlank(s);
    TrimEndEmpty(TrimStart(s));
  }

  lemma {:induction false} TrimStartBlank(s: string)
    ensures TrimStart(s) == "" <==> IsBlank(s)
    ensures |TrimStart(s)| > 0 ==> !IsSpace(TrimStart(s)[0])
    decreases |s|
  {
    if |s| > 0 && IsSpace(s[0]) {
      TrimStartBlank(s[1..]);
      if IsBlank(s[1..]) {
        forall i | 0 <= i < |s| ensures IsSpace(s[i]) {
          if i > 0 { assert s[i] == s[1..][i - 1]; }
        }
      }
      if IsBlank(s) {
        forall i | 0 <= i < |s[1..]| ensures IsSpace(s[1..][i]) {
          assert s[1..][i] == s[i + 1];
        }
      }
    }
  }

  lemma {:induction false} TrimEndEmpty(s: string)
    requires |s| > 0 ==> !IsSpace(s[0])
    ensures TrimEnd(s) == "" <==> s == ""
    decreases |s|
  {
    if |s| > 0 && IsSpace(s[|s| - 1]) {
      assert |s| > 1;
      TrimEndEmpty(s[..|s| - 1]);
    }
  }

  /** A whitespace-only name gives the unknown location without a request. */
  lemma BlankNameNoRequest(s: string, response: Option<Json>)
    requires s != "" && IsBlank(s)
    ensures GeocodeLocation(Some(JStr(s)), response) == (Place(JStr(UnknownLocation), Some(JNull), Some(JNull)), false)
  {
    TrimEmptyIffBlank(s);
  }

  /** A status other than `OK`, or an empty result list, gives the name without
      coordinates. */
  lemma NoResultKeepsName(s: string, data: map<string, Json>)
    requires !IsBlank(s)
    requires Get(data, "status") != Some(JStr("OK")) || Get(data, "results") == Some(JArr([]))
    ensures GeocodeLocation(Some(JStr(s)), Some(JObj(data))) == (Place(JStr(s), Some(JNull), Some(JNull)), true)
  {
    TrimEmptyIffBlank(s);
  }

  /** A successful answer gives the first result's coordinates under the input name. */
  lemma FirstResultWins(s: string, lat: Json, lng: Json, rest: seq<Json>)
    requires !IsBlank(s)
    ensures
      var first := JObj(map["geometry" := JObj(map["location" := JObj(map["lat" := lat, "lng" := lng])])]);
      var data := JObj(map["status" := JStr("OK"), "results" := JArr([first] + rest)]);
      GeocodeLocation(Some(JStr(s)), Some(data)) == (Place(JStr(s), Some(lat), Some(lng)), true)
  {
    TrimEmptyIffBlank(s);
  }
}
