/** The marker icon for an incident: by threat level first, by crime type second. */
module LeafletIcons {
  import opened Base
  import opened Js

  /** The entries of the two icon tables. */
  datatype Icon = Low | Medium | High | Critical | Theft | Assault | Burglary | Vandalism | Traffic | Pin

  predicate IsThreatIcon(i: Icon) {
    i == Low || i == Medium || i == High || i == Critical
  }

  /** `threatIcons[level] || threatIcons.LOW`. */
  function ThreatIcon(level: string): (r: Icon)
    ensures IsThreatIcon(r)
    ensures level !in {"LOW", "MEDIUM", "HIGH", "CRITICAL"} ==> r == Low
  {
    match level
    case "MEDIUM" => Medium
    case "HIGH" => High
    case "CRITICAL" => Critical
    case _ => Low
  }

  /** `crimeTypeIcons[type] || crimeTypeIcons.default`. */
  function TypeIcon(crimeType: string): (r: Icon)
    ensures !IsThreatIcon(r)
    ensures crimeType !in {"theft", "assault", "burglary", "vandalism", "traffic"} ==> r == Pin
  {
    match crimeType
    case "theft" => Theft
    case "assault" => Assault
    case "burglary" => Burglary
    case "vandalism" => Vandalism
    case "traffic" => Traffic
    case _ => Pin
  }

  /** `getIncidentIcon(incident)` for an incident with the given `threat_level` and
      `crime_type`; `None` when the field consulted is truthy but not text, so that
      `toUpperCase` or `toLowerCase` throws. */
  function IncidentIcon(level: Option<Json>, crimeType: Option<Json>): (r: Option<Icon>)
    ensures r.None? <==>
      (TruthyOpt(level) && !level.value.JStr?) || (!TruthyOpt(level) && TruthyOpt(crimeType) && !crimeType.value.JStr?)
    ensures r.Some? ==> (IsThreatIcon(r.value) <==> TruthyOpt(level))
    ensures !TruthyOpt(level) && !TruthyOpt(crimeType) ==> r == Some(Pin)
  {
    if TruthyOpt(level) then
      if level.value.JStr? then Some(ThreatIcon(Upper(level.value.s))) else None
    else if TruthyOpt(crimeType) then
      if crimeType.value.JStr? then Some(TypeIcon(Lower(crimeType.value.s))) else None
    else Some(Pin)
  }

  /** A threat icon is chosen exactly when the level is truthy; then the crime type
      is never consulted. */
  lemma LevelTakesPrecedence(level: Option<Json>, crimeType: Option<Json>, other: Option<Json>)
    ensures var r := IncidentIcon(level, crimeType);
      r.Some? ==> (IsThreatIcon(r.value) <==> TruthyOpt(level))
    ensures TruthyOpt(level) ==> IncidentIcon(level, crimeType) == IncidentIcon(level, other)
  {
  }

  /** The level is matched in any case, and an unknown level gets the LOW icon. */
  lemma LevelIgnoresCase(s: string, crimeType: Option<Json>)
    requires s != ""
    ensures IncidentIcon(Some(JStr(Lower(s))), crimeType) == IncidentIcon(Some(JStr(s)), crimeType)
    ensures Upper(s) !in {"LOW", "MEDIUM", "HIGH", "CRITICAL"} ==> IncidentIcon(Some(JStr(s)), crimeType) == Some(Low)
  {
    UpperOfLower(s);
  }

  /** Without a level, the type is matched in any case, and an unknown type gets the
      default pin; with neither field the pin is used. */
  lemma TypeWithoutLevel(level: Option<Json>, s: string)
    requires !TruthyOpt(level) && s != ""
    ensures IncidentIcon(level, Some(JStr(Upper(s)))) == IncidentIcon(level, Some(JStr(s)))
    ensures Lower(s) !in {"theft", "assault", "burglary", "vandalism", "traffic"} ==> IncidentIcon(level, Some(JStr(s))) == Some(Pin)
    ensures IncidentIcon(level, None) == Some(Pin) && IncidentIcon(level, Some(JStr(""))) == Some(Pin)
  {
    LowerOfUpper(s);
  }

  /** A truthy non-text field throws; nothing else does. */
  lemma ThrowsOnlyOnNonText(level: Option<Json>, crimeType: Option<Json>)
    ensures IncidentIcon(level, crimeType).None? <==>
      (TruthyOpt(level) && !level.value.JStr?) || (!TruthyOpt(level) && TruthyOpt(crimeType) && !crimeType.value.JStr?)
  {
  }
}
