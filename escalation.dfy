/** The incident auto-escalation trigger: on every write to an incident document, a
    `warning` incident that is old enough, confident enough or confirmed enough is
    raised to `critical` by one update. */
module Escalation {
  import opened Base
  import opened Js
  import opened Store

  /** An incident document. */
  type Incident = StoredDoc

  /** Date parsing of text, kept abstract: the milliseconds, or `None` for NaN. */
  type DateParser = string -> Option<int>

  /** `normalizeSeverity(v)`: `(v || "").toLowerCase()`. A truthy value that is not
      text has no `toLowerCase`, so the call throws: `None`. */
  function NormalizeSeverity(v: Option<Value>): (r: Option<string>)
    ensures !TruthyValue(v) ==> r == Some("")
    ensures v.Some? && v.value.Val? && v.value.json.JStr? ==> r == Some(Lower(v.value.json.s))
    ensures r.None? <==> TruthyValue(v) && !(v.value.Val? && v.value.json.JStr?)
  {
    if !TruthyValue(v) then assert |Lower("")| == 0; Some("")
    else match v.value
      case Val(JStr(s)) => Some(Lower(s))
      case _ => None
  }

  /** The severity a lower-cased threat level stands for. */
  function LevelSeverity(level: string): (r: string)
    ensures r in {"critical", "warning", "info", ""}
    ensures r == "" <==> level !in {"critical", "high", "medium", "low"}
  {
    if level == "critical" then "critical"
    else if level == "high" || level == "medium" then "warning"
    else if level == "low" then "info"
    else ""
  }

  /** `resolveSeverity(incident)`; `None` when normalising a field throws. */
  function ResolveSeverity(inc: Incident): (r: Option<string>)
    ensures r.Some? ==> Lower(r.value) == r.value
  {
    match NormalizeSeverity(Field(inc, "severity"))
    case None => None
    case Some(explicit) =>
      if explicit != "" then Some(explicit)
      else match NormalizeSeverity(Field(inc, "threat_level"))
        case None => None
        case Some(level) => Some(LevelSeverity(level))
  }

  /** The outcome of `getTimeMs`: `null`, NaN, or a number of milliseconds. */
  datatype Millis = NullMs | NaNMs | Ms(ms: int)

  /** The largest magnitude of a JavaScript time value (section 21.4.1.1 of ECMA-262). */
  const MaxTimeValue: real := 8640000000000000.0

  /** Conversion toward zero, as `new Date(n)` applies to a finite number. */
  function Truncate(x: real): (r: int)
    ensures Abs(r as real) <= Abs(x) < Abs(r as real) + 1.0
    ensures x >= 0.0 ==> r >= 0
    ensures x <= 0.0 ==> r <= 0
  {
    if x >= 0.0 then x.Floor else -((-x).Floor)
  }

  /** `getTimeMs(v)`. */
  function GetTimeMs(v: Option<Value>, parse: DateParser): (r: Millis)
    ensures !TruthyValue(v) ==> r == NullMs
    ensures r == NaNMs ==> v.Some? && v.value == DateVal(None)
    ensures v.Some? && v.value.Stamp? ==> r == Ms(v.value.millis)
  {
    if !TruthyValue(v) then NullMs
    else match v.value
      case Stamp(m) => Ms(m)
      case DateVal(t) => if t.Some? then Ms(t.value) else NaNMs
      case Val(JStr(s)) => if parse(s).Some? then Ms(parse(s).value) else NullMs
      case Val(JNum(n)) => if Abs(n) <= MaxTimeValue then Ms(Truncate(n)) else NullMs
      case Val(_) => NullMs
      case Obj(_) => NullMs
  }

  /** `!createdAtMs` is false: neither `null`, NaN nor epoch 0. */
  predicate Usable(m: Millis) {
    m.Ms? && m.ms != 0
  }

  /** The creation time the rule looks at: `createdAt || timestamp`. */
  function CreatedMs(inc: Incident, parse: DateParser): Millis {
    var t := Field(inc, "timestamp");
    GetTimeMs(if TruthyValue(Field(inc, "createdAt")) then Field(inc, "createdAt") else t, parse)
  }

  /** `Number(v)` for a field; a store timestamp converts to NaN here. */
  function FieldNumber(v: Option<Value>): Option<real> {
    match v
    case None => ToNumber(None)
    case Some(Val(j)) => ToNumber(Some(j))
    case Some(DateVal(t)) => if t.Some? then Some(t.value as real) else None
    case Some(Stamp(_)) => None
    case Some(Obj(_)) => None
  }

  /** `Number(v || 0) > bound`, false for NaN. */
  predicate NumberAbove(v: Option<Value>, bound: real) {
    var n := FieldNumber(Some(OrValue(v, Val(JNum(0.0)))));
    n.Some? && n.value > bound
  }

  /** `Number(v || 0) >= bound`, false for NaN. */
  predicate NumberAtLeast(v: Option<Value>, bound: real) {
    var n := FieldNumber(Some(OrValue(v, Val(JNum(0.0)))));
    n.Some? && n.value >= bound
  }

  /** `shouldEscalate(incident)` at time `now`; `None` when resolving the severity
      throws. The age is `(now - created) / 60000` minutes. */
  function ShouldEscalate(inc: Incident, now: int, parse: DateParser): (r: Option<bool>)
    ensures !Usable(CreatedMs(inc, parse)) ==> r == Some(false)
    ensures r == Some(true) ==> ResolveSeverity(inc) == Some("warning")
  {
    var created := CreatedMs(inc, parse);
    if !Usable(created) then Some(false)
    else
      var ageMin := (now - created.ms) as real / 60000.0;
      match ResolveSeverity(inc)
      case None => None
      case Some(sev) =>
        Some(sev == "warning"
             && (ageMin > 10.0
                 || NumberAbove(Field(inc, "confidence"), 0.85)
                 || NumberAtLeast(Field(inc, "confirmations"), 2.0)))
  }

  /** A field of a document update: a value, or the store's commit time. */
  datatype UpdateValue = SetTo(v: Json) | ServerTimestamp

  /** The one update the trigger issues. */
  const EscalationUpdate: map<string, UpdateValue> :=
    map["severity" := SetTo(JStr("critical")),
        "escalatedAt" := ServerTimestamp,
        "escalationReason" := SetTo(JStr("AUTO_RULE")),
        "updatedAt" := ServerTimestamp]

  /** What `update` does to a document committed at `commitMs`: the named fields
      are set, every other field is kept as it was. */
  function ApplyUpdate(inc: Incident, upd: map<string, UpdateValue>, commitMs: int): (r: Incident)
    ensures r.Keys == inc.Keys + upd.Keys
    ensures forall k :: k in upd ==> r[k] == (if upd[k].SetTo? then Val(upd[k].v) else Stamp(commitMs))
    ensures forall k :: k in inc && k !in upd ==> r[k] == inc[k]
  {
    map k | k in inc.Keys + upd.Keys ::
      if k in upd then (if upd[k].SetTo? then Val(upd[k].v) else Stamp(commitMs)) else inc[k]
  }

  /** What the trigger does with one write event. */
  datatype Outcome =
    | NoWrite
    | Update(fields: map<string, UpdateValue>)
    | Throws   // normalising a severity or threat level that is not text

  /** `autoEscalateIncident` for the document after the write (`None` when it was
      deleted) at time `now`. */
  function AutoEscalate(after: Option<Incident>, now: int, parse: DateParser): (r: Outcome)
    ensures after.None? ==> r == NoWrite
    ensures r.Update? ==> r.fields == EscalationUpdate
    ensures r.Throws? <==> after.Some? && ResolveSeverity(after.value).None?
  {
    if after.None? then NoWrite
    else
      var inc := after.value;
      match ResolveSeverity(inc)
      case None => Throws
      case Some(severity) =>
        if severity != "warning" then NoWrite
        else if TruthyValue(Field(inc, "escalatedAt")) then NoWrite
        else if ShouldEscalate(inc, now, parse) != Some(true) then NoWrite
        else Update(EscalationUpdate)
  }

  // ----- properties -----

  /** A non-empty explicit severity is used lower-cased, whatever the threat level. */
  lemma ExplicitSeverityWins(inc: Incident, s: string)
    requires "severity" in inc && inc["severity"] == Val(JStr(s)) && s != ""
    ensures ResolveSeverity(inc) == Some(Lower(s))
  {
    assert |Lower(s)| == |s|;
  }

  /** Without an explicit severity, the threat level decides, ignoring case. */
  lemma LevelDecides(inc: Incident, level: string)
    requires !TruthyValue(Field(inc, "severity"))
    requires "threat_level" in inc && inc["threat_level"] == Val(JStr(level))
    ensures ResolveSeverity(inc) == Some(LevelSeverity(Lower(level)))
    ensures ResolveSeverity(inc) == ResolveSeverity(inc["threat_level" := Val(JStr(Upper(level)))])
    ensures ResolveSeverity(inc) == ResolveSeverity(inc["threat_level" := Val(JStr(Lower(level)))])
  {
    LowerOfUpper(level);
    assert Field(inc["threat_level" := Val(JStr(Upper(level)))], "severity") == Field(inc, "severity");
    assert Field(inc["threat_level" := Val(JStr(Lower(level)))], "severity") == Field(inc, "severity");
  }

  /** The level table, on the spellings the system writes. */
  lemma LevelTable()
    ensures LevelSeverity(Lower("CRITICAL")) == "critical"
    ensures LevelSeverity(Lower("HIGH")) == "warning"
    ensures LevelSeverity(Lower("Medium")) == "warning"
    ensures LevelSeverity(Lower("LOW")) == "info"
    ensures LevelSeverity(Lower("UNKNOWN")) == ""
  {
    assert Lower("CRITICAL") == "critical";
    assert Lower("HIGH") == "high";
    assert Lower("Medium") == "medium";
    assert Lower("LOW") == "low";
  }

  /** Missing times, unparsable text, an invalid `Date` and epoch 0 never give a usable
      creation time. */
  lemma NoUsableTime(inc: Incident, parse: DateParser)
    requires !TruthyValue(Field(inc, "createdAt"))
    requires !TruthyValue(Field(inc, "timestamp"))
             || Field(inc, "timestamp") == Some(Stamp(0))
             || Field(inc, "timestamp") == Some(DateVal(None))
             || (Field(inc, "timestamp").Some? && Field(inc, "timestamp").value.Val?
                 && Field(inc, "timestamp").value.json.JStr?
                 && parse(Field(inc, "timestamp").value.json.s).None?)
    ensures ShouldEscalate(inc, 0, parse) == Some(false)
    ensures forall now :: ShouldEscalate(inc, now, parse) == Some(false)
  {
  }

  /** The escalation predicate, stated outright: a usable creation time, a `warning`
      severity, and one of age over ten minutes, confidence over 0.85, or at least
      two confirmations (missing or NaN numbers counting as 0). */
  lemma ShouldEscalateIff(inc: Incident, now: int, parse: DateParser)
    ensures ShouldEscalate(inc, now, parse) == Some(true) <==>
      Usable(CreatedMs(inc, parse))
      && ResolveSeverity(inc) == Some("warning")
      && (now - CreatedMs(inc, parse).ms > 600000
          || NumberAbove(Field(inc, "confidence"), 0.85)
          || NumberAtLeast(Field(inc, "confirmations"), 2.0))
  {
    var created := CreatedMs(inc, parse);
    if Usable(created) {
      var d := now - created.ms;
      assert (d as real / 60000.0 > 10.0) <==> d > 600000;
    }
  }

  /** The trigger writes nothing for a deleted document, a non-warning incident,
      or one already escalated. */
  lemma NoWriteCases(after: Option<Incident>, now: int, parse: DateParser)
    requires after.None?
             || (ResolveSeverity(after.value).Some? && ResolveSeverity(after.value) != Some("warning"))
             || (ResolveSeverity(after.value).Some? && TruthyValue(Field(after.value, "escalatedAt")))
    ensures AutoEscalate(after, now, parse) == NoWrite
  {
  }

  /** The trigger writes iff the incident is a `warning` not yet escalated that the
      escalation predicate selects. */
  lemma UpdateIff(inc: Incident, now: int, parse: DateParser)
    ensures AutoEscalate(Some(inc), now, parse).Update? <==>
      ResolveSeverity(inc) == Some("warning")
      && !TruthyValue(Field(inc, "escalatedAt"))
      && ShouldEscalate(inc, now, parse) == Some(true)
  {
  }

  /** The written document: severity `critical`, the escalation stamp, the reason
      `AUTO_RULE` and a new `updatedAt`; every other field as before. */
  lemma UpdateContents(inc: Incident, commitMs: int)
    ensures var r := ApplyUpdate(inc, EscalationUpdate, commitMs);
      && r.Keys == inc.Keys + {"severity", "escalatedAt", "escalationReason", "updatedAt"}
      && r["severity"] == Val(JStr("critical"))
      && r["escalatedAt"] == Stamp(commitMs)
      && r["escalationReason"] == Val(JStr("AUTO_RULE"))
      && r["updatedAt"] == Stamp(commitMs)
      && (forall k :: k in inc && k !in {"severity", "escalatedAt", "escalationReason", "updatedAt"} ==> r[k] == inc[k])
  {
  }

  /** An escalated document resolves to `critical`. */
  lemma EscalatedIsCritical(inc: Incident, commitMs: int)
    ensures ResolveSeverity(ApplyUpdate(inc, EscalationUpdate, commitMs)) == Some("critical")
  {
    var r := ApplyUpdate(inc, EscalationUpdate, commitMs);
    assert Field(r, "severity") == Some(Val(JStr("critical")));
    assert Lower("critical") == "critical";
  }

  /** Idempotence: the write caused by the trigger's own update triggers nothing. */
  lemma Idempotent(inc: Incident, now: int, commitMs: int, later: int, parse: DateParser)
    requires AutoEscalate(Some(inc), now, parse).Update?
    ensures AutoEscalate(Some(ApplyUpdate(inc, EscalationUpdate, commitMs)), later, parse) == NoWrite
  {
    EscalatedIsCritical(inc, commitMs);
  }

  /** Severity only ever moves from `warning` to `critical`. */
  lemma OnlyWarningToCritical(inc: Incident, now: int, commitMs: int, parse: DateParser)
    requires AutoEscalate(Some(inc), now, parse).Update?
    ensures ResolveSeverity(inc) == Some("warning")
    ensures ResolveSeverity(ApplyUpdate(inc, EscalationUpdate, commitMs)) == Some("critical")
  {
    EscalatedIsCritical(inc, commitMs);
  }

  /** A `low` incident with no explicit severity is never escalated, whatever its age,
      confidence or confirmations. */
  lemma LowNeverEscalated(inc: Incident, level: string, now: int, parse: DateParser)
    requires !TruthyValue(Field(inc, "severity"))
    requires "threat_level" in inc && inc["threat_level"] == Val(JStr(level)) && Lower(level) == "low"
    ensures AutoEscalate(Some(inc), now, parse) == NoWrite
  {
    LevelDecides(inc, level);
  }

  /** A fresh `HIGH` detection with confidence 0.9 is escalated at once. */
  lemma HighConfidentEscalates(created: int, parse: DateParser)
    requires created != 0
    ensures
      var inc := map["threat_level" := Val(JStr("HIGH")), "confidence" := Val(JNum(0.9)),
                     "createdAt" := Stamp(created)];
      AutoEscalate(Some(inc), created, parse) == Update(EscalationUpdate)
  {
    var inc := map["threat_level" := Val(JStr("HIGH")), "confidence" := Val(JNum(0.9)),
                   "createdAt" := Stamp(created)];
    assert Field(inc, "severity") == None;
    assert Lower("HIGH") == "high";
    assert ResolveSeverity(inc) == Some("warning");
    assert NumberAbove(Field(inc, "confidence"), 0.85);
  }
}
