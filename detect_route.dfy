/** `POST /detect/image`: forward an uploaded image to the AI server, score its
    answer, upload the image and store the incident. */
module DetectRoute {
  import opened Base
  import opened Js
  import opened Store

  /** `JSON.parse`, kept abstract: the parsed value, or `None` when it throws. */
  type JsonParser = string -> Option<Json>

  /** `parseJSON(value)`: text is parsed (`null` when that fails); anything else,
      `undefined` included, is returned unchanged. */
  function ParseJson(value: Option<Json>, parse: JsonParser): (r: Option<Json>)
    ensures !IsString(value) ==> r == value
    ensures IsString(value) && parse(value.value.s).Some? ==> r == parse(value.value.s)
    ensures IsString(value) && parse(value.value.s).None? ==> r == Some(JNull)
  {
    if IsString(value) then
      match parse(value.value.s)
      case Some(v) => Some(v)
      case None => Some(JNull)
    else value
  }

  /** The level bonus, after upper-casing. */
  function LevelBonus(level: string): int {
    if level == "CRITICAL" then 40
    else if level == "HIGH" then 25
    else if level == "MEDIUM" then 15
    else 0
  }

  /** `calculateThreatScore({confidence, threat_level})`. `None`: the level (after
      its `"LOW"` default for `undefined`) is not text, and `toUpperCase` throws.
      NaN when the confidence does not convert to a number. */
  function ThreatScore(confidence: Option<Json>, level: Option<Json>): (r: Option<Json>)
    ensures r.None? <==> level.Some? && !level.value.JStr?
    ensures r.Some? ==> (r.value.JNaN? <==> ToNumber(Some(confidence.GetOr(JNum(0.0)))).None?)
    ensures r.Some? && r.value.JNum? ==>
      var c := ToNumber(Some(confidence.GetOr(JNum(0.0)))).value;
      var b := LevelBonus(Upper(level.GetOr(JStr("LOW")).s));
      && r.value.n == Min(100, Round(c * 100.0) + b) as real
      && r.value.n <= 100.0
      && (Round(c * 100.0) + b <= 100 ==> r.value.n == (Round(c * 100.0) + b) as real)
  {
    var lv := level.GetOr(JStr("LOW"));
    if !lv.JStr? then None
    else match ToNumber(Some(confidence.GetOr(JNum(0.0))))
      case None => Some(JNaN)
      case Some(c) =>
        var score := Round(c * 100.0) + LevelBonus(Upper(lv.s));
        Some(JNum(Min(100, score) as real))
  }

  /** The bonus ignores the case of the level. */
  lemma BonusIgnoresCase(confidence: Option<Json>, level: string)
    ensures ThreatScore(confidence, Some(JStr(level))) == ThreatScore(confidence, Some(JStr(Upper(level))))
    ensures ThreatScore(confidence, Some(JStr(level))) == ThreatScore(confidence, Some(JStr(Lower(level))))
  {
    UpperOfLower(level);
  }

  /** The score has no lower clamp: a negative confidence gives a negative score. */
  lemma NoLowerClamp()
    ensures ThreatScore(Some(JNum(-0.5)), None) == Some(JNum(-50.0))
  {
    assert Upper("LOW") == "LOW";
    assert Round(-0.5 * 100.0) == -50;
  }

  /** A confident critical detection is capped at 100. */
  lemma CappedAtHundred()
    ensures ThreatScore(Some(JNum(0.9)), Some(JStr("critical"))) == Some(JNum(100.0))
  {
    assert Upper("critical") == "CRITICAL";
    assert Round(0.9 * 100.0) == 90;
  }

  /** The incident's `location`, from the parsed form field (or `{}`). A coordinate
      that is present, even `null`, goes through `Number`. */
  function Location(raw: Option<Json>): (r: Value)
    ensures r.Obj? && r.fields.Keys == {"cameraId", "name", "lat", "lng"}
    ensures r.fields["cameraId"] == Val(OrElse(Prop(raw, "cameraId"), JNull))
    ensures r.fields["name"] == Val(OrElse(Prop(raw, "name"), JStr("Unknown")))
    ensures Prop(raw, "lat").None? <==> r.fields["lat"] == Val(JNull)
    ensures Prop(raw, "lat").Some? ==> r.fields["lat"] == Val(NumberValue(Prop(raw, "lat")))
    ensures Prop(raw, "lng").None? <==> r.fields["lng"] == Val(JNull)
    ensures Prop(raw, "lng").Some? ==> r.fields["lng"] == Val(NumberValue(Prop(raw, "lng")))
  {
    Obj(map[
      "cameraId" := Val(OrElse(Prop(raw, "cameraId"), JNull)),
      "name" := Val(OrElse(Prop(raw, "name"), JStr("Unknown"))),
      "lat" := Val(if Prop(raw, "lat").Some? then NumberValue(Prop(raw, "lat")) else JNull),
      "lng" := Val(if Prop(raw, "lng").Some? then NumberValue(Prop(raw, "lng")) else JNull)])
  }

  /** `parseJSON(req.body.location) || {}`. */
  function RawLocation(field: Option<Json>, parse: JsonParser): Option<Json> {
    var p := ParseJson(field, parse);
    if TruthyOpt(p) then p else Some(JObj(map[]))
  }

  /** Unparsable location text gives every default. */
  lemma UnparsableLocationDefaults(text: string, parse: JsonParser)
    requires parse(text).None?
    ensures Location(RawLocation(Some(JStr(text)), parse))
      == Obj(map["cameraId" := Val(JNull), "name" := Val(JStr("Unknown")), "lat" := Val(JNull), "lng" := Val(JNull)])
  {
  }

  /** A destructured property of the AI answer, with its default for `undefined`. */
  function AiField(data: Option<Json>, key: string, default: Json): Json {
    var d := if TruthyOpt(data) then data else Some(JObj(map[]));
    Prop(d, key).GetOr(default)
  }

  /** The stored incident, from the AI answer `data`; `None` when scoring throws. */
  function IncidentData(data: Option<Json>, location: Value, imageUrl: string, now: int): (r: Option<StoredDoc>)
    ensures r.None? <==> ThreatScore(Some(AiField(data, "confidence", JNum(0.0))),
                                     Some(AiField(data, "threat_level", JStr("LOW")))).None?
  {
    var confidence := AiField(data, "confidence", JNum(0.0));
    var level := AiField(data, "threat_level", JStr("LOW"));
    match ThreatScore(Some(confidence), Some(level))
    case None => None
    case Some(score) =>
      Some(map[
        "crime_type" := Val(AiField(data, "type", JStr("UNKNOWN"))),
        "confidence" := Val(JNum(NumberOrZero(Some(confidence)))),
        "threat_level" := Val(level),
        "threat_score" := Val(score),
        "persons_detected" := Val(JNum(NumberOrZero(Some(AiField(data, "persons_detected", JNum(0.0)))))),
        "activities" := Val(AiField(data, "activities", JArr([]))),
        "signals" := Val(AiField(data, "signals", JArr([]))),
        "location" := location,
        "imageUrl" := Val(JStr(imageUrl)),
        "source" := Val(JStr("ai-image-detection")),
        "createdAt" := DateVal(Some(now)),
        "aiTimestamp" := Val(AiField(data, "timestamp", JNull))])
  }

  /** The stored incident holds exactly the twelve fields of the route. */
  lemma StoredIncidentKeys(data: Option<Json>, location: Value, imageUrl: string, now: int)
    requires IncidentData(data, location, imageUrl, now).Some?
    ensures IncidentData(data, location, imageUrl, now).value.Keys ==
      {"crime_type", "confidence", "threat_level", "threat_score", "persons_detected",
       "activities", "signals", "location", "imageUrl", "source", "createdAt", "aiTimestamp"}
  {
  }

  /** The answer's type, confidence and head count are stored with their defaults and
      numeric conversions. */
  lemma StoredIncidentFields(data: Option<Json>, location: Value, imageUrl: string, now: int)
    requires IncidentData(data, location, imageUrl, now).Some?
    ensures var d := IncidentData(data, location, imageUrl, now).value;
      && d["crime_type"] == Val(AiField(data, "type", JStr("UNKNOWN")))
      && d["confidence"] == Val(JNum(NumberOrZero(Some(AiField(data, "confidence", JNum(0.0))))))
      && d["persons_detected"] == Val(JNum(NumberOrZero(Some(AiField(data, "persons_detected", JNum(0.0))))))
  {
  }

  /** The source, location and times are the route's own, the AI's time kept apart. */
  lemma StoredIncidentOrigin(data: Option<Json>, location: Value, imageUrl: string, now: int)
    requires IncidentData(data, location, imageUrl, now).Some?
    ensures var d := IncidentData(data, location, imageUrl, now).value;
      && d["source"] == Val(JStr("ai-image-detection"))
      && d["location"] == location
      && d["createdAt"] == DateVal(Some(now))
      && d["aiTimestamp"] == Val(AiField(data, "timestamp", JNull))
  {
  }

  /** The outcomes of the external steps: whether a file came with the request, the
      AI server's `data` (`None`: the request fails), the image host's `secure_url`
      and the id the store assigns (`None`: that step fails). */
  datatype Environment = Environment(
    hasFile: bool, ai: Option<Option<Json>>, upload: Option<string>, saved: Option<string>)

  datatype Reply =
    | Created(incidentId: string, data: StoredDoc)
    | Error(status: int, message: string)

  /** What the route does: its reply, whether it called the AI server, and the
      record it saved. */
  datatype Effects = Effects(reply: Reply, aiCalled: bool, saved: Option<(string, StoredDoc)>)

  function Run(locationField: Option<Json>, parse: JsonParser, env: Environment, now: int): (e: Effects)
    ensures !env.hasFile ==> e == Effects(Error(400, "No image uploaded"), false, None)
    ensures e.reply.Created? <==> e.saved.Some?
    ensures e.saved.Some? ==> e.aiCalled && env.upload.Some? && e.saved.value.0 == e.reply.incidentId
    ensures env.hasFile && e.reply.Error? ==> e.reply == Error(500, "Crime detection failed")
    ensures e.reply.Created? ==>
      && env.ai.Some?
      && IncidentData(env.ai.value, Location(RawLocation(locationField, parse)), env.upload.value, now)
         == Some(e.reply.data)
  {
    if !env.hasFile then Effects(Error(400, "No image uploaded"), false, None)
    else
      var location := Location(RawLocation(locationField, parse));
      match env.ai
      case None => Effects(Error(500, "Crime detection failed"), true, None)
      case Some(data) =>
        var confidence := AiField(data, "confidence", JNum(0.0));
        var level := AiField(data, "threat_level", JStr("LOW"));
        if ThreatScore(Some(confidence), Some(level)).None? || env.upload.None? then
          Effects(Error(500, "Crime detection failed"), true, None)
        else
          var record := IncidentData(data, location, env.upload.value, now).value;
          match env.saved
          case None => Effects(Error(500, "Crime detection failed"), true, None)
          case Some(id) => Effects(Created(id, record), true, Some((id, record)))
  }

  /** The stored score is the AI answer's confidence and level, scored. */
  lemma StoredScore(locationField: Option<Json>, parse: JsonParser, env: Environment, now: int)
    requires Run(locationField, parse, env, now).reply.Created?
    ensures var d := Run(locationField, parse, env, now).reply.data;
      var data := env.ai.value;
      Some(d["threat_score"].json) == ThreatScore(Some(AiField(data, "confidence", JNum(0.0))),
                                                  Some(AiField(data, "threat_level", JStr("LOW"))))
  {
  }
}
