/** The operator's image-detection page: the file checks, the submit guard, and
    how the saved detection is scored, classified and coloured for display. */
module DetectImagePage {
  import opened Base
  import opened Js

  /** `data.threat_level?.toUpperCase() || "LOW"`; `None` when it throws. */
  function LevelOrLow(v: Option<Json>): (r: Option<string>)
    ensures r.None? <==> UpperOf(v).None?
    ensures r.Some? ==> r.value != ""
    ensures IsString(v) && v.value.s != "" ==> r == Some(Upper(v.value.s))
  {
    match UpperOf(v)
    case None => None
    case Some(None) => Some("LOW")
    case Some(Some(s)) => Some(if s == "" then "LOW" else s)
  }

  // ----- calculateThreatScore -----

  function LevelBonus(level: string): int {
    if level == "CRITICAL" then 40 else if level == "HIGH" then 25 else if level == "MEDIUM" then 15 else 0
  }

  predicate Capped(level: string) {
    level == "CRITICAL" || level == "HIGH" || level == "MEDIUM"
  }

  /** `calculateThreatScore(data)`; `None` when it throws. */
  function ThreatScore(data: Doc): (r: Option<Json>)
    ensures "threat_score" in data ==> r == Some(data["threat_score"])
    ensures "threat_score" !in data ==>
      (r.None? <==> LevelOrLow(Get(data, "threat_level")).None?)
    ensures "threat_score" !in data && r.Some? ==>
      var level := LevelOrLow(Get(data, "threat_level")).value;
      match ToNumber(Some(OrElse(Get(data, "confidence"), JNum(0.0))))
      case None => r == Some(JNaN)
      case Some(c) =>
        && (Capped(level) ==> r == Some(JNum(Min(100, Round(c * 100.0) + LevelBonus(level)) as real)))
        && (!Capped(level) ==> r == Some(JNum(Round(c * 100.0) as real)))
  {
    if "threat_score" in data then Some(data["threat_score"])
    else
      var base := ToNumber(Some(OrElse(Get(data, "confidence"), JNum(0.0))));
      match LevelOrLow(Get(data, "threat_level"))
      case None => None
      case Some(level) =>
        match base
        case None => Some(JNaN)
        case Some(c) =>
          var b := Round(c * 100.0);
          Some(JNum(if Capped(level) then Min(100, b + LevelBonus(level)) as real else b as real))
  }

  /** A supplied score is passed on as it is, even when it is out of range. */
  lemma SuppliedScoreKept(data: Doc, score: Json)
    ensures ThreatScore(data["threat_score" := score]) == Some(score)
  {
  }

  /** Only the raised levels are capped at 100: a low-level detection with a
      confidence above 1 scores above 100. */
  lemma LowIsNotCapped()
    ensures ThreatScore(map["confidence" := JNum(1.5), "threat_level" := JStr("low")]) == Some(JNum(150.0))
    ensures ThreatScore(map["confidence" := JNum(1.5), "threat_level" := JStr("high")]) == Some(JNum(100.0))
  {
    assert Upper("low") == "LOW";
    assert Upper("high") == "HIGH";
    assert Round(1.5 * 100.0) == 150;
  }

  /** The level is read in any case. */
  lemma ScoreLevelIgnoresCase(data: Doc, level: string)
    requires "threat_score" !in data
    ensures ThreatScore(data["threat_level" := JStr(level)]) == ThreatScore(data["threat_level" := JStr(Upper(level))])
  {
    UpperOfLower(level);
    var a, b := data["threat_level" := JStr(level)], data["threat_level" := JStr(Upper(level))];
    assert Get(a, "confidence") == Get(b, "confidence");
    assert |Upper(level)| == |level|;
  }

  // ----- determineCrimeStatus -----

  const SeriousCrimes: seq<string> := ["KIDNAPPING", "ABDUCTION", "ASSAULT", "ROBBERY", "FIGHT"]

  /** `seriousCrimes.some(crime => text.toUpperCase().includes(crime))`. */
  predicate IsSerious(text: string) {
    exists i :: 0 <= i < |SeriousCrimes| && Contains(Upper(text), SeriousCrimes[i])
  }

  /** `determineCrimeStatus(data)`; `None` when it throws. */
  function CrimeStatus(data: Doc): (r: Option<Json>)
    ensures "crime_detected" in data ==> r == Some(data["crime_detected"])
    ensures "crime_detected" !in data ==>
      var crimeType := OrElse(Get(data, "crime_type"), OrElse(Get(data, "type"), JStr("")));
      (r.None? <==> LevelOrLow(Get(data, "threat_level")).None? || !crimeType.JStr?)
      && (r.Some? ==>
        var level := LevelOrLow(Get(data, "threat_level")).value;
        var c := ToNumber(Some(OrElse(Get(data, "confidence"), JNum(0.0))));
        r.value == JBool(IsSerious(crimeType.s) || level == "HIGH" || level == "CRITICAL" || (c.Some? && c.value > 0.7)))
  {
    if "crime_detected" in data then Some(data["crime_detected"])
    else
      match LevelOrLow(Get(data, "threat_level"))
      case None => None
      case Some(level) =>
        var crimeType := OrElse(Get(data, "crime_type"), OrElse(Get(data, "type"), JStr("")));
        if !crimeType.JStr? then None
        else
          var c := ToNumber(Some(OrElse(Get(data, "confidence"), JNum(0.0))));
          Some(JBool(IsSerious(crimeType.s) || level == "HIGH" || level == "CRITICAL" || (c.Some? && c.value > 0.7)))
  }

  /** The keyword test ignores case and finds a keyword anywhere: a lower-case
      `"attempted robbery"` counts. */
  lemma KeywordAnywhere(data: Doc)
    requires "crime_detected" !in data && "threat_level" !in data && "confidence" !in data
    requires Get(data, "crime_type") == Some(JStr("attempted robbery"))
    ensures CrimeStatus(data) == Some(JBool(true))
  {
    var text := "attempted robbery";
    var u := Upper(text);
    assert text[10..] == "robbery";
    assert u[10..] == Upper("robbery") by {
      forall k | 0 <= k < 7 ensures u[10..][k] == Upper("robbery")[k] {
        assert text[10 + k] == "robbery"[k];
      }
    }
    assert Upper("robbery") == "ROBBERY";
    assert u[10..17] == u[10..];
    assert OccursAt(u, "ROBBERY", 10);
    ContainsIff(u, "ROBBERY");
    assert SeriousCrimes[3] == "ROBBERY";
  }

  /** With no type, level or confidence, nothing is detected. */
  lemma NothingDetected(data: Doc)
    requires "crime_detected" !in data && "threat_level" !in data && "confidence" !in data
    requires "crime_type" !in data && "type" !in data
    ensures CrimeStatus(data) == Some(JBool(false))
  {
    assert Upper("") == "";
    forall i | 0 <= i < |SeriousCrimes| ensures !Contains("", SeriousCrimes[i]) {
      ContainsIff("", SeriousCrimes[i]);
    }
  }

  // ----- getCrimeTypeDisplay -----

  /** `getCrimeTypeDisplay(data)`; `None` when it throws. */
  function CrimeTypeDisplay(data: Doc): (r: Option<Json>)
    ensures TruthyOpt(Get(data, "crime_type")) ==> r == Get(data, "crime_type")
    ensures !TruthyOpt(Get(data, "crime_type")) && TruthyOpt(Get(data, "type")) ==> r == Get(data, "type")
    ensures !TruthyOpt(Get(data, "crime_type")) && !TruthyOpt(Get(data, "type")) ==>
      && (!TruthyOpt(Get(data, "crime_detected")) ==> r == Some(JStr("Normal Activity")))
      && (TruthyOpt(Get(data, "crime_detected")) ==>
           match UpperOf(Get(data, "threat_level"))
           case None => r.None?
           case Some(level) =>
             r == Some(JStr(if level == Some("CRITICAL") || level == Some("HIGH") then "Violent Activity"
                            else "Suspicious Activity")))
  {
    if TruthyOpt(Get(data, "crime_type")) then Get(data, "crime_type")
    else if TruthyOpt(Get(data, "type")) then Get(data, "type")
    else if TruthyOpt(Get(data, "crime_detected")) then
      match UpperOf(Get(data, "threat_level"))
      case None => None
      case Some(level) =>
        Some(JStr(if level == Some("CRITICAL") || level == Some("HIGH") then "Violent Activity" else "Suspicious Activity"))
    else Some(JStr("Normal Activity"))
  }

  /** Every answer is text when the type fields are text or absent. */
  lemma DisplayIsText(data: Doc)
    requires Get(data, "crime_type").None? || IsString(Get(data, "crime_type"))
    requires Get(data, "type").None? || IsString(Get(data, "type"))
    requires UpperOf(Get(data, "threat_level")).Some?
    ensures CrimeTypeDisplay(data).Some? && CrimeTypeDisplay(data).value.JStr?
  {
  }

  // ----- the colour maps -----

  /** `getThreatColor(level)` and `getThreatBgColor(level)`; `None` when the level is
      a non-text value and `toUpperCase` throws. */
  function ThreatColor(level: Option<Json>): (r: Option<string>)
    ensures UpperOf(level) == Some(None) ==> r == Some("text-gray-600")
  {
    match UpperOf(level)
    case None => None
    case Some(u) =>
      Some(if u == Some("CRITICAL") then "text-red-700"
           else if u == Some("HIGH") then "text-red-600"
           else if u == Some("MEDIUM") then "text-orange-600"
           else if u == Some("LOW") then "text-yellow-600"
           else "text-gray-600")
  }

  function ThreatBgColor(level: Option<Json>): (r: Option<string>)
    ensures UpperOf(level) == Some(None) ==> r == Some("bg-gray-50")
  {
    match UpperOf(level)
    case None => None
    case Some(u) =>
      Some(if u == Some("CRITICAL") then "bg-red-100"
           else if u == Some("HIGH") then "bg-red-50"
           else if u == Some("MEDIUM") then "bg-orange-50"
           else if u == Some("LOW") then "bg-yellow-50"
           else "bg-gray-50")
  }

  /** The colours ignore case, and a level outside the four gets gray. */
  lemma ColoursIgnoreCase(level: string)
    ensures ThreatColor(Some(JStr(level))) == ThreatColor(Some(JStr(Lower(level))))
    ensures ThreatBgColor(Some(JStr(level))) == ThreatBgColor(Some(JStr(Lower(level))))
    ensures Upper(level) !in {"CRITICAL", "HIGH", "MEDIUM", "LOW"} ==>
      ThreatColor(Some(JStr(level))) == Some("text-gray-600") && ThreatBgColor(Some(JStr(level))) == Some("bg-gray-50")
  {
    UpperOfLower(level);
  }

  // ----- page state -----

  /** The chosen file, as the browser describes it. */
  datatype File = File(name: string, size: nat, mimeType: string)

  const MaxBytes := 16 * 1024 * 1024
  const ValidTypes: seq<string> := ["image/jpeg", "image/png", "image/jpg", "image/bmp"]
  const TooLarge := "File size too large. Max 16MB allowed."
  const BadType := "Invalid file type. Please upload JPEG, PNG, or BMP images."

  /** The detection the page keeps in `result`: the saved record with its
      confidence and person count as numbers, and its score and crime status
      recomputed; `None` when that throws. */
  function Processed(data: Doc): (r: Option<Doc>)
    ensures r.Some? <==> ThreatScore(data).Some? && CrimeStatus(data).Some?
    ensures r.Some? ==>
      && r.value.Keys == data.Keys + {"confidence", "persons_detected", "threat_score", "crime_detected"}
      && r.value["confidence"] == JNum(NumberOrZero(Get(data, "confidence")))
      && r.value["persons_detected"] == JNum(NumberOrZero(Get(data, "persons_detected")))
      && Some(r.value["threat_score"]) == ThreatScore(data)
      && Some(r.value["crime_detected"]) == CrimeStatus(data)
      && (forall k :: k in data && k !in {"confidence", "persons_detected", "threat_score", "crime_detected"}
                      ==> r.value[k] == data[k])
  {
    match (ThreatScore(data), CrimeStatus(data))
    case (Some(score), Some(status)) =>
      Some(data["confidence" := JNum(NumberOrZero(Get(data, "confidence")))]
               ["persons_detected" := JNum(NumberOrZero(Get(data, "persons_detected")))]
               ["threat_score" := score]["crime_detected" := status])
    case _ => None
  }

  /** How the detection request ends: the saved record, or an error with the
      message the page shows (the server's message, `"Detection failed"`, or the
      failure of the request itself). */
  datatype Outcome = Saved(data: Doc) | Failed(message: string)

  class Page {
    var image: Option<File>
    var preview: Option<string>
    var camera: Option<Doc>
    var result: Option<Doc>
    var error: string
    var requests: nat          // detection requests sent

    constructor()
      ensures image.None? && preview.None? && camera.None? && result.None? && error == "" && requests == 0
    {
      image, preview, camera, result, error, requests := None, None, None, None, "", 0;
    }

    /** `handleImageChange` for the first chosen file; `url` is its object URL. */
    method HandleImageChange(file: Option<File>, url: string)
      modifies this
      ensures file.None? ==> image == old(image) && preview == old(preview) && error == old(error)
      ensures file.Some? && file.value.size > MaxBytes ==> error == TooLarge
      ensures file.Some? && file.value.size <= MaxBytes && file.value.mimeType !in ValidTypes ==> error == BadType
      ensures (file.None? || file.value.size > MaxBytes || file.value.mimeType !in ValidTypes) ==>
                image == old(image) && preview == old(preview) && result == old(result)
      ensures (file.Some? && file.value.size <= MaxBytes && file.value.mimeType in ValidTypes) ==>
                image == file && preview == Some(url) && error == "" && result.None?
      ensures camera == old(camera) && requests == old(requests)
    {
      if file.None? {
        return;
      }
      if file.value.size > MaxBytes {
        error := TooLarge;
        return;
      }
      if file.value.mimeType !in ValidTypes {
        error := BadType;
        return;
      }
      image := file;
      preview := Some(url);
      error := "";
      result := None;
    }

    /** `submitImage`: nothing is sent unless both an image and a camera are chosen;
        `typeError` is the message the engine gives when scoring throws. */
    method SubmitImage(outcome: Outcome, typeError: string) returns (sent: bool)
      modifies this
      ensures sent <==> old(image).Some? && old(camera).Some?
      ensures !sent ==> result == old(result) && error == old(error) && requests == old(requests)
      ensures sent ==> requests == old(requests) + 1
      ensures sent && outcome.Failed? ==> result.None? && error == outcome.message
      ensures sent && outcome.Saved? ==>
        match Processed(outcome.data)
        case Some(d) => result == Some(d) && error == ""
        case None => result.None? && error == typeError
      ensures image == old(image) && preview == old(preview) && camera == old(camera)
    {
      if image.None? || camera.None? {
        return false;
      }
      sent := true;
      error := "";
      result := None;
      requests := requests + 1;
      match outcome
      case Failed(message) =>
        error := message;
      case Saved(data) =>
        match Processed(data)
        case Some(d) =>
          result := Some(d);
        case None =>
          error := typeError;
    }
  }
}
