/** The AI server's image analysis: the upload's extension check, confidence
    normalisation and the post-validation that rewrites the pose detector's answer. */
module ImageDetector {
  import opened Base
  import opened Py
  import PoseDetector

  const AllowedExtensions: set<string> := {"png", "jpg", "jpeg", "bmp"}

  /** `allowed_file(filename)`. */
  function AllowedFile(filename: string): (r: bool)
    ensures r ==> '.' in filename && Lower(AfterLast(filename, '.').value) in AllowedExtensions
    ensures '.' !in filename ==> !r
  {
    '.' in filename && Lower(AfterLast(filename, '.').value) in AllowedExtensions
  }

  lemma {:induction false} AfterLastOf(a: string, c: char, b: string)
    requires c !in b
    ensures AfterLast(a + [c] + b, c) == Some(b)
    decreases |b|
  {
    var s := a + [c] + b;
    if b != [] {
      var b' := b[..|b| - 1];
      assert s[..|s| - 1] == a + [c] + b';
      AfterLastOf(a, c, b');
      assert b' + [b[|b| - 1]] == b;
    }
  }

  /** Only the text after the last dot counts, in any case: `photo.PNG` passes,
      `photo.png.exe` does not. */
  lemma AllowedFileExtension(name: string, ext: string)
    requires '.' !in ext
    ensures AfterLast(name + "." + ext, '.') == Some(ext)
    ensures AllowedFile(name + "." + ext) <==> Lower(ext) in AllowedExtensions
  {
    AfterLastOf(name, '.', ext);
  }

  /** A file name without a dot is refused. */
  lemma NoDotRefused(name: string)
    requires '.' !in name
    ensures !AllowedFile(name)
  {
  }

  /** `normalize_confidence(raw)`: a percentage above 1 is divided by 100 and capped
      at 1, anything else is floored at 0, and what `float` refuses becomes 0. A NaN
      passes through, since `max(nan, 0.0)` keeps its first argument. */
  function NormalizeConfidence(raw: PyValue, parse: FloatParser): (r: Float)
    ensures ToFloat(raw, parse).None? ==> r == Finite(0.0)
    ensures r.NaN? <==> ToFloat(raw, parse) == Some(NaN)
    ensures r.Finite? ==> 0.0 <= r.r <= 1.0
    ensures ToFloat(raw, parse) == Some(Inf(true)) ==> r == Finite(1.0)
    ensures ToFloat(raw, parse) == Some(Inf(false)) ==> r == Finite(0.0)
    ensures match ToFloat(raw, parse)
      case Some(Finite(v)) =>
        && (v > 1.0 ==> r == Finite(MinR(v / 100.0, 1.0)))
        && (v <= 1.0 ==> r == Finite(MaxR(v, 0.0)))
      case _ => true
  {
    match ToFloat(raw, parse)
    case None => Finite(0.0)
    case Some(NaN) => NaN
    case Some(Inf(positive)) => Finite(if positive then 1.0 else 0.0)
    case Some(Finite(v)) =>
      if v > 1.0 then Finite(MinR(v / 100.0, 1.0)) else Finite(MaxR(v, 0.0))
  }

  /** A confidence already in `[0, 1]` is kept, and normalising twice changes nothing more. */
  lemma NormalizeIdempotent(raw: PyValue, parse: FloatParser)
    ensures var once := NormalizeConfidence(raw, parse);
      NormalizeConfidence(PyFloat(once), parse) == once
  {
  }

  /** A percentage is read as a fraction: 85 becomes 0.85. */
  lemma PercentageRead(parse: FloatParser)
    ensures NormalizeConfidence(PyInt(85), parse) == Finite(0.85)
    ensures NormalizeConfidence(PyInt(250), parse) == Finite(1.0)
  {
  }

  /** The `detection` dictionary. */
  datatype Detection = Detection(
    crimeType: PyValue, confidence: Float, crimeDetected: int, threatLevel: PyValue,
    persons: int, activities: PyValue, signals: PyValue)

  function GetOr(result: map<string, PyValue>, key: string, default: PyValue): PyValue {
    if key in result then result[key] else default
  }

  /** The dictionary as first built from the detector's `result`; `None` when one of
      its `int` conversions raises. */
  function Read(result: map<string, PyValue>, parseFloat: FloatParser, parseInt: IntParser): (r: Option<Detection>)
    ensures r.None? <==> ToInt(GetOr(result, "crime_detected", PyInt(0)), parseInt).None?
                         || ToInt(GetOr(result, "persons_detected", PyInt(0)), parseInt).None?
    ensures result == map[] ==>
      r == Some(Detection(PyStr("NO_CRIME"), Finite(0.0), 0, PyStr("LOW"), 0, PyList([]), PyList([])))
  {
    var crimeDetected := ToInt(GetOr(result, "crime_detected", PyInt(0)), parseInt);
    var persons := ToInt(GetOr(result, "persons_detected", PyInt(0)), parseInt);
    if crimeDetected.None? || persons.None? then None
    else Some(Detection(
      GetOr(result, "crime_type", PyStr("NO_CRIME")),
      NormalizeConfidence(GetOr(result, "confidence", PyFloat(Finite(0.0))), parseFloat),
      crimeDetected.value,
      GetOr(result, "threat_level", PyStr("LOW")),
      persons.value,
      GetOr(result, "activities", PyList([])),
      GetOr(result, "signals", PyList([]))))
  }

  const MultiPersonCrimes: seq<string> := ["FIGHT", "PHYSICAL_ASSAULT", "CHOKING", "CHOKING / ATTEMPTED MURDER"]
  const HighThreatCrimes: seq<string> :=
    ["CHOKING", "CHOKING / ATTEMPTED MURDER", "ASSAULT_WITH_WEAPON", "ARMED_INTRUSION", "ROBBERY"]

  /** Python's `v in names`: an exact, case-sensitive match against a text. */
  predicate InList(v: PyValue, names: seq<string>) {
    v.PyStr? && v.s in names
  }

  /** The three post-validation rules, each applied to what the previous one left. */
  function DropUnderstaffed(d: Detection): Detection {
    if InList(d.crimeType, MultiPersonCrimes) && d.persons < 2 then
      d.(crimeType := PyStr("NO_CRIME"), confidence := Finite(0.0), crimeDetected := 0,
         threatLevel := PyStr("LOW"), persons := Max(d.persons, 1))
    else d
  }

  function ForceHigh(d: Detection): Detection {
    if InList(d.crimeType, HighThreatCrimes) then d.(threatLevel := PyStr("HIGH")) else d
  }

  function AtLeastOnePerson(d: Detection): Detection {
    if d.crimeType != PyStr("NO_CRIME") && d.persons == 0 then d.(persons := 1) else d
  }

  function PostValidate(d: Detection): (r: Detection)
    ensures InList(r.crimeType, HighThreatCrimes) ==> r.threatLevel == PyStr("HIGH")
    ensures d.persons >= 0 && r.crimeType != PyStr("NO_CRIME") ==> r.persons >= 1
    ensures r.crimeType == d.crimeType || r.crimeType == PyStr("NO_CRIME")
  {
    AtLeastOnePerson(ForceHigh(DropUnderstaffed(d)))
  }

  /** `analyze_image` given the detector's `result`: `detection` is built and then
      rewritten in place, rule by rule. */
  method AnalyzeImage(result: map<string, PyValue>, parseFloat: FloatParser, parseInt: IntParser)
    returns (r: Option<Detection>)
    ensures r.None? <==> Read(result, parseFloat, parseInt).None?
    ensures r.Some? ==> r.value == PostValidate(Read(result, parseFloat, parseInt).value)
  {
    var initial := Read(result, parseFloat, parseInt);
    if initial.None? {
      return None;
    }
    var detection := initial.value;
    var crime := detection.crimeType;
    var persons := detection.persons;
    if InList(crime, MultiPersonCrimes) && persons < 2 {
      detection := detection.(crimeType := PyStr("NO_CRIME"));
      detection := detection.(confidence := Finite(0.0));
      detection := detection.(crimeDetected := 0);
      detection := detection.(threatLevel := PyStr("LOW"));
      detection := detection.(persons := Max(persons, 1));
    }
    if InList(detection.crimeType, HighThreatCrimes) {
      detection := detection.(threatLevel := PyStr("HIGH"));
    }
    if detection.crimeType != PyStr("NO_CRIME") && detection.persons == 0 {
      detection := detection.(persons := 1);
    }
    r := Some(detection);
  }

  // ----- properties of the post-validation -----

  /** A multi-person crime seen with fewer than two people is withdrawn. */
  lemma UnderstaffedWithdrawn(d: Detection)
    requires InList(d.crimeType, MultiPersonCrimes) && d.persons < 2
    ensures PostValidate(d) == d.(crimeType := PyStr("NO_CRIME"), confidence := Finite(0.0),
                                  crimeDetected := 0, threatLevel := PyStr("LOW"), persons := Max(d.persons, 1))
  {
  }

  /** Every other detection keeps its type, confidence, flag and lists. */
  lemma OthersKeepType(d: Detection)
    requires !(InList(d.crimeType, MultiPersonCrimes) && d.persons < 2)
    ensures var p := PostValidate(d);
      && p.crimeType == d.crimeType && p.confidence == d.confidence && p.crimeDetected == d.crimeDetected
      && p.activities == d.activities && p.signals == d.signals
      && (p.threatLevel == if InList(d.crimeType, HighThreatCrimes) then PyStr("HIGH") else d.threatLevel)
  {
  }

  /** A type in the high-threat list always ends `HIGH`. */
  lemma HighThreatForced(d: Detection)
    ensures InList(PostValidate(d).crimeType, HighThreatCrimes) ==> PostValidate(d).threatLevel == PyStr("HIGH")
  {
  }

  /** A reported crime never has zero people, and with a non-negative count it has
      at least one. A negative count other than the withdrawn cases survives. */
  lemma CrimeHasPerson(d: Detection)
    ensures PostValidate(d).crimeType != PyStr("NO_CRIME") ==> PostValidate(d).persons != 0
    ensures d.persons >= 0 && PostValidate(d).crimeType != PyStr("NO_CRIME") ==> PostValidate(d).persons >= 1
    ensures InList(d.crimeType, MultiPersonCrimes) && d.persons < 2 ==> PostValidate(d).persons >= 1
  {
  }

  /** The lists are matched case-sensitively: `"fight"` is not withdrawn. */
  lemma ListsAreCaseSensitive(d: Detection)
    requires d.crimeType == PyStr("fight") && d.persons == 1
    ensures PostValidate(d).crimeType == PyStr("fight") && PostValidate(d).threatLevel == d.threatLevel
  {
    assert "fight" != "FIGHT";
  }

  /** The pose detector's answer as a result dictionary; `names` stands for
      `list(set(signals))`, in whatever order Python gives. */
  function FromPose(p: PoseDetector.PoseResult, names: seq<PyValue>): map<string, PyValue> {
    map["persons_detected" := PyInt(p.persons), "signals" := PyList(names),
        "threat_score" := PyInt(p.threatScore), "crime_detected" := PyBool(p.crimeDetected),
        "crime_type" := PyStr(p.crimeType), "threat_level" := PyStr(p.threatLevel),
        "confidence" := PyInt(p.confidence)]
  }

  /** The classifier's mixed-case names are in neither list, so the pose detector's
      type and level always pass unchanged; its score becomes a fraction; and the
      `"Normal"` answer for an empty scene is reported with one person. */
  lemma PoseAnswerPassesThrough(persons: nat, raw: seq<PoseDetector.Signal>, names: seq<PyValue>,
                                parseFloat: FloatParser, parseInt: IntParser)
    ensures var p := PoseDetector.ResultOf(persons, raw);
      var d := Read(FromPose(p, names), parseFloat, parseInt);
      && d.Some?
      && PostValidate(d.value) == Detection(
           PyStr(p.crimeType), Finite(p.threatScore as real / 100.0), if p.crimeDetected then 1 else 0,
           PyStr(p.threatLevel), if persons == 0 then 1 else persons, PyList([]), PyList(names))
  {
    var p := PoseDetector.ResultOf(persons, raw);
    PoseNamesUnlisted(persons, raw);
    ReadPose(p, names, parseFloat, parseInt);
  }

  /** No name the pose classifier gives is in either list. */
  lemma PoseNamesUnlisted(persons: nat, raw: seq<PoseDetector.Signal>)
    ensures PoseDetector.ResultOf(persons, raw).crimeType !in MultiPersonCrimes
    ensures PoseDetector.ResultOf(persons, raw).crimeType !in HighThreatCrimes
    ensures PoseDetector.ResultOf(persons, raw).threatScore in {0, 15, 30, 45, 60, 75, 90, 100}
  {
  }

  /** Reading the pose detector's dictionary: its score (a multiple of 15, or 100)
      becomes a fraction, and its flag a 0 or 1. */
  lemma ReadPose(p: PoseDetector.PoseResult, names: seq<PyValue>, parseFloat: FloatParser, parseInt: IntParser)
    requires p.threatScore in {0, 15, 30, 45, 60, 75, 90, 100} && p.confidence == p.threatScore
    ensures Read(FromPose(p, names), parseFloat, parseInt) == Some(Detection(
      PyStr(p.crimeType), Finite(p.threatScore as real / 100.0), if p.crimeDetected then 1 else 0,
      PyStr(p.threatLevel), p.persons, PyList([]), PyList(names)))
  {
  }
}
