/** The AI server's settings: read once from the environment, overridable from a
    dictionary, and exposed as a twelve-key summary. */
module Config {
  import opened Base
  import opened Py

  type Env = map<string, string>

  /** `os.getenv(name, default)`. */
  function Getenv(env: Env, name: string, default: string): string {
    if name in env then env[name] else default
  }

  /** `os.getenv(name, default).lower() == 'true'`. */
  function EnvFlag(env: Env, name: string, default: string): (r: bool)
    ensures r ==> |Getenv(env, name, default)| == 4
    ensures name !in env ==> (r <==> Lower(default) == "true")
  {
    Lower(Getenv(env, name, default)) == "true"
  }

  /** Any capitalisation of `true` is true; nothing else is, not even `1`, `yes` or
      a padded ` true`. */
  lemma FlagSpellings(name: string, default: string)
    ensures EnvFlag(map[name := "TRUE"], name, default) && EnvFlag(map[name := "True"], name, default)
    ensures !EnvFlag(map[name := "1"], name, default) && !EnvFlag(map[name := "yes"], name, default)
    ensures !EnvFlag(map[name := " true"], name, default)
    ensures !EnvFlag(map[name := ""], name, default)
  {
    assert Lower("TRUE") == "true" && Lower("True") == "true";
    assert Lower("1") == "1" && Lower("yes") == "yes" && Lower(" true") == " true";
  }

  /** The boolean settings and their defaults: `"True"` for the first five,
      `"False"` for the last two. */
  const FlagsOn: set<string> :=
    {"DISPLAY_ENABLED", "DISPLAY_DETECTIONS", "SKIP_SIMILAR_FRAMES", "USE_OPTICAL_FLOW", "USE_FRAME_DIFF"}
  const FlagsOff: set<string> := {"ENABLE_EMAIL_ALERTS", "ENABLE_AI_ANALYSIS"}
  const Flags: map<string, string> := map name | name in FlagsOn + FlagsOff :: if name in FlagsOn then "True" else "False"

  /** The settings of the `Config` class as the environment sets them. `toInt` and
      `toFloat` stand for the `int` and `float` conversions where they succeed. */
  function Initial(env: Env, toInt: string -> int, toFloat: string -> Float): (r: map<string, PyValue>)
    ensures forall name :: name in Flags ==> name in r && r[name] == PyBool(EnvFlag(env, name, Flags[name]))
  {
    map[
      "CAMERA_SOURCE" := PyInt(toInt(Getenv(env, "CAMERA_SOURCE", "0"))),
      "CAMERA_WIDTH" := PyInt(toInt(Getenv(env, "CAMERA_WIDTH", "640"))),
      "CAMERA_HEIGHT" := PyInt(toInt(Getenv(env, "CAMERA_HEIGHT", "480"))),
      "CAPTURE_INTERVAL" := PyFloat(toFloat(Getenv(env, "CAPTURE_INTERVAL", "2.0"))),
      "SSIM_SKIP_THRESHOLD" := PyFloat(toFloat(Getenv(env, "SSIM_SKIP_THRESHOLD", "0.95"))),
      "CRIME_DETECTION_THRESHOLD" := PyFloat(toFloat(Getenv(env, "CRIME_DETECTION_THRESHOLD", "30.0"))),
      "FPS_LIMIT" := PyInt(toInt(Getenv(env, "FPS_LIMIT", "30"))),
      "ALERT_DIR" := PyStr(Getenv(env, "ALERT_DIR", "./alerts")),
      "WEBHOOK_URL" := PyStr(Getenv(env, "WEBHOOK_URL", "")),
      "OPENAI_API_KEY" := PyStr(Getenv(env, "OPENAI_API_KEY", "")),
      "AI_MODEL" := PyStr(Getenv(env, "AI_MODEL", "gpt-4-vision-preview")),
      "LOG_LEVEL" := PyStr(Getenv(env, "LOG_LEVEL", "INFO")),
      "LOG_FILE" := PyStr(Getenv(env, "LOG_FILE", "crime_detection.log")),
      "MAX_ANALYSIS_HISTORY" := PyInt(toInt(Getenv(env, "MAX_ANALYSIS_HISTORY", "100"))),
      "MOTION_DETECTION_SENSITIVITY" := PyFloat(toFloat(Getenv(env, "MOTION_DETECTION_SENSITIVITY", "1.0"))),
      "DETECTION_PERSISTENCE" := PyInt(toInt(Getenv(env, "DETECTION_PERSISTENCE", "2"))),
      "SMOOTHING_ALPHA" := PyFloat(toFloat(Getenv(env, "SMOOTHING_ALPHA", "0.6")))]
    + map name | name in Flags :: PyBool(EnvFlag(env, name, Flags[name]))
  }

  /** With nothing in the environment, a flag is on exactly when its default is
      `"True"` (display, frame skipping, optical flow, frame differencing) and off
      when it is `"False"` (e-mail alerts, AI analysis). */
  lemma FlagDefaults(toInt: string -> int, toFloat: string -> Float, name: string)
    requires name in Flags
    ensures Initial(map[], toInt, toFloat)[name] == PyBool(name in FlagsOn)
  {
    assert Lower("True") == "true";
    assert |Lower("False")| == 5;
  }

  /** The attributes after the overrides `items` (the dictionary's entries in
      order): each key, upper-cased, replaces an attribute of that name if there is
      one; other keys are ignored. */
  function Overridden(attrs: map<string, PyValue>, items: seq<(string, PyValue)>): (r: map<string, PyValue>)
    ensures r.Keys == attrs.Keys
  {
    if items == [] then attrs
    else
      var prev := Overridden(attrs, items[..|items| - 1]);
      var (key, value) := items[|items| - 1];
      if Upper(key) in prev then prev[Upper(key) := value] else prev
  }

  /** The value last given for the attribute `name`, if any entry names it. */
  function LastFor(items: seq<(string, PyValue)>, name: string): (r: Option<PyValue>)
    ensures r.None? <==> forall i :: 0 <= i < |items| ==> Upper(items[i].0) != name
    ensures r.Some? ==> exists i :: 0 <= i < |items| && Upper(items[i].0) == name && items[i].1 == r.value
                                   && forall j :: i < j < |items| ==> Upper(items[j].0) != name
  {
    if items == [] then None
    else if Upper(items[|items| - 1].0) == name then Some(items[|items| - 1].1)
    else
      var r := LastFor(items[..|items| - 1], name);
      assert forall i :: 0 <= i < |items| - 1 ==> items[..|items| - 1][i] == items[i];
      r
  }

  /** An attribute ends with the last value given for it, or keeps its own: values
      are stored as given, without conversion. */
  lemma {:induction false} OverriddenValue(attrs: map<string, PyValue>, items: seq<(string, PyValue)>, name: string)
    requires name in attrs
    ensures Overridden(attrs, items)[name] == LastFor(items, name).GetOr(attrs[name])
  {
    if items != [] {
      OverriddenValue(attrs, items[..|items| - 1], name);
    }
  }

  /** The `Config` class, reduced to its settings. */
  class Settings {
    var attrs: map<string, PyValue>

    constructor(env: Env, toInt: string -> int, toFloat: string -> Float)
      ensures attrs == Initial(env, toInt, toFloat)
    {
      attrs := Initial(env, toInt, toFloat);
    }

    /** `load_config_from_dict(config_dict)`, with the dictionary's entries in order. */
    method LoadFromDict(items: seq<(string, PyValue)>)
      modifies this
      ensures attrs == Overridden(old(attrs), items)
    {
      for i := 0 to |items|
        invariant attrs == Overridden(old(attrs), items[..i])
      {
        assert items[..i + 1][..i] == items[..i];
        var (key, value) := items[i];
        if Upper(key) in attrs {
          attrs := attrs[Upper(key) := value];
        }
      }
      assert items[..|items|] == items;
    }
  }

  /** The twelve keys `get_config_dict` reports; each reports the attribute named
      by its upper-case form. */
  const ExposedKeys: set<string> := {
    "camera_source", "camera_width", "camera_height", "capture_interval", "ssim_skip_threshold",
    "crime_detection_threshold", "display_enabled", "alert_dir", "webhook_url", "openai_api_key",
    "enable_ai_analysis", "log_level"}

  /** `get_config_dict()` over the attributes `attrs`. */
  function ConfigDict(attrs: map<string, PyValue>): (r: map<string, PyValue>)
    requires forall k :: k in ExposedKeys ==> Upper(k) in attrs
    ensures r.Keys == ExposedKeys
    ensures r["openai_api_key"] == PyBool(Truthy(attrs[Upper("openai_api_key")]))
    ensures forall k :: k in ExposedKeys && k != "openai_api_key" ==> r[k] == attrs[Upper(k)]
  {
    map k | k in ExposedKeys :: if k == "openai_api_key" then PyBool(Truthy(attrs[Upper(k)])) else attrs[Upper(k)]
  }

  /** Round trip: an exposed key set by `load_config_from_dict` is read back, in any
      case, and the API key only as whether it is set. */
  lemma RoundTrip(attrs: map<string, PyValue>, key: string, value: PyValue)
    requires forall k :: k in ExposedKeys ==> Upper(k) in attrs
    requires Lower(key) in ExposedKeys
    ensures var d := ConfigDict(Overridden(attrs, [(key, value)]));
      d[Lower(key)] == if Lower(key) == "openai_api_key" then PyBool(Truthy(value)) else value
  {
    UpperOfLower(key);
    assert [(key, value)][..0] == [];
  }

  /** Keys that name no attribute change nothing. */
  lemma UnknownKeysIgnored(attrs: map<string, PyValue>, items: seq<(string, PyValue)>)
    requires forall i :: 0 <= i < |items| ==> Upper(items[i].0) !in attrs
    ensures Overridden(attrs, items) == attrs
  {
    forall name | name in attrs ensures Overridden(attrs, items)[name] == attrs[name] {
      OverriddenValue(attrs, items, name);
    }
  }
}
