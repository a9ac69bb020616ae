/** `createIncident`: validate a reported incident, upload its image, derive the
    location from the camera's document, save the record and broadcast it. */
module IncidentController {
  import opened Base
  import opened Js
  import opened Store

  /** Reading the camera's document. */
  datatype CameraRead = CameraFound(doc: StoredDoc) | CameraMissing | CameraReadFails

  /** The outcomes of the external steps: the image host's `secure_url` (`None`: the
      upload fails), the camera read, the id the store gives the new record (`None`:
      the save fails), and whether a broadcast server is registered. */
  datatype Environment = Environment(
    upload: Option<string>, camera: CameraRead, saved: Option<string>, ioRegistered: bool)

  datatype Reply =
    | Created(incidentId: string, data: StoredDoc)
    | Error(status: int, message: string)

  const MissingFields := "Missing required fields"
  const CreateFailed := "Failed to create incident"

  /** `!type || confidence === undefined || !cameraId || !imageBase64` fails; a
      confidence of 0 (or `null`) passes. */
  predicate Valid(body: Doc) {
    TruthyOpt(Get(body, "type")) && Get(body, "confidence").Some?
    && TruthyOpt(Get(body, "cameraId")) && TruthyOpt(Get(body, "imageBase64"))
  }

  function LocationObj(name: Value, area: Value, lat: Value, lng: Value): Value {
    Obj(map["name" := name, "area" := area, "lat" := lat, "lng" := lng])
  }

  /** The incident's `location`: placeholders without a camera document; otherwise
      the camera's name and area with fallbacks, and its coordinates only when they
      are numbers. */
  function Location(camera: Option<StoredDoc>): (r: Value)
    ensures camera.None? ==>
      r == LocationObj(Val(JStr("Unknown Camera")), Val(JStr("Unknown Area")), Val(JNull), Val(JNull))
    ensures camera.Some? ==> r.Obj? && r.fields.Keys == {"name", "area", "lat", "lng"}
    ensures camera.Some? ==>
      var cam := camera.value;
      && (TruthyValue(Field(cam, "name")) ==> r.fields["name"] == cam["name"])
      && (!TruthyValue(Field(cam, "name")) ==> r.fields["name"] == Val(JStr("Camera")))
      && (TruthyValue(Field(cam, "area")) ==> r.fields["area"] == cam["area"])
      && (!TruthyValue(Field(cam, "area")) ==> r.fields["area"] == Val(JStr("Unknown Area")))
      && (IsNumberValue(Field(cam, "latitude")) ==> r.fields["lat"] == cam["latitude"])
      && (!IsNumberValue(Field(cam, "latitude")) ==> r.fields["lat"] == Val(JNull))
      && (IsNumberValue(Field(cam, "longitude")) ==> r.fields["lng"] == cam["longitude"])
      && (!IsNumberValue(Field(cam, "longitude")) ==> r.fields["lng"] == Val(JNull))
  {
    match camera
    case None => LocationObj(Val(JStr("Unknown Camera")), Val(JStr("Unknown Area")), Val(JNull), Val(JNull))
    case Some(cam) =>
      LocationObj(
        OrValue(Field(cam, "name"), Val(JStr("Camera"))),
        OrValue(Field(cam, "area"), Val(JStr("Unknown Area"))),
        if IsNumberValue(Field(cam, "latitude")) then cam["latitude"] else Val(JNull),
        if IsNumberValue(Field(cam, "longitude")) then cam["longitude"] else Val(JNull))
  }

  /** `incidentData`, with its `timestamp` as the `Date` of `now`. */
  function IncidentData(body: Doc, location: Value, imageUrl: string, now: int): StoredDoc
    requires Valid(body)
  {
    map["type" := Val(body["type"]),
        "confidence" := Val(NumberValue(Get(body, "confidence"))),
        "threat_level" := Val(OrElse(Get(body, "threat_level"), JStr("LOW"))),
        "cameraId" := Val(body["cameraId"]),
        "location" := location,
        "imageUrl" := Val(JStr(imageUrl)),
        "persons_detected" := Val(OrElse(Get(body, "persons_detected"), JNum(0.0))),
        "activities" := Val(OrElse(Get(body, "activities"), JArr([]))),
        "timestamp" := DateVal(Some(now))]
  }

  /** The stored incident has exactly these nine fields. */
  lemma IncidentDataKeys(body: Doc, location: Value, imageUrl: string, now: int)
    requires Valid(body)
    ensures IncidentData(body, location, imageUrl, now).Keys ==
      {"type", "confidence", "threat_level", "cameraId", "location", "imageUrl",
       "persons_detected", "activities", "timestamp"}
  {
  }

  lemma IncidentDataHasNoId(body: Doc, location: Value, imageUrl: string, now: int)
    requires Valid(body)
    ensures "id" !in IncidentData(body, location, imageUrl, now)
  {
    IncidentDataKeys(body, location, imageUrl, now);
  }

  /** Type and camera as sent, confidence as a number, defaults for a falsy
      threat level (`LOW`), person count (0) and activity list (empty), the camera's
      location, the uploaded image's address and the server time. */
  lemma IncidentDataFields(body: Doc, location: Value, imageUrl: string, now: int)
    requires Valid(body)
    ensures var r := IncidentData(body, location, imageUrl, now);
      && r["type"] == Val(body["type"]) && r["cameraId"] == Val(body["cameraId"])
      && r["confidence"] == Val(NumberValue(Get(body, "confidence")))
      && r["threat_level"] == Val(OrElse(Get(body, "threat_level"), JStr("LOW")))
      && r["persons_detected"] == Val(OrElse(Get(body, "persons_detected"), JNum(0.0)))
      && r["activities"] == Val(OrElse(Get(body, "activities"), JArr([])))
      && r["location"] == location && r["imageUrl"] == Val(JStr(imageUrl))
      && r["timestamp"] == DateVal(Some(now))
  {
  }

  /** What the store keeps: a `Date` becomes a store timestamp. */
  function Persisted(d: StoredDoc): (r: StoredDoc)
    ensures r.Keys == d.Keys
    ensures forall k :: k in d && !(d[k].DateVal? && d[k].time.Some?) ==> r[k] == d[k]
    ensures forall k :: k in d && d[k].DateVal? && d[k].time.Some? ==> r[k] == Stamp(d[k].time.value)
  {
    map k | k in d :: if d[k].DateVal? && d[k].time.Some? then Stamp(d[k].time.value) else d[k]
  }

  /** The camera document as the lookup finds it; `None` when the read itself
      throws (a failing store, or a camera id that is not a usable document id). */
  function CameraDoc(body: Doc, env: Environment): Option<Option<StoredDoc>>
    requires Valid(body)
  {
    var id := body["cameraId"];
    if !(id.JStr? && ValidDocId(id.s)) || env.camera.CameraReadFails? then None
    else if env.camera.CameraFound? then Some(Some(env.camera.doc))
    else Some(None)
  }

  /** Everything one call does; `uploaded` says whether the image was sent to the host. */
  datatype Effects = Effects(reply: Reply, uploaded: bool, saved: Option<(string, StoredDoc)>,
                             broadcast: Option<StoredDoc>)

  /** The handler as one sequence of steps: validate, upload, read the camera,
      save, broadcast if a server is registered, answer. */
  function Run(body: Doc, env: Environment, now: int): Effects {
    if !Valid(body) then Effects(Error(400, MissingFields), false, None, None)
    else if env.upload.None? then Effects(Error(500, CreateFailed), true, None, None)
    else match CameraDoc(body, env)
      case None => Effects(Error(500, CreateFailed), true, None, None)
      case Some(cam) =>
        var data := IncidentData(body, Location(cam), env.upload.value, now);
        match env.saved
        case None => Effects(Error(500, CreateFailed), true, None, None)
        case Some(id) => Saved(id, data, env.ioRegistered)
  }

  /** The effects of a successful save of `data` under `id`: the reply and the
      broadcast carry the record tagged with its id. */
  function Saved(id: string, data: StoredDoc, ioRegistered: bool): Effects {
    var payload := Tag("id", id, data);
    Effects(Created(id, payload), true, Some((id, Persisted(data))), if ioRegistered then Some(payload) else None)
  }

  lemma SavedFacts(id: string, data: StoredDoc, ioRegistered: bool)
    requires "id" !in data
    ensures var e := Saved(id, data, ioRegistered);
      && e.reply.Created? && e.saved.Some? && e.reply.incidentId == e.saved.value.0
      && e.saved.value.1 == Persisted(e.reply.data - {"id"})
      && e.reply.data == Tag("id", e.reply.incidentId, e.reply.data - {"id"})
      && (ioRegistered ==> e.broadcast == Some(e.reply.data))
  {
    TagUntag("id", id, data);
  }

  /** Invalid input is refused before anything is uploaded; nothing is saved without
      an upload and nothing broadcast without a save and a server; the reply is
      `201` exactly when the record was saved, and every later failure is one `500`. */
  lemma RunOutcomes(body: Doc, env: Environment, now: int)
    ensures var e := Run(body, env, now);
      && (!Valid(body) ==> e == Effects(Error(400, MissingFields), false, None, None))
      && (e.saved.Some? ==> e.uploaded)
      && (e.broadcast.Some? ==> e.saved.Some? && env.ioRegistered)
      && (e.reply.Created? <==> e.saved.Some?)
      && (e.reply.Error? && Valid(body) ==> e.reply == Error(500, CreateFailed) && e.broadcast.None?)
  {
  }

  /** On success the reply carries the new id and the record tagged with it, the
      store keeps that record with its time persisted, and the broadcast (when a
      server is registered) is exactly the reply's record. */
  lemma RunCreated(body: Doc, env: Environment, now: int)
    requires Run(body, env, now).reply.Created?
    ensures var e := Run(body, env, now);
      && e.saved.Some? && e.reply.incidentId == e.saved.value.0
      && e.saved.value.1 == Persisted(e.reply.data - {"id"})
      && e.reply.data == Tag("id", e.reply.incidentId, e.reply.data - {"id"})
      && (env.ioRegistered ==> e.broadcast == Some(e.reply.data))
  {
    var cam := CameraDoc(body, env).value;
    var data := IncidentData(body, Location(cam), env.upload.value, now);
    IncidentDataHasNoId(body, Location(cam), env.upload.value, now);
    SavedFacts(env.saved.value, data, env.ioRegistered);
  }

  /** The image host, the `incidents` collection and the broadcast channel. */
  class IncidentDesk {
    var uploads: nat                        // images sent to the image host
    var incidents: map<string, StoredDoc>
    var broadcasts: seq<StoredDoc>          // `new-incident` events, in order

    constructor()
      ensures uploads == 0 && incidents == map[] && broadcasts == []
    {
      uploads, incidents, broadcasts := 0, map[], [];
    }

    method CreateIncident(body: Doc, env: Environment, now: int) returns (reply: Reply)
      modifies this
      ensures var e := Run(body, env, now);
        && reply == e.reply
        && uploads == old(uploads) + (if e.uploaded then 1 else 0)
        && incidents == (if e.saved.Some? then old(incidents)[e.saved.value.0 := e.saved.value.1] else old(incidents))
        && broadcasts == old(broadcasts) + (if e.broadcast.Some? then [e.broadcast.value] else [])
    {
      if !Valid(body) {
        return Error(400, MissingFields);
      }
      uploads := uploads + 1;
      if env.upload.None? {
        return Error(500, CreateFailed);
      }
      var cam := CameraDoc(body, env);
      if cam.None? {
        return Error(500, CreateFailed);
      }
      var data := IncidentData(body, Location(cam.value), env.upload.value, now);
      if env.saved.None? {
        return Error(500, CreateFailed);
      }
      var id := env.saved.value;
      incidents := incidents[id := Persisted(data)];
      var payload := Tag("id", id, data);
      if env.ioRegistered {
        broadcasts := broadcasts + [payload];
      }
      reply := Created(id, payload);
    }
  }

  /** A confidence of 0 is accepted; only an absent one is refused. */
  lemma ZeroConfidenceAccepted(body: Doc)
    requires TruthyOpt(Get(body, "type")) && TruthyOpt(Get(body, "cameraId")) && TruthyOpt(Get(body, "imageBase64"))
    requires Get(body, "confidence") == Some(JNum(0.0))
    ensures Valid(body)
    ensures Run(body, Environment(None, CameraMissing, None, false), 0).reply.status == 500
  {
  }

  /** With no camera document, the stored incident carries the placeholder location. */
  lemma MissingCameraLocation(body: Doc, env: Environment, now: int)
    requires Valid(body) && body["cameraId"].JStr? && ValidDocId(body["cameraId"].s)
    requires env.upload.Some? && env.camera == CameraMissing && env.saved.Some?
    ensures var e := Run(body, env, now);
      e.saved.Some? && e.saved.value.1["location"]
        == LocationObj(Val(JStr("Unknown Camera")), Val(JStr("Unknown Area")), Val(JNull), Val(JNull))
  {
  }
}
