# Crime detection system: a verified model of its decision logic

The system watches camera frames and uploaded images for violent activity. It
scores what it sees, files incidents in a document store, escalates them, and
shows them to administrators and camera operators. This project models the
decision logic inside it, written in Dafny, with the external services made
abstract:

- the incident auto-escalation trigger;
- operator provisioning with its compensating rollback;
- the backend's bearer-token and admin guards, the operator's camera lookup and
  the camera table;
- incident record construction from a reported detection and from the AI
  server's answer, best-effort activity logging and geocoding fallbacks;
- the AI server's pose-signal rules, first-match classifier and `15 × signals`
  score, the post-validation of a detection, configuration overrides and the
  report cooldown of the capture loop;
- the frontend's threat score and crime-status inference, greedy proximity
  clustering, marker icons, the valid-location filter, the camera-proximity
  filter, the analytics histograms, the operator feed filter, the ack/resolve
  status machine, and the role redirect of its route guard.

The identity provider, the document store, the image host, the HTTP clients,
the YOLO model and the date and JSON parsers become parameters or fallible
inputs. Their outcomes (a created uid, a failed write, a missing document, a
timed-out call) are values handed to the model.

There is one module per source file, and five shared modules:

- `Base`: options, ASCII case mapping, text search, trimming, decimal printing
  and `Math.round`.
- `Js`: JavaScript values, truthiness, `Number(...)` and documents as
  `map<string, Json>`.
- `Store` and `Py`: stored documents with server timestamps, and Python values
  with their conversions.
- `Seqs`: filter, distinct, tallies and the subsequence order.

Pure code (functions, branch structures, filters) is modelled as functions
with lemmas. Code that mutates state is modelled as classes whose methods are
proved against a specification function:

- the camera table, the activity log, the incident desk, the provisioner, the
  status updates and the config class;
- the detector's cooldown state and the image page's state.

Loops stay loops, each with its invariants: the pose aggregation, the pair
loops, the clustering, the histogram counters, the config override loop and the
camera listing.

Where the description of the system and the code differ, the model follows the
code:

- Provisioning makes a single `createUser` attempt, with no retry and no
  custom-claim step.
- Provisioning writes `users/{uid}` with `active: true`. The operator camera
  lookup reads `operators/{uid}` and requires `status === "active"`, so a
  freshly provisioned operator gets no cameras there.
- Escalation is a plain `update`, not a transaction or conditional write.
- There is no password-length check.
- The post-validation lists are upper-case and matched exactly, while the pose
  classifier emits mixed-case names. The rules therefore never fire on the pose
  detector's own answers, and leave their type and level as they are
  (`ImageDetector.PoseAnswerPassesThrough`). The general rules still apply: a
  0-person answer is reported with one person, and the score becomes a fraction.

## Model

| member | source | states |
|---|---|---|
| Escalation.NormalizeSeverity | functions/index.js:8 | A falsy value gives `""`; text gives its lower-case form; a truthy non-text value throws (and only that). |
| Escalation.ExplicitSeverityWins | functions/index.js:10-12 | A non-empty explicit `severity` is returned lower-cased, whatever the threat level says. |
| Escalation.LevelDecides | functions/index.js:14-18 | Without an explicit severity the threat level decides through the level table, in any case (upper-, lower- or mixed-case level gives the same severity). |
| Escalation.LevelSeverity | functions/index.js:14-18 | The severity is one of `critical`, `warning`, `info` or `""`, and `""` exactly for a level outside the table. |
| Escalation.LevelTable | functions/index.js:14-18 | `CRITICAL`→critical, `HIGH`/`Medium`→warning, `LOW`→info, anything else→`""`. |
| Escalation.ResolveSeverity | functions/index.js:10-19 | Any resolved severity is already lower-case. |
| Escalation.Truncate | functions/index.js:26 | Conversion toward zero: the magnitude drops by less than one and the sign is kept. |
| Escalation.GetTimeMs | functions/index.js:21-30 | A falsy value gives `null`; a store timestamp gives its milliseconds; NaN arises only from an invalid `Date`. |
| Escalation.NoUsableTime | functions/index.js:21-34 | Missing times, unparsable text, an invalid `Date` and epoch 0 make `shouldEscalate` false at every `now`. |
| Escalation.ShouldEscalate | functions/index.js:32-43 | No usable creation time gives false; true implies the severity is `warning`. |
| Escalation.ShouldEscalateIff | functions/index.js:32-43 | `shouldEscalate` holds iff there is a usable time, the severity is `warning`, and either the age is over 600000 ms, confidence is over 0.85, or confirmations are at least 2. Missing or NaN numbers count as 0. |
| Escalation.ApplyUpdate | functions/index.js:58-63 | A Firestore `update` sets the named fields (server timestamps become the commit time) and keeps every other field. |
| Escalation.AutoEscalate | functions/index.js:45-64 | A deleted document writes nothing; the only update ever issued is the escalation update; the trigger throws exactly when the severity cannot be resolved. |
| Escalation.NoWriteCases | functions/index.js:48-56 | A deleted document, a non-warning incident or one with `escalatedAt` set gets no write. |
| Escalation.UpdateIff | functions/index.js:48-58 | The trigger writes iff the incident is `warning`, not yet escalated, and `shouldEscalate` holds. |
| Escalation.UpdateContents | functions/index.js:58-63 | The written document has `severity: "critical"`, `escalatedAt` and `updatedAt` stamped, `escalationReason: "AUTO_RULE"`, and every other field unchanged. |
| Escalation.EscalatedIsCritical | functions/index.js:11-59 | The updated document resolves to `critical`. |
| Escalation.Idempotent | functions/index.js:11-59 | Re-running the trigger on the document its own update produced writes nothing. |
| Escalation.OnlyWarningToCritical | functions/index.js:53-59 | Whenever the trigger writes, the severity goes from `warning` to `critical`. |
| Escalation.LowNeverEscalated | functions/index.js:17-53 | An incident whose level is `low` (any case) and that has no explicit severity is never escalated, whatever its age, confidence or confirmations. |
| Escalation.HighConfidentEscalates | functions/index.js:16-63 | A fresh `HIGH` incident with confidence 0.9 is escalated at once. |
| Provisioning.Outcomes | backend/src/routes/admin.routes.js:26-79 | A refused create answers 500 with the mapped error and makes only the create call. A timeout answers 500 with the "too long" text; an account that the provider creates late remains. Neither writes a profile. |
| Provisioning.Provisioner.CreateOperator | backend/src/routes/admin.routes.js:11-81 | The response, the appended external calls, the identity accounts and the profiles are exactly those of the specification functions. |
| Provisioning.ValidationFirst | backend/src/routes/admin.routes.js:15-20 | Missing email or password, or a non-array or empty `cameras`, gives 400 with no call and no change. |
| Provisioning.SingleAttempt | backend/src/routes/admin.routes.js:26-39 | A valid request makes exactly one `createUser` call, and it is the first call. |
| Provisioning.NoRollbackWithoutAccount | backend/src/routes/admin.routes.js:22-79 | If the create fails or times out, no `deleteUser` is issued and the answer is 500 with the mapped message. |
| Provisioning.SuccessWritesProfile | backend/src/routes/admin.routes.js:41-58 | On success `users/{uid}` holds the email, role `operator`, `active: true`, the cameras and `createdBy` = caller. The answer is 201 with the uid, and no rollback is issued. |
| Provisioning.RollbackOnce | backend/src/routes/admin.routes.js:63-79 | A failed profile write after a created account deletes that uid exactly once, as the last call. The answer is 500 with the write's own error whether or not the deletion succeeds. |
| Provisioning.LateAccountOrphaned | backend/src/routes/admin.routes.js:26-64 | A create that loses the 15 s race but completes later leaves an account with no profile and no rollback. |
| Provisioning.ErrorText | backend/src/routes/admin.routes.js:75-78 | A message mentioning `timeout` becomes the "too long" text; any other non-empty message is passed through; an empty one gets the fallback text. |
| Provisioning.Calls | backend/src/routes/admin.routes.js:22-79 | An invalid request calls nothing. A valid one calls `createUser` first and never again, making at most three calls; `deleteUser` is called only after a created account's profile write failed. |
| Provisioning.TimeoutText | backend/src/routes/admin.routes.js:35-78 | The timer's own error message maps to "Firebase is taking too long. Try again.". |
| Provisioning.Respond | backend/src/routes/admin.routes.js:15-80 | The status is 201, 400 or 500. 400 iff validation fails; 201 iff the create went through and the profile write did not fail, and then the answer carries the new uid. |
| Auth.ExtractToken | backend/src/middleware/auth.js:8-14 | A token is extracted iff the header is present and starts with `Bearer `. |
| Auth.TokenIsSecondField | backend/src/middleware/auth.js:14 | The token is the second space-separated field, i.e. the text after `Bearer ` up to the next space. |
| Auth.Split | backend/src/middleware/auth.js:14 | `split` always yields at least one field. |
| Auth.UpTo | backend/src/middleware/auth.js:14 | The prefix before the first separator contains no separator and is followed by one, unless it is the whole text. |
| Auth.VerifyToken | backend/src/middleware/auth.js:6-23 | A missing or non-Bearer header gives 401 "No token provided" without calling the verifier. A failed verification gives 401 "Invalid or expired token". `next` is reached iff verification succeeds, and only then is `req.user` set, to the decoded token. |
| Auth.RequireAdmin | backend/src/middleware/auth.js:28-46 | `next` iff the `users/{uid}` document exists with role exactly `admin`. A missing user or a failed lookup gives 500 "Authorization failed"; any other refusal is 403. |
| Auth.RoleIsCaseSensitive | backend/src/middleware/auth.js:38 | Role `Admin` is refused with 403. |
| OperatorCameras.AssignedIds | backend/src/routes/operator.js:40-42 | A `cameras` field that is not an array gives no ids. |
| OperatorCameras.IdTexts | backend/src/routes/operator.js:46-50 | The document ids read are the assigned id texts, one for one. |
| OperatorCameras.ExistingCameras | backend/src/routes/operator.js:57-62 | Only camera documents that exist are returned, in assigned order, each tagged with its id. |
| OperatorCameras.OperatorCameras | backend/src/routes/operator.js:12-71 | A failing read, a missing uid or operator document, or a status other than exactly `active` gives an empty list. |
| OperatorCameras.ListingIsAssigned | backend/src/routes/operator.js:46-62 | The result has at most one entry per assigned id. Each entry comes from an assigned id that has a document, in assigned order; without its own `cameraId` field a camera carries its document id. |
| OperatorCameras.NonArrayIsEmpty | backend/src/routes/operator.js:40-42 | An active operator whose `cameras` is not an array gets an empty list. |
| Cameras.StorableCamera | backend/src/routes/camera.routes.js:36-43 | A storable request has `cameraId`, `latitude` and `longitude` present (the store refuses `undefined`). |
| Cameras.NewCamera | backend/src/routes/camera.routes.js:36-43 | The stored camera has exactly name, area, coordinates, `active: true` and `createdAt`. |
| Cameras.AddCamera | backend/src/routes/camera.routes.js:28-49 | Missing `cameraId`, `name` or `area` gives 400 with the table unchanged. A store refusal gives 500. Success stores exactly `NewCamera(body, now)` under that id: the request's name, area and coordinates, `active` true and `createdAt` the server time. Other cameras are left alone. |
| Cameras.UpdateCamera | backend/src/routes/camera.routes.js:57-70 | Succeeds iff the document exists. It merges the request fields and `updatedAt` over it, keeps unmentioned fields and leaves other cameras alone; a failure is 500 with the table unchanged. |
| Cameras.DeleteCamera | backend/src/routes/camera.routes.js:78-87 | Only the named id is removed and every other camera is unchanged; a failure is 500. |
| Cameras.CameraTable.List | backend/src/routes/camera.routes.js:10-21 | One entry per stored camera, none twice, each with `cameraId` = document id plus its fields. A failing store gives 500 "Failed to fetch cameras". |
| Cameras.CameraTable.Add | backend/src/routes/camera.routes.js:24-50 | The response and new table are those of `AddCamera`. |
| Cameras.CameraTable.Update | backend/src/routes/camera.routes.js:53-71 | The response and new table are those of `UpdateCamera`. |
| Cameras.CameraTable.Delete | backend/src/routes/camera.routes.js:74-88 | The response and new table are those of `DeleteCamera`. |
| Cameras.AddReplaces | backend/src/routes/camera.routes.js:36-43 | Re-adding a camera drops fields of the old document that the new one lacks. |
| Cameras.AddAlwaysActive | backend/src/routes/camera.routes.js:41 | An `active` flag in the request is ignored; the stored camera is active. |
| IncidentController.Location | backend/src/controllers/incident.controller.js:37-64 | Without a camera document the location is the `Unknown Camera`/`Unknown Area` placeholder with null coordinates. With one it is `name \|\| "Camera"` and `area \|\| "Unknown Area"`, and each coordinate only when it is a number, else null. |
| IncidentController.IncidentDataKeys | backend/src/controllers/incident.controller.js:67-81 | The record has exactly its nine fields. |
| IncidentController.IncidentDataHasNoId | backend/src/controllers/incident.controller.js:67-81 | The record itself carries no `id`. |
| IncidentController.IncidentDataFields | backend/src/controllers/incident.controller.js:67-81 | Type and camera are as sent; confidence goes through `Number`. Falsy threat level, person count and activities default to `LOW`, 0 and `[]`. The record also holds the location, the image URL and the server time. |
| IncidentController.Persisted | backend/src/controllers/incident.controller.js:84-86 | The store keeps every field, turning a `Date` into a timestamp. |
| IncidentController.SavedFacts | backend/src/controllers/incident.controller.js:84-105 | A successful save replies with the new id and `{id, ...incidentData}`, and the store holds the untagged record. The broadcast payload equals the reply's data. |
| IncidentController.RunOutcomes | backend/src/controllers/incident.controller.js:21-113 | Invalid input gives 400 with no upload, save or broadcast. A confidence of 0 is accepted. A save requires an upload before it; a broadcast requires a save and a registered server. The answer is 201 iff the record was saved; every later failure is one 500 with no broadcast. |
| IncidentController.RunCreated | backend/src/controllers/incident.controller.js:84-105 | On success the reply carries the store's id and the record tagged with it. The store keeps that record, and the broadcast, when sent, is exactly the reply's record. |
| IncidentController.IncidentDesk.CreateIncident | backend/src/controllers/incident.controller.js:8-114 | The reply, the upload count, the stored incidents and the broadcast log are exactly the effects of `Run`. |
| IncidentController.ZeroConfidenceAccepted | backend/src/controllers/incident.controller.js:21 | A confidence of 0 passes validation; a later failed upload is a 500, not a 400. |
| IncidentController.MissingCameraLocation | backend/src/controllers/incident.controller.js:37-49 | With no camera document the stored incident carries the placeholder location. |
| DetectRoute.ParseJson | backend/src/routes/detect.routes.js:14-20 | Non-text is returned unchanged; valid JSON text gives the parsed value; invalid text gives `null`. |
| DetectRoute.ThreatScore | backend/src/routes/detect.routes.js:25-43 | The score is `min(100, round(confidence·100) + bonus)` and never exceeds 100. NaN iff the confidence is not numeric; throws iff the level is not text. |
| DetectRoute.BonusIgnoresCase | backend/src/routes/detect.routes.js:28 | The level bonus ignores case. |
| DetectRoute.NoLowerClamp | backend/src/routes/detect.routes.js:42 | A confidence of -0.5 scores -50: no lower clamp. |
| DetectRoute.CappedAtHundred | backend/src/routes/detect.routes.js:29-42 | A `critical` detection at 0.9 is capped at 100. |
| DetectRoute.Location | backend/src/routes/detect.routes.js:63-74 | `cameraId` defaults to null and `name` to `Unknown`. A coordinate is null iff it is absent; a present one, even `null`, goes through `Number`. |
| DetectRoute.UnparsableLocationDefaults | backend/src/routes/detect.routes.js:61-74 | Unparsable location text gives every default. |
| DetectRoute.IncidentData | backend/src/routes/detect.routes.js:112-146 | The record is built iff scoring does not throw. |
| DetectRoute.StoredIncidentKeys | backend/src/routes/detect.routes.js:128-146 | The stored record has exactly the route's twelve fields. |
| DetectRoute.StoredIncidentFields | backend/src/routes/detect.routes.js:95-135 | `crime_type` is the AI `type` (default `UNKNOWN`); confidence and person count are `Number(x) \|\| 0`. |
| DetectRoute.StoredIncidentOrigin | backend/src/routes/detect.routes.js:139-145 | The source is `ai-image-detection` and the location is the route's own. `createdAt` is the server time, and the AI timestamp is kept apart. |
| DetectRoute.Run | backend/src/routes/detect.routes.js:48-165 | No file gives 400 and the AI server is not called. The answer is 201 iff a record was saved; a record is saved only after the AI call and the upload. Every other failure is 500 "Crime detection failed", and the saved record is the one built from the AI answer. |
| DetectRoute.StoredScore | backend/src/routes/detect.routes.js:113-133 | The stored `threat_score` is the AI answer's confidence and level, scored. |
| ActivityLog.LogRecord | backend/src/utils/logOperatorActivity.js:3-22 | The record has the four given fields, `cameraId`/`ipAddress` defaulting to null, `metadata` to `{}`, and a server timestamp. |
| ActivityLog.OperatorLog.LogOperatorActivity | backend/src/utils/logOperatorActivity.js:12-25 | A successful write appends exactly one record. A failing or refused write appends nothing; the call never fails. |
| Geocode.Access | backend/src/utils/geocode.js:47 | A property read throws exactly on `undefined` or `null`. |
| Geocode.GeocodeLocation | backend/src/utils/geocode.js:14-64 | A missing or whitespace-only name gives `Unknown Location` with null coordinates and no request. A request is made only for a non-blank text name, a failed request gives the fail-safe place, and every requested answer keeps the input name. |
| Geocode.TrimEmptyIffBlank | backend/src/utils/geocode.js:16 | `trim()` is empty iff the text is all whitespace. |
| Geocode.BlankNameNoRequest | backend/src/utils/geocode.js:16-22 | A whitespace-only name gives the unknown location without a request. |
| Geocode.NoResultKeepsName | backend/src/utils/geocode.js:35-44 | A status other than `OK`, or an empty result list, gives the input name with null coordinates. |
| Geocode.FirstResultWins | backend/src/utils/geocode.js:46-53 | A successful answer gives the first result's coordinates under the input name. |
| ImageDetector.AllowedFile | ai-server/image_detector.py:33-34 | A name passes only when it has a dot and its lower-cased last extension is allowed; a name without a dot never passes. |
| ImageDetector.AllowedFileExtension | ai-server/image_detector.py:23-34 | Only the text after the last dot counts, lower-cased against {png, jpg, jpeg, bmp}. |
| ImageDetector.NoDotRefused | ai-server/image_detector.py:34 | A name without a dot is refused. |
| ImageDetector.NormalizeConfidence | ai-server/image_detector.py:37-47 | Unparsable input gives 0. Values above 1 are divided by 100 and capped at 1; the rest are floored at 0. Every finite result lies in [0,1]; NaN stays NaN. |
| ImageDetector.NormalizeIdempotent | ai-server/image_detector.py:37-47 | A confidence in [0,1] is kept, and normalising twice changes nothing more. |
| ImageDetector.PercentageRead | ai-server/image_detector.py:43-44 | 85 becomes 0.85 and 250 becomes 1.0. |
| ImageDetector.Read | ai-server/image_detector.py:57-69 | Missing keys default to `NO_CRIME`, confidence 0, LOW, no persons and empty lists; reading fails iff `int(crime_detected)` or `int(persons_detected)` raises. |
| ImageDetector.PostValidate | ai-server/image_detector.py:96-109 | After the three rules, a high-threat type has level `HIGH`, a crime has at least one person, and the type is kept or withdrawn to `NO_CRIME`. |
| ImageDetector.AnalyzeImage | ai-server/image_detector.py:54-111 | The detection is the dictionary read from the detector's result with the three post-validation rules applied in order. |
| ImageDetector.UnderstaffedWithdrawn | ai-server/image_detector.py:96-101 | A multi-person crime with fewer than 2 persons becomes `NO_CRIME`, confidence 0, not detected, LOW, with persons `max(persons, 1)`. |
| ImageDetector.OthersKeepType | ai-server/image_detector.py:96-109 | Every other detection keeps its type, confidence, flag and lists. |
| ImageDetector.HighThreatForced | ai-server/image_detector.py:104-105 | A type in the high-threat list always ends `HIGH`. |
| ImageDetector.CrimeHasPerson | ai-server/image_detector.py:101-109 | A type other than `NO_CRIME` never ends with zero persons; a withdrawn crime keeps at least one. |
| ImageDetector.ListsAreCaseSensitive | ai-server/image_detector.py:96-104 | `fight` with one person is neither withdrawn nor forced. |
| ImageDetector.PoseNamesUnlisted | ai-server/image_detector.py:79-93 | No name the pose classifier returns is in either list, and the pose score is a multiple of 15 or 100. |
| ImageDetector.ReadPose | ai-server/image_detector.py:57-69 | The pose detector's dictionary is read back field for field, its confidence as `score/100`. |
| ImageDetector.PoseAnswerPassesThrough | ai-server/image_detector.py:54-111 | For every pose answer, reading and post-validation succeed. The type and level come through unchanged, since no rule fires. A 0-person answer is reported with 1 person. The 0–100 score becomes a fraction, `threat_score / 100`. |
| PoseDetector.PersonSignals | ai-server/pose_detector.py:48-81 | `_analyze_person` gives at most five signals, none twice, all per-person ones. |
| PoseDetector.PairSignals | ai-server/pose_detector.py:92-105 | One pair gives at most three signals, all interaction ones, with close contact iff the hips are close. |
| PoseDetector.Interactions | ai-server/pose_detector.py:86-107 | The pair loops yield only interaction signals, at most `3n²` of them. |
| PoseDetector.RawSignals | ai-server/pose_detector.py:22-27 | The collected list starts with every person's own signals; with fewer than two persons it holds nothing else. |
| PoseDetector.FlagsFacts | ai-server/pose_detector.py:49-81 | The five conditional appends give at most five distinct per-person signals, each present iff its flag is set. |
| PoseDetector.PersonSignalsFacts | ai-server/pose_detector.py:48-81 | Each of the five signals appears at most once per person, exactly when its keypoint test holds, and nothing else appears. |
| PoseDetector.PairFlagsFacts | ai-server/pose_detector.py:96-105 | A pair gives at most three interaction signals, each present iff its flag is set. |
| PoseDetector.PairSignalsFacts | ai-server/pose_detector.py:92-105 | Close contact iff the hips are within 140, assault iff `i`'s left wrist is within 35 of `j`'s nose, forced movement iff the left wrists are within 20 horizontally. |
| PoseDetector.OnlyInteractionsIndex | ai-server/pose_detector.py:86-107 | A list passing the recursive check has no per-person signal at any index. |
| PoseDetector.InteractionKinds | ai-server/pose_detector.py:86-107 | Interaction analysis never produces a per-person signal. |
| PoseDetector.RowsLength | ai-server/pose_detector.py:90-105 | The pairs of the first `i` persons give at most `3·i·n` signals. |
| PoseDetector.AnalyzeInteractions | ai-server/pose_detector.py:86-107 | The nested loops produce the signals of every pair `i < j`, each examined once, in loop order. |
| PoseDetector.AllPersonKinds | ai-server/pose_detector.py:22-23 | The per-person pass produces only per-person signals. |
| PoseDetector.Classify | ai-server/pose_detector.py:112-136 | The level is HIGH, MEDIUM or LOW. MEDIUM only for `Robbery / Mugging`, LOW only for `Normal`. `GRAB_NECK` always gives `Choking / Attempted Murder`/HIGH. |
| PoseDetector.Elements | ai-server/pose_detector.py:37-113 | `set(signals)` holds exactly the signals that occur. |
| PoseDetector.ResultOf | ai-server/pose_detector.py:29-43 | The score is `min(100, 15 × raw signals)`, counting duplicates, and confidence equals it. `crime_detected` iff there are at least three raw signals. The signals are reported once each, and the type and level are the classifier's. |
| PoseDetector.Analyze | ai-server/pose_detector.py:9-151 | No keypoints gives the empty result. Otherwise the result comes from the per-person signals of everyone plus, for two or more persons, the interaction signals. |
| PoseDetector.NoPersonsIsEmpty | ai-server/pose_detector.py:12-151 | No one in view gives the empty result: 0 persons, `Normal`/LOW, score 0. |
| PoseDetector.LoneInteractions | ai-server/pose_detector.py:26-27 | With fewer than two persons no interaction signal is produced. |
| PoseDetector.SignalCounts | ai-server/pose_detector.py:22-27 | At most five per-person signals per person and at most `3n²` interaction signals. |
| PoseDetector.NeverCritical | ai-server/pose_detector.py:112-136 | The classifier never returns `CRITICAL`. |
| PoseDetector.DuplicatesCount | ai-server/pose_detector.py:30-37 | Three copies of one signal are reported once but score 45, which counts as a detected crime. |
| Config.EnvFlag | ai-server/config.py:27-28 | A flag can be on only for a four-letter value; an unset variable takes its default's spelling. |
| Config.FlagSpellings | ai-server/config.py:27-51 | A flag is on for any capitalisation of `true` and for nothing else (`1`, `yes`, ` true`, empty). |
| Config.Initial | ai-server/config.py:13-55 | Each boolean setting is `env.lower() == "true"` over its own default. |
| Config.FlagDefaults | ai-server/config.py:27-51 | With an empty environment the five `True`-default flags are on and the two `False`-default flags are off. |
| Config.Overridden | ai-server/config.py:87-89 | Overrides never add or remove attributes. |
| Config.LastFor | ai-server/config.py:87-89 | The last entry naming an attribute (after upper-casing), if any. |
| Config.OverriddenValue | ai-server/config.py:87-89 | An attribute ends with the last value given for its upper-case name, stored as given, or keeps its own. |
| Config.Settings.LoadFromDict | ai-server/config.py:80-89 | The override loop leaves the attributes as `Overridden` describes. |
| Config.ConfigDict | ai-server/config.py:92-112 | Exactly the twelve keys. Each reports its upper-case attribute, except `openai_api_key`, which reports only whether the key is set. |
| Config.RoundTrip | ai-server/config.py:87-111 | An exposed key set through `load_config_from_dict`, in any case, is read back by `get_config_dict`. The API key comes back only as a presence flag. |
| Config.UnknownKeysIgnored | ai-server/config.py:88 | Keys naming no attribute change nothing. |
| Detector.Due | ai-server/detector.py:33 | A frame is due only when `person` is among its labels and more than the 10 s cooldown has passed. |
| Detector.Reporter.Frame | ai-server/detector.py:31-51 | A report is posted iff `person` is among the labels and more than 10 s have passed since the last completed send. The payload is fixed. `last_sent_time` moves only when the post returns, and successive sends stay more than 10 s apart. |
| Detector.SpacedApart | ai-server/detector.py:13-49 | Completed sends `i < j` lie more than `(j − i) × 10` s apart. |
| Detector.RetryAfterFailure | ai-server/detector.py:46-51 | After a failed post the gate stays open for any later frame with a person. |
| DetectImagePage.LevelOrLow | frontend/src/app/detect-image/page.js:111-134 | The level is upper-cased text, or `LOW` when missing or empty; non-text throws. |
| DetectImagePage.ThreatScore | frontend/src/app/detect-image/page.js:97-124 | A supplied `threat_score` is returned unchanged. Otherwise CRITICAL/HIGH/MEDIUM give `min(100, round(conf·100) + bonus)` and any other level the uncapped base. |
| DetectImagePage.SuppliedScoreKept | frontend/src/app/detect-image/page.js:99-101 | A supplied score is kept even when out of range. |
| DetectImagePage.LowIsNotCapped | frontend/src/app/detect-image/page.js:112-123 | Confidence 1.5 scores 150 at `low` but 100 at `high`. |
| DetectImagePage.ScoreLevelIgnoresCase | frontend/src/app/detect-image/page.js:111 | The level is read in any case. |
| DetectImagePage.CrimeStatus | frontend/src/app/detect-image/page.js:127-145 | An explicit `crime_detected` is returned as is. Otherwise it is true iff the type contains a serious keyword (ignoring case), the level is HIGH or CRITICAL, or the confidence is over 0.7. |
| DetectImagePage.KeywordAnywhere | frontend/src/app/detect-image/page.js:139-142 | `attempted robbery` counts as a crime. |
| DetectImagePage.NothingDetected | frontend/src/app/detect-image/page.js:134-144 | With no type, level or confidence nothing is detected. |
| DetectImagePage.CrimeTypeDisplay | frontend/src/app/detect-image/page.js:247-261 | Precedence: `crime_type`, then `type`, then for a detected crime "Violent Activity" (CRITICAL/HIGH) or "Suspicious Activity", else "Normal Activity". |
| DetectImagePage.DisplayIsText | frontend/src/app/detect-image/page.js:247-261 | With text or absent type fields the display is text. |
| DetectImagePage.ThreatColor | frontend/src/app/detect-image/page.js:216-229 | A missing level is gray. |
| DetectImagePage.ThreatBgColor | frontend/src/app/detect-image/page.js:231-244 | A missing level is gray. |
| DetectImagePage.ColoursIgnoreCase | frontend/src/app/detect-image/page.js:216-244 | Both colour maps ignore case, and any level outside the four is gray. |
| DetectImagePage.Processed | frontend/src/app/detect-image/page.js:188-194 | The kept result is the saved record with confidence and person count as numbers and the score and status recomputed; every other field is unchanged. |
| DetectImagePage.Page.HandleImageChange | frontend/src/app/detect-image/page.js:66-87 | A file over 16 MiB or of another MIME type sets its error and leaves image and result untouched. An accepted file is kept with its preview, and the error and previous result are cleared. |
| DetectImagePage.Page.SubmitImage | frontend/src/app/detect-image/page.js:148-203 | A request is sent iff both an image and a camera are chosen. A failure shows its message; a saved record is shown processed. |
| LeafletMap.FewAreShownPlain | frontend/src/components/LeafletMap.jsx:123 | Fewer than ten incidents are shown as they are, in order, each unclustered. |
| LeafletMap.GroupIncidents | frontend/src/components/LeafletMap.jsx:122-171 | Below ten incidents the output is the plain list. Otherwise the groups are seed-relative, disjoint and cover every index, and the output is their markers in order. The grouping is greedy: each seed is the least index no earlier group took, and its group takes every incident no earlier group took that lies near the seed. Each group lists its indices in ascending order, as the inner `forEach` appends them. |
| LeafletMap.Emit | frontend/src/components/LeafletMap.jsx:147-167 | Up to three members are emitted as plain markers; more become one cluster whose count is the member count. Emitting throws exactly when a cluster's level reduce throws. |
| LeafletMap.Highest | frontend/src/components/LeafletMap.jsx:158-163 | The reduce yields `LOW` or some member's own `threat_level`. |
| LeafletMap.Gather | frontend/src/components/LeafletMap.jsx:131-145 | The group starts with its seed and then takes, as members, exactly the unprocessed incidents within 0.01 of the seed on both axes, each once, in ascending index order after the seed. |
| LeafletMap.ExactlyOnce | frontend/src/components/LeafletMap.jsx:126-168 | Every input incident appears exactly once across the plain entries and the clusters. |
| LeafletMap.EmitAllCovers | frontend/src/components/LeafletMap.jsx:147-167 | The markers stand for the grouped incidents group by group, in order. |
| LeafletMap.EmitFlatten | frontend/src/components/LeafletMap.jsx:147-167 | A group's markers stand for its members. |
| LeafletMap.ClusterShape | frontend/src/components/LeafletMap.jsx:138-163 | A cluster has more than three members, all near its seed (seed-relative, not pairwise). Its `count` is its member count, its id is `cluster-<seed index>`, and its level is the reduce over its members. |
| LeafletMap.HighestIsSomeLevel | frontend/src/components/LeafletMap.jsx:158-163 | A cluster's level is `LOW` or some member's `threat_level`. |
| LeafletMap.HighestIsMax | frontend/src/components/LeafletMap.jsx:158-163 | When all levels are upper-case, the result ranks at least as high as every member. |
| LeafletMap.Circle | frontend/src/components/LeafletMap.jsx:86-91 | The radius is 2 × score, with a missing or 0 score counting as 50. The colour is red above 70, amber above 40, else green. |
| LeafletMap.InitialCenter | frontend/src/components/LeafletMap.jsx:296-299 | `[0,0]` for no incidents, else the first incident's location. |
| LeafletIcons.IncidentIcon | frontend/src/lib/leafletIcons.js:81-93 | `getIncidentIcon` throws exactly when the field it consults is truthy but not text. The icon is a threat icon iff the level is truthy, and neither field gives the default pin. |
| LeafletIcons.ThreatIcon | frontend/src/lib/leafletIcons.js:84 | An unknown level falls back to the LOW icon. |
| LeafletIcons.TypeIcon | frontend/src/lib/leafletIcons.js:89 | An unknown type falls back to the default icon. |
| LeafletIcons.LevelTakesPrecedence | frontend/src/lib/leafletIcons.js:82-90 | A threat icon is chosen iff the level is truthy, and then the crime type is never consulted. |
| LeafletIcons.LevelIgnoresCase | frontend/src/lib/leafletIcons.js:82-85 | The level is matched upper-cased; an unknown level gets the LOW icon. |
| LeafletIcons.TypeWithoutLevel | frontend/src/lib/leafletIcons.js:87-92 | Without a level the type is matched lower-cased. An unknown type, or no type, gets the default icon. |
| LeafletIcons.ThrowsOnlyOnNonText | frontend/src/lib/leafletIcons.js:82-90 | Only a truthy non-text field that gets case-mapped throws. |
| IncidentMap.HasLocation | frontend/src/components/IncidentMap.jsx:20-22 | The test throws exactly on a `null` incident; true means a location object with non-null `lat` and `lng`. |
| IncidentMap.WithLocation | frontend/src/components/IncidentMap.jsx:18-23 | Throws iff some incident is `null`; otherwise it keeps exactly the located incidents as a subsequence. |
| IncidentMap.Normalise | frontend/src/components/IncidentMap.jsx:24-31 | An incident without a location object is unchanged; an object keeps its key set and every field except `location`. |
| IncidentMap.Render | frontend/src/components/IncidentMap.jsx:9-42 | Loading iff the input is falsy. Rendering throws iff the input is an array holding `null`, and the marker list handed on is never empty. |
| IncidentMap.WithLocationFacts | frontend/src/components/IncidentMap.jsx:18-23 | The filter keeps exactly the incidents whose lat and lng are both non-null, in order, and throws iff some incident is `null`. |
| IncidentMap.Guards | frontend/src/components/IncidentMap.jsx:10-39 | A falsy input is loading, and a non-array or empty input has no incidents. The "no location" error shows exactly when no incident is located. |
| IncidentMap.MarkersAreNormalisedLocated | frontend/src/components/IncidentMap.jsx:18-41 | The map receives only located incidents, normalised, in original order. |
| IncidentMap.NormaliseKeepsFields | frontend/src/components/IncidentMap.jsx:24-31 | Normalising keeps every other field and the rest of the location, converting lat and lng with `Number`. |
| AreaMap.Visible | frontend/src/app/dashboard/map/page.jsx:21-88 | The page stays loading exactly when the callback rejects. That is a failed token or incident read, or for a non-admin: a failed operator read, a `cameras` value that is neither empty nor an array, an id that `doc()` refuses, or a failed camera read. Otherwise a non-admin is shown a subsequence of all incidents. |
| AreaMap.InvalidIdStaysLoading | frontend/src/app/dashboard/map/page.jsx:62-64 | An assigned id `42`, `""` or `"a/b"` keeps the page loading, whatever the store holds. |
| AreaMap.NearCamera | frontend/src/app/dashboard/map/page.jsx:74-83 | Near means both coordinate pairs convert to numbers (NaN is never near) and differ by less than 0.01. |
| AreaMap.InAreaOf | frontend/src/app/dashboard/map/page.jsx:71-84 | The filter's result is a subsequence of the incidents, each with a truthy location near some camera. |
| AreaMap.Record | frontend/src/app/dashboard/map/page.jsx:30-33 | Every stored field is kept, and a stored `id` wins over the document id. |
| AreaMap.Cameras | frontend/src/app/dashboard/map/page.jsx:62-68 | For ids that are all valid document ids, the cameras are exactly the documents the reads found. |
| AreaMap.InAreaOfFacts | frontend/src/app/dashboard/map/page.jsx:71-84 | The filter keeps exactly the incidents in area, in order. |
| AreaMap.AdminSeesAll | frontend/src/app/dashboard/map/page.jsx:25-40 | Once the incident read succeeds, the `admin` claim sees all incidents, unfiltered, whatever the operator and camera reads would give. |
| AreaMap.NoAssignmentSeesNothing | frontend/src/app/dashboard/map/page.jsx:47-59 | Without an operator document, or with no cameras, a non-admin sees nothing. |
| AreaMap.OperatorSeesArea | frontend/src/app/dashboard/map/page.jsx:53-86 | A non-admin with assigned cameras whose ids are all valid and whose reads all succeed sees the proximity filter applied to the cameras that exist. |
| AreaMap.AssignedArea | frontend/src/app/dashboard/map/page.jsx:71-84 | The operator sees a subsequence of all incidents, each with a truthy location, strictly within 0.01 on both axes of an assigned existing camera. Every such incident is shown. |
| AreaMap.MissingCameraIgnored | frontend/src/app/dashboard/map/page.jsx:66-68 | An assigned id without a camera document changes nothing. |
| AreaMap.MapPage.OnAuth | frontend/src/app/dashboard/map/page.jsx:21-88 | No user changes nothing. Otherwise the page shows the visible incidents and stops loading, or stays loading when the callback rejects. |
| Analytics.Severity | frontend/src/app/analytics/page.js:34-38 | HIGH iff the converted confidence is at least 0.8, MEDIUM iff it is in [0.6, 0.8), and LOW for NaN. |
| Analytics.DateSource | frontend/src/app/analytics/page.js:52 | The date comes from `createdAt` or `timestamp`, and from `createdAt` whenever it is truthy. |
| Analytics.SeverityBands | frontend/src/app/analytics/page.js:34-38 | At least 0.8 is HIGH, at least 0.6 is MEDIUM, else LOW; a missing, `null` or NaN confidence is LOW. |
| Analytics.Severities | frontend/src/app/analytics/page.js:66-68 | One band per incident. |
| Analytics.ProcessSeverity | frontend/src/app/analytics/page.js:64-76 | Exactly HIGH, MEDIUM, LOW in that order, with their counts, summing to the number of incidents. |
| Analytics.BandCountsSum | frontend/src/app/analytics/page.js:65-67 | Every incident falls in exactly one band. |
| Analytics.CountBy | frontend/src/app/analytics/page.js:50-82 | The counter loop yields the tally of its keys in first-occurrence order. |
| Analytics.CreatedAtPreferred | frontend/src/app/analytics/page.js:52 | The date is taken from `createdAt` when truthy, else from `timestamp`. |
| Analytics.ProcessDaily | frontend/src/app/analytics/page.js:49-62 | The daily entries are the tally of the incidents' date keys. |
| Analytics.ProcessCamera | frontend/src/app/analytics/page.js:78-90 | The per-camera entries are the tally of the incidents' `cameraId` keys. |
| Analytics.HistogramFacts | frontend/src/app/analytics/page.js:53-88 | Each key is listed once with a count of at least one. Counts sum to the number of incidents, and exactly the occurring keys are listed. |
| OperatorDashboard.Filtered | frontend/src/app/dashboard/operator/page.js:63-68 | `all` gives the feed unchanged. Any other filter keeps only and every incident with `cameraId === filter`. |
| OperatorDashboard.CameraOptions | frontend/src/app/dashboard/operator/page.js:102-104 | The options have no duplicates, and every incident's `cameraId` is among them. |
| OperatorDashboard.Includes | frontend/src/app/dashboard/operator/page.js:71-75 | `includes` throws exactly on a value that is neither `null`, text nor an array; `null` and `undefined` give false. |
| OperatorDashboard.SeverityColor | frontend/src/app/dashboard/operator/page.js:71-75 | The colour is one of the three badge classes, and red iff the type includes `FIGHT`. |
| OperatorDashboard.FilterShowsCamera | frontend/src/app/dashboard/operator/page.js:63-68 | `all` shows every incident in order. Any other filter shows, in order, exactly the incidents with `cameraId === filter`. |
| OperatorDashboard.CameraIds | frontend/src/app/dashboard/operator/page.js:103 | One camera id per incident. |
| OperatorDashboard.OptionsAreDistinct | frontend/src/app/dashboard/operator/page.js:102-104 | The options are the distinct camera ids: each once, every id offered, and nothing else. They come in first-occurrence order: an earlier option occurs in the feed before any occurrence of a later one. |
| Seqs.DistinctInFirstOccurrenceOrder | frontend/src/app/dashboard/operator/page.js:102-104 | `[...new Set(xs)]` keeps insertion order: every value that comes earlier among the distinct values occurs in `xs` before any occurrence of a later one. |
| OperatorDashboard.ColourOfText | frontend/src/app/dashboard/operator/page.js:71-75 | Red when the type contains `FIGHT` (checked first), orange for `INTRUSION`, else yellow, case-sensitively. |
| OperatorDashboard.ColourOfOthers | frontend/src/app/dashboard/operator/page.js:71-75 | A missing type is yellow; only a non-text, non-array value throws. |
| IncidentStatus.CanAck | frontend/src/app/dashboard/operator/incidents/page.js:89-90 | Whenever ACK is offered, RESOLVE is too. |
| IncidentStatus.CanResolve | frontend/src/app/dashboard/operator/incidents/page.js:99 | RESOLVE is withheld exactly for status `resolved`. |
| IncidentStatus.StatusLabel | frontend/src/app/dashboard/operator/incidents/page.js:83 | The label shown is always truthy, and a truthy status is shown as it is. |
| IncidentStatus.Acknowledged | frontend/src/app/dashboard/operator/incidents/page.js:37-42 | ACK adds only `status` and `acknowledgedAt` as keys, and afterwards only RESOLVE is offered. |
| IncidentStatus.Resolved | frontend/src/app/dashboard/operator/incidents/page.js:44-49 | RESOLVE adds only `status` and `resolvedAt` as keys, and afterwards no button is offered. |
| IncidentStatus.AckChangesOnlyStatus | frontend/src/app/dashboard/operator/incidents/page.js:37-42 | ACK sets `status: "acknowledged"` and `acknowledgedAt` and nothing else. |
| IncidentStatus.ResolveChangesOnlyStatus | frontend/src/app/dashboard/operator/incidents/page.js:44-49 | RESOLVE sets `status: "resolved"` and `resolvedAt` and nothing else. |
| IncidentStatus.ButtonsAfterUpdates | frontend/src/app/dashboard/operator/incidents/page.js:89-107 | After ACK only RESOLVE is offered; after RESOLVE nothing is, so resolved is terminal. |
| IncidentStatus.AckImpliesResolve | frontend/src/app/dashboard/operator/incidents/page.js:89-107 | ACK offered implies RESOLVE offered; the status test is exact. |
| IncidentStatus.MissingStatusIsActive | frontend/src/app/dashboard/operator/incidents/page.js:83 | A falsy status is shown as `active`, any other as itself. |
| IncidentStatus.Incidents.HandleAck | frontend/src/app/dashboard/operator/incidents/page.js:37-42 | An existing incident is updated with the ACK fields; a missing one is left unwritten. |
| IncidentStatus.Incidents.HandleResolve | frontend/src/app/dashboard/operator/incidents/page.js:44-49 | An existing incident is updated with the RESOLVE fields; a missing one is left unwritten. |
| Middleware.Decide | frontend/middleware.js:3-17 | A redirect to the operator area happens only on an admin path without the `admin` role, and one to the admin area only on an operator path without the `operator` role. Paths outside both areas always pass. |
| Middleware.PrefixesDisjoint | frontend/middleware.js:8-14 | No path starts with both guarded prefixes, so at most one rule applies. |
| Middleware.DecideCases | frontend/middleware.js:3-17 | A wrong or missing role on `/dashboard/admin` redirects to `/dashboard/operator`, and on `/dashboard/operator` to `/dashboard/admin`. Everything else passes. |
| Middleware.RawPrefix | frontend/middleware.js:8 | The match is a raw prefix: `/dashboard/administrator` is guarded, `/dashboard` is not. |
| Middleware.MatchingRolePasses | frontend/middleware.js:8-16 | A matching role always passes. |

## Left out

- I/O and external services are not modelled; their outcomes are inputs:
  - the identity provider, document store, image host, geocoding API and AI server HTTP call;
  - socket.io;
  - the YOLO model, OpenCV capture and display.
- Concurrency is not modelled: concurrent trigger invocations and the socket.io server (`backend/src/server.js`). Each handler is one sequential run.
- Three routes are values rather than effect sequences:
  - The `/detect/image` route and `geocodeLocation` are pure functions describing what one call does (`DetectRoute.Run`, `Geocode.GeocodeLocation`).
  - The incident controller has both forms: `IncidentController.Run` and an imperative desk.
- Arithmetic is exact:
  - Floating point is exact reals: confidences, coordinates and the cluster centre average.
  - `Math.sqrt` in `_distance` is compared through squared distances.
  - Python `int()`/`float()` and large-integer details are abstract conversions.
- Date and locale formatting are abstract:
  - `toLocaleDateString` and the `cameraId`-to-key conversion are parameters of `ProcessDaily` and `ProcessCamera`.
  - `Date` parsing inside `getTimeMs` is a parser parameter.
- Analytics.ProcessDaily: `Object.keys` lists integer-like keys first, so the real key order can differ from first-occurrence order; the counts are the same.
- Analytics.ProcessCamera: same key-order caveat as `ProcessDaily`.
- Text handling:
  - Case mapping covers ASCII only.
  - `Number(text)` accepts a signed decimal with surrounding whitespace; exponent, hexadecimal and `Infinity` spellings read as NaN.
  - Prototype property names such as `toString` are not modelled.
- Document ids are any non-empty text without `/`; Firestore's other id rules and dotted field paths in `update` are not modelled.
- Cameras.UpdateCamera: models the merge at top level only; a dotted key in the request is stored as a plain field name.
- OperatorDashboard.OptionsAreDistinct: object and array camera ids are compared by value, while `Set` compares them by identity.
- Provisioning.ErrorText: every rejection is assumed to carry a text `message`. If one does not, `err.message.includes` throws inside the `catch` and the request gets no response; that case is not modelled.
- ImageDetector.NormalizeConfidence: a NaN input yields NaN (as Python's `min`/`max` do), so "always in [0,1]" is proved only for finite results.
- IncidentStatus.Incidents.HandleAck: a failing `updateDoc` is modelled only as a missing document; other store errors (permissions, network) are not.
- IncidentStatus.Incidents.HandleResolve: same limitation as `HandleAck`.
- The Flask endpoint `detect_image`, `print_config`, and the `int`/`float` environment failures at process start are not modelled; they are I/O or process start-up.
- Out-of-scope source files are not modelled:
  - UI-only pages and components: camera pages, operator admin pages, login, layout, sidebars, charts;
  - the wiring scripts `app.js` and the firebase configs;
  - `backend/scripts/setRole.js`, the test scripts and `incident.routes.js`.
- The pose detector's signal set is reported as a mathematical set; Python's `list(set(...))` order is unspecified.
