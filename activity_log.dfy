/** `logOperatorActivity`: a best-effort append to the `operator_logs` collection. */
module ActivityLog {
  import opened Base
  import opened Js
  import opened Store

  /** A destructured argument with its default for `undefined`. */
  function Arg(args: Doc, key: string, default: Json): Json {
    Get(args, key).GetOr(default)
  }

  /** The store refuses a document holding `undefined`, so the four fields without a
      default must be given. */
  predicate Storable(args: Doc) {
    "operatorUid" in args && "operatorEmail" in args && "action" in args && "description" in args
  }

  /** The record appended for `args`, committed at `now`: the four given fields,
      `cameraId` and `ipAddress` (default `null`), `metadata` (default `{}`) and the
      commit time. */
  function LogRecord(args: Doc, now: int): (r: StoredDoc)
    requires Storable(args)
    ensures r.Keys == {"operatorUid", "operatorEmail", "action", "description",
                       "cameraId", "ipAddress", "metadata", "createdAt"}
    ensures forall k :: k in {"operatorUid", "operatorEmail", "action", "description"} ==> r[k] == Val(args[k])
    ensures "cameraId" !in args ==> r["cameraId"] == Val(JNull)
    ensures "ipAddress" !in args ==> r["ipAddress"] == Val(JNull)
    ensures "metadata" !in args ==> r["metadata"] == Val(JObj(map[]))
    ensures forall k :: k in {"cameraId", "ipAddress", "metadata"} && k in args ==> r[k] == Val(args[k])
    ensures r["createdAt"] == Stamp(now)
  {
    map["operatorUid" := Val(args["operatorUid"]),
        "operatorEmail" := Val(args["operatorEmail"]),
        "action" := Val(args["action"]),
        "description" := Val(args["description"]),
        "cameraId" := Val(Arg(args, "cameraId", JNull)),
        "ipAddress" := Val(Arg(args, "ipAddress", JNull)),
        "metadata" := Val(Arg(args, "metadata", JObj(map[]))),
        "createdAt" := Stamp(now)]
  }

  /** The `operator_logs` collection, in append order. */
  class OperatorLog {
    var records: seq<StoredDoc>

    constructor()
      ensures records == []
    {
      records := [];
    }

    /** Append one record; a failing store (`fails`) or a refused document is caught
        and logged, and nothing is appended. The call never fails. */
    method LogOperatorActivity(args: Doc, now: int, fails: bool)
      modifies this
      ensures Storable(args) && !fails ==> records == old(records) + [LogRecord(args, now)]
      ensures !(Storable(args) && !fails) ==> records == old(records)
    {
      if Storable(args) && !fails {
        records := records + [LogRecord(args, now)];
      }
    }
  }
}
