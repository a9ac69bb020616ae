/** The operator's incident list: acknowledging and resolving an incident, and the
    buttons offered for each status. */
module IncidentStatus {
  import opened Base
  import opened Js

  /** The ACK button is shown unless the incident is acknowledged or resolved. */
  function CanAck(status: Option<Json>): (r: bool)
    ensures r ==> CanResolve(status)
  {
    status != Some(JStr("acknowledged")) && status != Some(JStr("resolved"))
  }

  /** The RESOLVE button is shown unless the incident is resolved. */
  function CanResolve(status: Option<Json>): (r: bool)
    ensures !r <==> status == Some(JStr("resolved"))
  {
    status != Some(JStr("resolved"))
  }

  /** `incident.status || "active"`. */
  function StatusLabel(status: Option<Json>): (r: Json)
    ensures Truthy(r)
    ensures TruthyOpt(status) ==> r == status.value
  {
    OrElse(status, JStr("active"))
  }

  /** The fields `updateDoc` writes on ACK and on RESOLVE. */
  function Acknowledged(d: Doc, now: Json): (r: Doc)
    ensures r.Keys == d.Keys + {"status", "acknowledgedAt"}
    ensures !CanAck(Get(r, "status")) && CanResolve(Get(r, "status"))
  {
    d["status" := JStr("acknowledged")]["acknowledgedAt" := now]
  }

  function Resolved(d: Doc, now: Json): (r: Doc)
    ensures r.Keys == d.Keys + {"status", "resolvedAt"}
    ensures !CanAck(Get(r, "status")) && !CanResolve(Get(r, "status"))
  {
    d["status" := JStr("resolved")]["resolvedAt" := now]
  }

  /** ACK sets the status and its time and leaves every other field as it was. */
  lemma AckChangesOnlyStatus(d: Doc, now: Json)
    ensures var r := Acknowledged(d, now);
      && r.Keys == d.Keys + {"status", "acknowledgedAt"}
      && r["status"] == JStr("acknowledged") && r["acknowledgedAt"] == now
      && forall k :: k in d && k != "status" && k != "acknowledgedAt" ==> r[k] == d[k]
  {
  }

  /** RESOLVE sets the status and its time and leaves every other field as it was. */
  lemma ResolveChangesOnlyStatus(d: Doc, now: Json)
    ensures var r := Resolved(d, now);
      && r.Keys == d.Keys + {"status", "resolvedAt"}
      && r["status"] == JStr("resolved") && r["resolvedAt"] == now
      && forall k :: k in d && k != "status" && k != "resolvedAt" ==> r[k] == d[k]
  {
  }

  /** After ACK only RESOLVE is offered; after RESOLVE nothing is, so a resolved
      incident stays resolved. Resolving does not require acknowledging first. */
  lemma ButtonsAfterUpdates(d: Doc, now: Json)
    ensures !CanAck(Get(Acknowledged(d, now), "status")) && CanResolve(Get(Acknowledged(d, now), "status"))
    ensures !CanAck(Get(Resolved(d, now), "status")) && !CanResolve(Get(Resolved(d, now), "status"))
    ensures CanResolve(None) && CanResolve(Some(JStr("active")))
  {
  }

  /** ACK being offered implies RESOLVE is; the test is exact, so an upper-case
      `"RESOLVED"` still offers both. */
  lemma AckImpliesResolve(status: Option<Json>)
    ensures CanAck(status) ==> CanResolve(status)
    ensures CanAck(Some(JStr("RESOLVED")))
  {
  }

  /** A falsy status (missing, `null` or empty) is shown as active. */
  lemma MissingStatusIsActive(status: Option<Json>)
    ensures !TruthyOpt(status) ==> StatusLabel(status) == JStr("active")
    ensures TruthyOpt(status) ==> StatusLabel(status) == status.value
  {
  }

  /** The `incidents` collection as the page updates it. */
  class Incidents {
    var docs: map<string, Doc>

    constructor(docs0: map<string, Doc>)
      ensures docs == docs0
    {
      docs := docs0;
    }

    /** `handleAck(id)`: `updateDoc` fails on a missing document and writes
        nothing. */
    method HandleAck(id: string, now: Json) returns (updated: bool)
      modifies this
      ensures updated <==> id in old(docs)
      ensures updated ==> docs == old(docs)[id := Acknowledged(old(docs)[id], now)]
      ensures !updated ==> docs == old(docs)
    {
      updated := id in docs;
      if updated {
        docs := docs[id := Acknowledged(docs[id], now)];
      }
    }

    /** `handleResolve(id)`. */
    method HandleResolve(id: string, now: Json) returns (updated: bool)
      modifies this
      ensures updated <==> id in old(docs)
      ensures updated ==> docs == old(docs)[id := Resolved(old(docs)[id], now)]
      ensures !updated ==> docs == old(docs)
    {
      updated := id in docs;
      if updated {
        docs := docs[id := Resolved(docs[id], now)];
      }
    }
  }
}
