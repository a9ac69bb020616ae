/** The camera loop's report gate: a frame with a person in it is reported at most
    once per ten-second cooldown, counted from the last post that returned. */
module Detector {

  const CooldownSeconds := 10.0

  /** The incident the loop posts: `kind` is the payload's `type` key, `image` the
      frame's base64 text. */
  datatype Payload = Payload(kind: string, confidence: real, cameraId: string, imageBase64: string)

  function ReportFor(image: string): Payload {
    Payload("PERSON_DETECTED", 0.85, "cam01", "data:image/jpeg;base64," + image)
  }

  /** Whether a frame labelled `labels`, seen at `now`, is reported. */
  function Due(labels: seq<string>, now: real, lastSent: real): (r: bool)
    ensures r ==> "person" in labels
    ensures r ==> now > lastSent + CooldownSeconds
  {
    "person" in labels && now - lastSent > CooldownSeconds
  }

  /** Successive completed sends lie more than the cooldown apart. */
  predicate Spaced(sent: seq<real>) {
    forall i :: 0 < i < |sent| ==> sent[i] - sent[i - 1] > CooldownSeconds
  }

  /** Spacing accumulates: sends `i < j` lie more than `j - i` cooldowns apart. */
  lemma {:induction false} SpacedApart(sent: seq<real>, i: nat, j: nat)
    requires Spaced(sent) && i < j < |sent|
    ensures sent[j] - sent[i] > (j - i) as real * CooldownSeconds
    decreases j - i
  {
    if j > i + 1 {
      SpacedApart(sent, i, j - 1);
      assert sent[j] - sent[j - 1] > CooldownSeconds;
    }
  }

  /** `last_sent_time` and what the loop has done with the backend. */
  class Reporter {
    var lastSent: real
    var posts: seq<Payload>     // every post attempted, in order
    var sent: seq<real>         // the times of the posts that returned

    /** `lastSent` is the time of the last completed send, 0 before any. */
    predicate Valid()
      reads this
    {
      Spaced(sent)
      && lastSent == (if sent == [] then 0.0 else sent[|sent| - 1])
      && (sent != [] ==> sent[0] > CooldownSeconds)
    }

    constructor()
      ensures Valid() && lastSent == 0.0 && posts == [] && sent == []
    {
      lastSent, posts, sent := 0.0, [], [];
    }

    /** One pass of the loop after detection: `labels` are the frame's class names,
        `now` is `time.time()`, `image` the encoded frame and `answered` whether
        `requests.post` returned (with any status) rather than raised. */
    method Frame(labels: seq<string>, now: real, image: string, answered: bool) returns (posted: bool)
      requires Valid()
      modifies this
      ensures Valid()
      ensures posted <==> Due(labels, now, old(lastSent))
      ensures posts == old(posts) + (if posted then [ReportFor(image)] else [])
      ensures sent == old(sent) + (if posted && answered then [now] else [])
      ensures lastSent == (if posted && answered then now else old(lastSent))
    {
      posted := false;
      if "person" in labels && now - lastSent > CooldownSeconds {
        posted := true;
        posts := posts + [ReportFor(image)];
        if answered {
          lastSent := now;
          sent := sent + [now];
        }
      }
    }
  }

  /** A failed post leaves `lastSent` alone, so the gate stays open: the next frame
      with a person in it, at any later time, is reported again. */
  lemma RetryAfterFailure(labels: seq<string>, lastSent: real, now: real, later: real)
    requires Due(labels, now, lastSent) && later >= now
    ensures Due(labels, later, lastSent)
  {
  }
}
