/** The pose-based crime detector: per-person and pairwise signals from body
    keypoints, a signal-count score and a first-match classification. The pose
    model itself is an input: the keypoints it found, if any. */
module PoseDetector {
  import opened Base
  import opened Seqs

  datatype Point = Point(x: real, y: real)

  /** The 17 keypoints of one person (0 nose, 5/6 shoulders, 7/8 elbows, 9/10
      wrists, 11/12 hips, 13/14 knees, 15/16 ankles). */
  type Pose = k: seq<Point> | |k| == 17 witness seq(17, _ => Point(0.0, 0.0))

  datatype Signal =
    | Punch | Kick | WeaponThreat | GrabNeck | Fallen
    | CloseContact | Assault | ForcedMovement

  function SignalName(s: Signal): string {
    match s
    case Punch => "PUNCH"
    case Kick => "KICK"
    case WeaponThreat => "WEAPON_THREAT"
    case GrabNeck => "GRAB_NECK"
    case Fallen => "FALLEN"
    case CloseContact => "CLOSE_CONTACT"
    case Assault => "ASSAULT"
    case ForcedMovement => "FORCED_MOVEMENT"
  }

  predicate PersonSignal(s: Signal) {
    s.Punch? || s.Kick? || s.WeaponThreat? || s.GrabNeck? || s.Fallen?
  }

  /** No per-person signal among `s`, checked from the last element back. */
  predicate OnlyInteractions(s: seq<Signal>) {
    s == [] || (!PersonSignal(s[|s| - 1]) && OnlyInteractions(s[..|s| - 1]))
  }

  lemma {:induction false} OnlyInteractionsConcat(a: seq<Signal>, b: seq<Signal>)
    requires OnlyInteractions(a) && OnlyInteractions(b)
    ensures OnlyInteractions(a + b)
    decreases |b|
  {
    if b == [] {
      assert a + b == a;
    } else {
      var init := b[..|b| - 1];
      assert (a + b)[..|a + b| - 1] == a + init;
      OnlyInteractionsConcat(a, init);
    }
  }

  /** The recursive test means what it says: no element is a per-person signal. */
  lemma {:induction false} OnlyInteractionsIndex(s: seq<Signal>)
    requires OnlyInteractions(s)
    ensures forall t :: 0 <= t < |s| ==> !PersonSignal(s[t])
  {
    if s != [] {
      var init := s[..|s| - 1];
      OnlyInteractionsIndex(init);
      assert forall t :: 0 <= t < |init| ==> s[t] == init[t];
    }
  }

  function If(c: bool, s: Signal): seq<Signal> {
    if c then [s] else []
  }

  /** The per-person tests of `_analyze_person`. Image y grows downward, so
      "above" is a smaller y. */
  predicate Punches(k: Pose) { k[9].y < k[5].y || k[10].y < k[6].y }          // a wrist above its shoulder
  predicate Kicks(k: Pose) { k[13].y < k[11].y || k[14].y < k[12].y }         // a knee above its hip
  predicate Extends(k: Pose) {                                                  // a wrist far out from its shoulder
    Abs(k[9].x - k[5].x) > 90.0 || Abs(k[10].x - k[6].x) > 90.0
  }
  predicate NearNeck(k: Pose) {                                                 // a wrist level with the nose
    Abs(k[9].y - k[0].y) < 25.0 || Abs(k[10].y - k[0].y) < 25.0
  }
  predicate Lying(k: Pose) {                                                    // hip-to-knee short against nose-to-hip
    Abs(k[11].y - k[13].y) < Abs(k[0].y - k[11].y) * 0.45
  }

  /** `_analyze_person(k)`: each of the five signals at most once, in a fixed order. */
  function PersonSignals(k: Pose): (r: seq<Signal>)
    ensures NoDuplicates(r) && |r| <= 5
    ensures forall i :: 0 <= i < |r| ==> PersonSignal(r[i])
  {
    FlagsFacts(Punches(k), Kicks(k), Extends(k), NearNeck(k), Lying(k));
    Flags(Punches(k), Kicks(k), Extends(k), NearNeck(k), Lying(k))
  }

  function Flags(punch: bool, kick: bool, weapon: bool, grab: bool, fallen: bool): seq<Signal> {
    If(punch, Punch) + If(kick, Kick) + If(weapon, WeaponThreat) + If(grab, GrabNeck) + If(fallen, Fallen)
  }

  lemma FlagsFacts(punch: bool, kick: bool, weapon: bool, grab: bool, fallen: bool)
    ensures var r := Flags(punch, kick, weapon, grab, fallen);
      && NoDuplicates(r) && |r| <= 5
      && (forall i :: 0 <= i < |r| ==> PersonSignal(r[i]))
      && (Punch in r <==> punch) && (Kick in r <==> kick) && (WeaponThreat in r <==> weapon)
      && (GrabNeck in r <==> grab) && (Fallen in r <==> fallen)
  {
    var r4 := If(punch, Punch) + If(kick, Kick) + If(weapon, WeaponThreat) + If(grab, GrabNeck);
    FourFlags(punch, kick, weapon, grab);
    AddFlag(r4, fallen, Fallen, 4);
  }

  lemma FourFlags(punch: bool, kick: bool, weapon: bool, grab: bool)
    ensures var r := If(punch, Punch) + If(kick, Kick) + If(weapon, WeaponThreat) + If(grab, GrabNeck);
      && Listed(r, 4) && Fallen !in r
      && (Punch in r <==> punch) && (Kick in r <==> kick) && (WeaponThreat in r <==> weapon) && (GrabNeck in r <==> grab)
  {
    var r2 := If(punch, Punch) + If(kick, Kick);
    TwoFlags(punch, kick);
    AddFlag(r2, weapon, WeaponThreat, 2);
    AddFlag(r2 + If(weapon, WeaponThreat), grab, GrabNeck, 3);
  }

  lemma TwoFlags(punch: bool, kick: bool)
    ensures var r := If(punch, Punch) + If(kick, Kick);
      && Listed(r, 2) && (Punch in r <==> punch) && (Kick in r <==> kick)
      && WeaponThreat !in r && GrabNeck !in r && Fallen !in r
  {
    AddFlag([], punch, Punch, 0);
    assert [] + If(punch, Punch) == If(punch, Punch);
    AddFlag(If(punch, Punch), kick, Kick, 1);
  }

  /** At most `n` per-person signals, none twice. */
  predicate Listed(r: seq<Signal>, n: nat) {
    NoDuplicates(r) && |r| <= n && forall i :: 0 <= i < |r| ==> PersonSignal(r[i])
  }

  /** Appending a signal that is not yet listed keeps the list free of duplicates
      and of anything but per-person signals. */
  lemma AddFlag(xs: seq<Signal>, c: bool, s: Signal, n: nat)
    requires Listed(xs, n) && s !in xs && PersonSignal(s)
    ensures var r := xs + If(c, s);
      && Listed(r, n + 1) && (s in r <==> c)
      && (forall x :: x != s ==> (x in r <==> x in xs))
  {
  }

  /** Each signal is present exactly when its test holds, once, and nothing else is. */
  lemma PersonSignalsFacts(k: Pose)
    ensures var r := PersonSignals(k);
      && NoDuplicates(r) && |r| <= 5
      && (forall i :: 0 <= i < |r| ==> PersonSignal(r[i]))
      && (Punch in r <==> Punches(k)) && (Kick in r <==> Kicks(k))
      && (WeaponThreat in r <==> Extends(k)) && (GrabNeck in r <==> NearNeck(k))
      && (Fallen in r <==> Lying(k))
  {
    FlagsFacts(Punches(k), Kicks(k), Extends(k), NearNeck(k), Lying(k));
  }

  function SquaredDistance(a: Point, b: Point): (r: real)
    ensures r >= 0.0
  {
    (a.x - b.x) * (a.x - b.x) + (a.y - b.y) * (a.y - b.y)
  }

  /** The three pair tests. A distance below `d` is a squared distance below `d * d`. */
  predicate Close(a: Pose, b: Pose) {
    SquaredDistance(a[11], b[11]) < 140.0 * 140.0
  }

  predicate WristAtHead(a: Pose, b: Pose) {
    SquaredDistance(a[9], b[0]) < 35.0 * 35.0
  }

  predicate WristsAligned(a: Pose, b: Pose) {
    Abs(a[9].x - b[9].x) < 20.0
  }

  function PairFlags(close: bool, strike: bool, aligned: bool): seq<Signal> {
    If(close, CloseContact) + If(strike, Assault) + If(aligned, ForcedMovement)
  }

  lemma PairFlagsFacts(close: bool, strike: bool, aligned: bool)
    ensures var r := PairFlags(close, strike, aligned);
      && |r| <= 3 && OnlyInteractions(r)
      && (CloseContact in r <==> close) && (Assault in r <==> strike) && (ForcedMovement in r <==> aligned)
  {
    var a, b, c := If(close, CloseContact), If(strike, Assault), If(aligned, ForcedMovement);
    assert OnlyInteractions(a) && OnlyInteractions(b) && OnlyInteractions(c) by {
      assert [CloseContact][..0] == [] && [Assault][..0] == [] && [ForcedMovement][..0] == [];
    }
    OnlyInteractionsConcat(a, b);
    OnlyInteractionsConcat(a + b, c);
  }

  /** The signals of the pair `(a, b)`, `a` coming first: close contact when the
      hips are within 140, assault when `a`'s left wrist is within 35 of `b`'s nose,
      forced movement when their left wrists are within 20 horizontally. */
  function PairSignals(a: Pose, b: Pose): (r: seq<Signal>)
    ensures |r| <= 3 && OnlyInteractions(r)
    ensures CloseContact in r <==> Close(a, b)
  {
    PairFlagsFacts(Close(a, b), WristAtHead(a, b), WristsAligned(a, b));
    PairFlags(Close(a, b), WristAtHead(a, b), WristsAligned(a, b))
  }

  /** At most three signals per pair, none of them a per-person one, each present
      exactly when its test holds. */
  lemma PairSignalsFacts(a: Pose, b: Pose)
    ensures var r := PairSignals(a, b);
      && |r| <= 3 && OnlyInteractions(r)
      && (CloseContact in r <==> Close(a, b)) && (Assault in r <==> WristAtHead(a, b))
      && (ForcedMovement in r <==> WristsAligned(a, b))
  {
    PairFlagsFacts(Close(a, b), WristAtHead(a, b), WristsAligned(a, b));
  }

  /** The pairs `(i, i+1) .. (i, j-1)`, in order. */
  function Row(poses: seq<Pose>, i: nat, j: nat): seq<Signal>
    requires i < |poses| && j <= |poses|
    decreases j
  {
    if j <= i + 1 then [] else Row(poses, i, j - 1) + PairSignals(poses[i], poses[j - 1])
  }

  /** Every pair whose first member is below `i`, in loop order. */
  function RowsUpTo(poses: seq<Pose>, i: nat): seq<Signal>
    requires i <= |poses|
  {
    if i == 0 then [] else RowsUpTo(poses, i - 1) + Row(poses, i - 1, |poses|)
  }

  /** `_analyze_interactions`: every unordered pair `i < j` once. */
  function Interactions(poses: seq<Pose>): (r: seq<Signal>)
    ensures OnlyInteractions(r)
    ensures |r| <= 3 * (|poses| * |poses|)
  {
    RowsKinds(poses, |poses|);
    RowsLength(poses, |poses|);
    RowsUpTo(poses, |poses|)
  }

  lemma {:induction false} RowBounds(poses: seq<Pose>, i: nat, j: nat)
    requires i < |poses| && j <= |poses|
    ensures |Row(poses, i, j)| <= 3 * (if j > i then j - i - 1 else 0)
    ensures OnlyInteractions(Row(poses, i, j))
    decreases j
  {
    if j > i + 1 {
      RowBounds(poses, i, j - 1);
      PairSignalsFacts(poses[i], poses[j - 1]);
      OnlyInteractionsConcat(Row(poses, i, j - 1), PairSignals(poses[i], poses[j - 1]));
    }
  }

  lemma {:induction false} RowsKinds(poses: seq<Pose>, i: nat)
    requires i <= |poses|
    ensures OnlyInteractions(RowsUpTo(poses, i))
  {
    if i > 0 {
      RowsKinds(poses, i - 1);
      RowBounds(poses, i - 1, |poses|);
      OnlyInteractionsConcat(RowsUpTo(poses, i - 1), Row(poses, i - 1, |poses|));
    }
  }

  /** No interaction signal is a per-person one. */
  lemma InteractionKinds(poses: seq<Pose>)
    ensures forall t :: 0 <= t < |Interactions(poses)| ==> !PersonSignal(Interactions(poses)[t])
  {
    RowsKinds(poses, |poses|);
    OnlyInteractionsIndex(Interactions(poses));
  }

  /** Each person meets at most `n - 1` others, three signals per pair at most. */
  lemma {:induction false} RowsLength(poses: seq<Pose>, i: nat)
    requires i <= |poses|
    ensures |RowsUpTo(poses, i)| <= 3 * (i * |poses|)
  {
    if i > 0 {
      var n := |poses|;
      RowsLength(poses, i - 1);
      RowBounds(poses, i - 1, n);
      var prev, row := RowsUpTo(poses, i - 1), Row(poses, i - 1, n);
      assert RowsUpTo(poses, i) == prev + row;
      assert |prev| <= 3 * ((i - 1) * n);
      assert |row| <= 3 * n;
      MulStep(i, n);
    }
  }

  lemma MulStep(i: nat, n: nat)
    requires i > 0
    ensures (i - 1) * n + n == i * n
  {
  }

  /** The nested loops of `_analyze_interactions`. */
  method AnalyzeInteractions(poses: seq<Pose>) returns (s: seq<Signal>)
    ensures s == Interactions(poses)
  {
    s := [];
    var n := |poses|;
    for i := 0 to n
      invariant s == RowsUpTo(poses, i)
    {
      ghost var before := s;
      for j := i + 1 to n
        invariant s == before + Row(poses, i, j)
      {
        AppendAssoc(before, Row(poses, i, j), PairSignals(poses[i], poses[j]));
        s := s + PairSignals(poses[i], poses[j]);
      }
    }
  }

  /** The per-person signals of every person, in order. */
  function AllPersonSignals(poses: seq<Pose>): seq<Signal> {
    if poses == [] then []
    else AllPersonSignals(poses[..|poses| - 1]) + PersonSignals(poses[|poses| - 1])
  }

  /** Only per-person signals come from the per-person pass. */
  lemma {:induction false} AllPersonKinds(poses: seq<Pose>)
    ensures forall t :: 0 <= t < |AllPersonSignals(poses)| ==> PersonSignal(AllPersonSignals(poses)[t])
  {
    if poses != [] {
      var a, b := AllPersonSignals(poses[..|poses| - 1]), PersonSignals(poses[|poses| - 1]);
      AllPersonKinds(poses[..|poses| - 1]);
      PersonSignalsFacts(poses[|poses| - 1]);
      assert AllPersonSignals(poses) == a + b;
      forall t | 0 <= t < |a + b| ensures PersonSignal((a + b)[t]) {
        if t >= |a| { assert (a + b)[t] == b[t - |a|]; }
      }
    }
  }

  /** Everything `analyze` collects before de-duplication. */
  function RawSignals(poses: seq<Pose>): (r: seq<Signal>)
    ensures |poses| < 2 ==> forall t :: 0 <= t < |r| ==> PersonSignal(r[t])
    ensures |r| >= |AllPersonSignals(poses)|
  {
    AllPersonKinds(poses);
    AllPersonSignals(poses) + (if |poses| >= 2 then Interactions(poses) else [])
  }

  /** `_classify(signals, persons)`: the first rule that matches. */
  function Classify(s: set<Signal>, persons: nat): (r: (string, string))
    ensures r.1 in {"HIGH", "MEDIUM", "LOW"}
    ensures r.1 == "MEDIUM" <==> r.0 == "Robbery / Mugging"
    ensures r.1 == "LOW" <==> r.0 == "Normal"
    ensures GrabNeck in s ==> r == ("Choking / Attempted Murder", "HIGH")
  {
    if GrabNeck in s then ("Choking / Attempted Murder", "HIGH")
    else if WeaponThreat in s && CloseContact in s then ("Assault with Weapon", "HIGH")
    else if ForcedMovement in s then ("Kidnapping / Abduction", "HIGH")
    else if Fallen in s && persons >= 2 then ("Assault on Fallen Victim", "HIGH")
    else if persons >= 3 && (Punch in s || Kick in s) then ("Crowd Violence / Riot", "HIGH")
    else if Punch in s || Kick in s then ("Fight / Physical Violence", "HIGH")
    else if CloseContact in s && persons == 2 then ("Robbery / Mugging", "MEDIUM")
    else ("Normal", "LOW")
  }

  /** The result `analyze` returns. */
  datatype PoseResult = PoseResult(
    persons: nat, signals: set<Signal>, threatScore: int, crimeDetected: bool,
    crimeType: string, threatLevel: string, confidence: int)

  /** The distinct signals, as `set(signals)` reports them. */
  function Elements(raw: seq<Signal>): (r: set<Signal>)
    ensures forall t :: t in r <==> t in raw
  {
    set t | t in raw
  }

  /** The result for `persons` people and the raw signal list. */
  function ResultOf(persons: nat, raw: seq<Signal>): (r: PoseResult)
    ensures r.threatScore == Min(100, 15 * |raw|) && r.confidence == r.threatScore
    ensures r.crimeDetected <==> |raw| >= 3
    ensures r.signals == Elements(raw)
    ensures (r.crimeType, r.threatLevel) == Classify(Elements(raw), persons)
  {
    var score := Min(100, |raw| * 15);
    var (crimeType, level) := Classify(Elements(raw), persons);
    PoseResult(persons, Elements(raw), score, score >= 45, crimeType, level, score)
  }

  /** `_empty_result()`. */
  const EmptyResult := PoseResult(0, {}, 0, false, "Normal", "LOW", 0)

  /** `analyze(image)` given the model's keypoints (`None`: it found none). */
  method Analyze(keypoints: Option<seq<Pose>>) returns (r: PoseResult)
    ensures keypoints.None? ==> r == EmptyResult
    ensures keypoints.Some? ==> r == ResultOf(|keypoints.value|, RawSignals(keypoints.value))
  {
    if keypoints.None? {
      return EmptyResult;
    }
    var poses := keypoints.value;
    var signals: seq<Signal> := [];
    for p := 0 to |poses|
      invariant signals == AllPersonSignals(poses[..p])
    {
      assert poses[..p + 1][..p] == poses[..p];
      assert AllPersonSignals(poses[..p + 1]) == AllPersonSignals(poses[..p]) + PersonSignals(poses[p]);
      signals := signals + PersonSignals(poses[p]);
    }
    assert poses[..|poses|] == poses;
    if |poses| >= 2 {
      var pairs := AnalyzeInteractions(poses);
      signals := signals + pairs;
    } else {
      assert signals + [] == signals;
    }
    assert signals == RawSignals(poses);
    r := ResultOf(|poses|, signals);
  }

  // ----- properties -----

  /** No one in view gives the empty result. */
  lemma NoPersonsIsEmpty()
    ensures ResultOf(0, RawSignals([])) == EmptyResult
  {
  }

  /** A lone person produces no interaction signals. */
  lemma LoneInteractions(poses: seq<Pose>)
    requires |poses| < 2
    ensures RawSignals(poses) == AllPersonSignals(poses)
    ensures Interactions(poses) == []
  {
    if |poses| == 1 {
      assert Row(poses, 0, 1) == [];
      assert RowsUpTo(poses, 1) == RowsUpTo(poses, 0) + Row(poses, 0, 1);
    }
  }

  /** The interaction signals of `n` people number at most `3 n^2`, and the
      per-person ones at most five per person. */
  lemma {:induction false} SignalCounts(poses: seq<Pose>)
    ensures |AllPersonSignals(poses)| <= 5 * |poses|
    ensures |Interactions(poses)| <= 3 * (|poses| * |poses|)
  {
    RowsLength(poses, |poses|);
    PersonCount(poses);
  }

  lemma {:induction false} PersonCount(poses: seq<Pose>)
    ensures |AllPersonSignals(poses)| <= 5 * |poses|
  {
    if poses != [] {
      PersonCount(poses[..|poses| - 1]);
      PersonSignalsFacts(poses[|poses| - 1]);
    }
  }

  /** The classes the classifier can give never include `CRITICAL`. */
  lemma NeverCritical(s: set<Signal>, persons: nat)
    ensures Classify(s, persons).1 != "CRITICAL"
  {
  }

  /** Duplicates count toward the score but are reported once: two people both
      punching give one reported `PUNCH` and a score of 30 or more. */
  lemma DuplicatesCount(raw: seq<Signal>, persons: nat)
    requires |raw| == 3 && raw[0] == raw[1] == raw[2]
    ensures ResultOf(persons, raw).signals == {raw[0]}
    ensures ResultOf(persons, raw).threatScore == 45 && ResultOf(persons, raw).crimeDetected
  {
  }
}
