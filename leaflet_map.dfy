/** The incident map's marker layer: greedy proximity clustering of incidents, the
    threat circles, and the initial centre. */
module LeafletMap {
  import opened Base
  import opened Js
  import opened Seqs

  /** An incident as the map receives it: its coordinates already converted with
      `Number` (`None` is NaN), its raw `threat_level` and `threat_score`. */
  datatype Incident = Incident(id: Json, lat: Option<real>, lng: Option<real>, level: Option<Json>, score: Option<Json>)

  /** A marker: a single incident (`cluster: false`) or a cluster of them. */
  datatype Item =
    | Single(inc: Incident)
    | Cluster(id: string, lat: Option<real>, lng: Option<real>, count: nat, members: seq<Incident>, level: Json)

  /** Both coordinate differences strictly below 0.01 degrees; NaN is never near. */
  predicate Near(a: Incident, b: Incident) {
    a.lat.Some? && b.lat.Some? && a.lng.Some? && b.lng.Some?
    && Abs(a.lat.value - b.lat.value) < 0.01 && Abs(a.lng.value - b.lng.value) < 0.01
  }

  function Plain(incs: seq<Incident>): (r: seq<Item>)
    ensures |r| == |incs| && forall k :: 0 <= k < |r| ==> r[k] == Single(incs[k])
  {
    seq(|incs|, k requires 0 <= k < |incs| => Single(incs[k]))
  }

  /** The incidents a marker stands for. */
  function Flatten(items: seq<Item>): seq<Incident> {
    if items == [] then []
    else Flatten(items[..|items| - 1]) + (match items[|items| - 1]
                                          case Single(inc) => [inc]
                                          case Cluster(_, _, _, _, members, _) => members)
  }

  lemma {:induction false} FlattenAppend(a: seq<Item>, b: seq<Item>)
    ensures Flatten(a + b) == Flatten(a) + Flatten(b)
    decreases |b|
  {
    if b == [] {
      assert a + b == a;
    } else {
      var b' := b[..|b| - 1];
      assert (a + b)[..|a + b| - 1] == a + b';
      FlattenAppend(a, b');
    }
  }

  lemma {:induction false} FlattenPlain(incs: seq<Incident>)
    ensures Flatten(Plain(incs)) == incs
  {
    if incs != [] {
      var p := incs[..|incs| - 1];
      assert Plain(incs)[..|incs| - 1] == Plain(p);
      FlattenPlain(p);
    }
  }

  // ----- the highest level of a cluster -----

  /** `levels[key] || 0` for the upper-cased level. */
  function Rank(level: Option<string>): nat {
    match level
    case Some("LOW") => 1
    case Some("MEDIUM") => 2
    case Some("HIGH") => 3
    case Some("CRITICAL") => 4
    case _ => 0
  }

  /** `levels[highest] || 0` for the running value, which is not upper-cased. */
  function RawRank(v: Json): nat {
    if v.JStr? then Rank(Some(v.s)) else 0
  }

  /** The `reduce` over `members` from `highest`; `None` when a member's level is a
      non-text value and `toUpperCase` throws. */
  function HighestFrom(highest: Json, members: seq<Incident>): Option<Json>
    decreases |members|
  {
    if members == [] then Some(highest)
    else match UpperOf(members[0].level)
      case None => None
      case Some(u) =>
        var next := if Rank(u) > RawRank(highest) then members[0].level.value else highest;
        HighestFrom(next, members[1..])
  }

  function Highest(members: seq<Incident>): (r: Option<Json>)
    ensures r.Some? ==> r.value == JStr("LOW") || exists k :: 0 <= k < |members| && members[k].level == Some(r.value)
  {
    HighestIsSomeLevel(JStr("LOW"), members);
    HighestFrom(JStr("LOW"), members)
  }

  /** The result is the starting value or some member's level. */
  lemma {:induction false} HighestIsSomeLevel(highest: Json, members: seq<Incident>)
    ensures var r := HighestFrom(highest, members);
      r.Some? ==> r.value == highest || exists k :: 0 <= k < |members| && members[k].level == Some(r.value)
    decreases |members|
  {
    if members != [] {
      var u := UpperOf(members[0].level);
      if u.Some? {
        var next := if Rank(u.value) > RawRank(highest) then members[0].level.value else highest;
        HighestIsSomeLevel(next, members[1..]);
        var r := HighestFrom(next, members[1..]);
        if r.Some? && r.value != next && r.value != highest {
          var k :| 0 <= k < |members[1..]| && members[1..][k].level == Some(r.value);
          assert members[k + 1].level == Some(r.value);
        }
      }
    }
  }

  /** The levels spelled as the ranking table spells them. */
  predicate RankedLevel(i: Incident) {
    i.level.Some? && i.level.value.JStr? && i.level.value.s in {"LOW", "MEDIUM", "HIGH", "CRITICAL"}
  }

  function LevelRank(i: Incident): nat {
    if i.level.Some? then RawRank(i.level.value) else 0
  }

  /** With upper-case levels the result is the highest-ranked one. */
  lemma {:induction false} HighestIsMax(highest: Json, members: seq<Incident>)
    requires forall k :: 0 <= k < |members| ==> RankedLevel(members[k])
    ensures HighestFrom(highest, members).Some?
    ensures RawRank(HighestFrom(highest, members).value) >= RawRank(highest)
    ensures forall k :: 0 <= k < |members| ==> RawRank(HighestFrom(highest, members).value) >= LevelRank(members[k])
    decreases |members|
  {
    if members != [] {
      var m := members[0];
      var s := m.level.value.s;
      assert Upper(s) == s by {
        assert s == "LOW" || s == "MEDIUM" || s == "HIGH" || s == "CRITICAL";
      }
      var next := if Rank(Some(s)) > RawRank(highest) then m.level.value else highest;
      assert RawRank(next) >= RawRank(highest) && RawRank(next) >= LevelRank(m);
      HighestIsMax(next, members[1..]);
      forall k | 0 <= k < |members|
        ensures RawRank(HighestFrom(highest, members).value) >= LevelRank(members[k])
      {
        if k > 0 { assert members[k] == members[1..][k - 1]; }
      }
    }
  }

  // ----- the cluster centre -----

  /** The sum of the members' coordinates (`None` once a NaN is met). */
  function SumOf(vals: seq<Option<real>>): Option<real> {
    if vals == [] then Some(0.0)
    else match (SumOf(vals[..|vals| - 1]), vals[|vals| - 1])
      case (Some(a), Some(b)) => Some(a + b)
      case _ => None
  }

  function Mean(vals: seq<Option<real>>): Option<real>
    requires vals != []
  {
    match SumOf(vals)
    case Some(t) => Some(t / |vals| as real)
    case None => None
  }

  // ----- the grouping -----

  function Members(incs: seq<Incident>, g: seq<nat>): (r: seq<Incident>)
    requires forall k :: 0 <= k < |g| ==> g[k] < |incs|
    ensures |r| == |g| && forall k :: 0 <= k < |g| ==> r[k] == incs[g[k]]
  {
    seq(|g|, k requires 0 <= k < |g| => incs[g[k]])
  }

  predicate InRange(incs: seq<Incident>, g: seq<nat>) {
    forall k :: 0 <= k < |g| ==> g[k] < |incs|
  }

  /** What one group becomes: a cluster named after its seed's index when it has
      more than three members, its members as single markers otherwise. */
  function Emit(seed: nat, members: seq<Incident>): (r: Option<seq<Item>>)
    ensures |members| <= 3 ==> r == Some(Plain(members))
    ensures r.Some? && |members| > 3 ==> |r.value| == 1 && r.value[0].Cluster? && r.value[0].count == |members|
    ensures r.None? <==> |members| > 3 && Highest(members).None?
  {
    if |members| > 3 then
      match Highest(members)
      case None => None
      case Some(level) =>
        Some([Cluster("cluster-" + NatToString(seed), Mean(seq(|members|, k requires 0 <= k < |members| => members[k].lat)),
                      Mean(seq(|members|, k requires 0 <= k < |members| => members[k].lng)), |members|, members, level)])
    else Some(Plain(members))
  }

  predicate Groups(incs: seq<Incident>, groups: seq<seq<nat>>) {
    forall t :: 0 <= t < |groups| ==> groups[t] != [] && InRange(incs, groups[t])
  }

  /** The groups' markers in order; `None` when one of them throws. */
  function EmitAll(incs: seq<Incident>, groups: seq<seq<nat>>): Option<seq<Item>>
    requires Groups(incs, groups)
  {
    if groups == [] then Some([])
    else match EmitAll(incs, groups[..|groups| - 1])
      case None => None
      case Some(prev) =>
        match (var g := groups[|groups| - 1]; Emit(g[0], Members(incs, g)))
        case None => None
        case Some(items) => Some(prev + items)
  }

  function Flat(groups: seq<seq<nat>>): seq<nat> {
    if groups == [] then [] else Flat(groups[..|groups| - 1]) + groups[|groups| - 1]
  }

  /** Every member of a group lies near its seed, and the seed comes first. */
  predicate SeedRelative(incs: seq<Incident>, groups: seq<seq<nat>>)
    requires Groups(incs, groups)
  {
    forall t, k :: 0 <= t < |groups| && 0 < k < |groups[t]| ==> Near(incs[groups[t][0]], incs[groups[t][k]])
  }

  /** The groups use every index below `n` exactly once. */
  predicate Partition(groups: seq<seq<nat>>, n: nat) {
    NoDuplicates(Flat(groups)) && (forall k :: k in Flat(groups) ==> k < n) && forall k :: 0 <= k < n ==> k in Flat(groups)
  }

  /** The indices in strictly ascending order. */
  predicate Ascending(g: seq<nat>) {
    forall a, b :: 0 <= a < b < |g| ==> g[a] < g[b]
  }

  /** The greedy rule: each group's seed is the least index that no earlier group
      took, and the group takes every index no earlier group took whose incident
      lies near the seed. */
  predicate Greedy(incs: seq<Incident>, groups: seq<seq<nat>>)
    requires Groups(incs, groups)
  {
    forall t :: 0 <= t < |groups| ==>
      && (forall j :: 0 <= j < groups[t][0] ==> j in Flat(groups[..t]))
      && (forall j :: 0 <= j < |incs| && j !in Flat(groups[..t]) && Near(incs[groups[t][0]], incs[j]) ==> j in groups[t])
  }

  /** The `groupedIncidents` memo. `groups` records, for the proof, the indices
      each seed gathered. */
  method GroupIncidents(incs: seq<Incident>) returns (out: Option<seq<Item>>, ghost groups: seq<seq<nat>>)
    ensures |incs| < 10 ==> out == Some(Plain(incs))
    ensures |incs| >= 10 ==> Groups(incs, groups) && SeedRelative(incs, groups) && NoDuplicates(Flat(groups))
    ensures |incs| >= 10 ==> Greedy(incs, groups)
    ensures |incs| >= 10 ==> forall t :: 0 <= t < |groups| ==> Ascending(groups[t])
    ensures |incs| >= 10 && out.Some? ==> Partition(groups, |incs|) && out == EmitAll(incs, groups)
    ensures |incs| >= 10 && out.None? ==> EmitAll(incs, groups).None?
  {
    groups := [];
    if |incs| < 10 {
      return Some(Plain(incs)), groups;
    }
    var clusters: seq<Item> := [];
    var processed: set<nat> := {};
    for i := 0 to |incs|
      invariant Groups(incs, groups) && SeedRelative(incs, groups) && NoDuplicates(Flat(groups))
      invariant Greedy(incs, groups)
      invariant forall t :: 0 <= t < |groups| ==> Ascending(groups[t])
      invariant forall k :: k in processed <==> k in Flat(groups)
      invariant forall k :: k in processed ==> k < |incs|
      invariant forall k :: 0 <= k < i ==> k in processed
      invariant EmitAll(incs, groups) == Some(clusters)
    {
      if i in processed {
        continue;
      }
      ghost var before := processed;
      var nearby;
      ghost var g;
      nearby, processed, g := Gather(incs, i, processed);
      AscendingStep(groups, g);
      GroupStep(incs, groups, g, before);
      GreedyStep(incs, groups, g, before);
      EmitAllSnoc(incs, groups, g);
      var items := Emit(i, nearby);
      groups := groups + [g];
      if items.None? {
        return None, groups;
      }
      clusters := clusters + items.value;
    }
    PartitionAtEnd(groups, processed, |incs|);
    out := Some(clusters);
  }

  /** The inner `forEach`: the seed `i` and every unprocessed incident near it, in
      index order, all marked processed. `g` records their indices. */
  method Gather(incs: seq<Incident>, i: nat, processed: set<nat>)
    returns (nearby: seq<Incident>, after: set<nat>, ghost g: seq<nat>)
    requires i < |incs| && i !in processed
    requires forall k :: k in processed ==> k < |incs|
    requires forall k :: 0 <= k < i ==> k in processed
    ensures g != [] && g[0] == i && InRange(incs, g) && NoDuplicates(g)
    ensures Ascending(g)
    ensures nearby == Members(incs, g)
    ensures forall k :: 0 < k < |g| ==> Near(incs[i], incs[g[k]])
    ensures forall k :: 0 <= k < |g| ==> g[k] !in processed
    ensures forall k :: k in after <==> k in processed || k in g
    ensures forall k :: k in after ==> k < |incs|
    ensures forall j :: 0 <= j < |incs| && j !in processed && Near(incs[i], incs[j]) ==> j in g
  {
    nearby := [incs[i]];
    g := [i];
    after := processed + {i};
    for j := 0 to |incs|
      invariant g != [] && g[0] == i && InRange(incs, g) && NoDuplicates(g)
      invariant Ascending(g) && forall k :: 0 <= k < |g| ==> g[k] == i || g[k] < j
      invariant nearby == Members(incs, g)
      invariant forall k :: 0 < k < |g| ==> Near(incs[i], incs[g[k]])
      invariant forall k :: 0 <= k < |g| ==> g[k] !in processed
      invariant forall k :: k in after <==> k in processed || k in g
      invariant forall k :: k in after ==> k < |incs|
      invariant forall k :: 0 <= k < j && k !in processed && Near(incs[i], incs[k]) ==> k in g
    {
      if i == j || j in after {
        continue;
      }
      if Near(incs[i], incs[j]) {
        nearby := nearby + [incs[j]];
        g := g + [j];
        after := after + {j};
      }
    }
  }

  lemma EmitAllSnoc(incs: seq<Incident>, groups: seq<seq<nat>>, g: seq<nat>)
    requires g != [] && InRange(incs, g) && Groups(incs, groups)
    ensures EmitAll(incs, groups + [g]) ==
      match EmitAll(incs, groups)
      case None => None
      case Some(prev) =>
        match Emit(g[0], Members(incs, g))
        case None => None
        case Some(items) => Some(prev + items)
  {
    assert (groups + [g])[..|groups|] == groups;
  }

  lemma GroupStep(incs: seq<Incident>, groups: seq<seq<nat>>, g: seq<nat>, before: set<nat>)
    requires Groups(incs, groups) && SeedRelative(incs, groups) && NoDuplicates(Flat(groups))
    requires forall k :: k in before <==> k in Flat(groups)
    requires g != [] && InRange(incs, g) && NoDuplicates(g)
    requires forall k :: 0 < k < |g| ==> Near(incs[g[0]], incs[g[k]])
    requires forall k :: 0 <= k < |g| ==> g[k] !in before
    ensures Groups(incs, groups + [g]) && SeedRelative(incs, groups + [g]) && NoDuplicates(Flat(groups + [g]))
    ensures Flat(groups + [g]) == Flat(groups) + g
    ensures forall k :: k in Flat(groups + [g]) <==> k in Flat(groups) || k in g
  {
    var gs := groups + [g];
    assert gs[..|gs| - 1] == groups;
    var f := Flat(groups);
    assert Flat(gs) == f + g;
    forall a, b | 0 <= a < b < |f + g| ensures (f + g)[a] != (f + g)[b] {
      if b >= |f| && a < |f| {
        assert (f + g)[a] in f;
        assert (f + g)[b] == g[b - |f|];
      } else if a >= |f| {
        assert (f + g)[a] == g[a - |f|] && (f + g)[b] == g[b - |f|];
      }
    }
  }

  lemma GreedyStep(incs: seq<Incident>, groups: seq<seq<nat>>, g: seq<nat>, before: set<nat>)
    requires Groups(incs, groups) && Greedy(incs, groups)
    requires forall k :: k in before <==> k in Flat(groups)
    requires g != [] && InRange(incs, g)
    requires forall j :: 0 <= j < g[0] ==> j in before
    requires forall j :: 0 <= j < |incs| && j !in before && Near(incs[g[0]], incs[j]) ==> j in g
    ensures Groups(incs, groups + [g]) && Greedy(incs, groups + [g])
  {
    var gs := groups + [g];
    assert gs[..|groups|] == groups;
    forall t | 0 <= t < |groups|
      ensures gs[t] == groups[t] && gs[..t] == groups[..t]
    {
    }
  }

  lemma AscendingStep(groups: seq<seq<nat>>, g: seq<nat>)
    requires forall t :: 0 <= t < |groups| ==> Ascending(groups[t])
    requires Ascending(g)
    ensures forall t :: 0 <= t < |groups + [g]| ==> Ascending((groups + [g])[t])
  {
    forall t | 0 <= t < |groups + [g]| ensures Ascending((groups + [g])[t]) {
      if t < |groups| { assert (groups + [g])[t] == groups[t]; }
    }
  }

  lemma PartitionAtEnd(groups: seq<seq<nat>>, processed: set<nat>, n: nat)
    requires NoDuplicates(Flat(groups))
    requires forall k :: k in processed <==> k in Flat(groups)
    requires forall k :: k in processed ==> k < n
    requires forall k :: 0 <= k < n ==> k in processed
    ensures Partition(groups, n)
  {
  }

  // ----- properties of the grouping -----

  lemma {:induction false} FlatInRange(incs: seq<Incident>, groups: seq<seq<nat>>)
    requires Groups(incs, groups)
    ensures InRange(incs, Flat(groups))
  {
    if groups != [] {
      var prev := groups[..|groups| - 1];
      assert Groups(incs, prev);
      FlatInRange(incs, prev);
      var f := Flat(prev);
      var g := groups[|groups| - 1];
      forall k | 0 <= k < |f + g| ensures (f + g)[k] < |incs| {
        if k >= |f| { assert (f + g)[k] == g[k - |f|]; }
      }
    }
  }

  lemma MembersAppend(incs: seq<Incident>, a: seq<nat>, b: seq<nat>)
    requires InRange(incs, a) && InRange(incs, b)
    ensures InRange(incs, a + b)
    ensures Members(incs, a + b) == Members(incs, a) + Members(incs, b)
  {
    assert forall k :: 0 <= k < |a + b| ==> (a + b)[k] == if k < |a| then a[k] else b[k - |a|];
  }

  /** A group's markers stand for its members. */
  lemma EmitFlatten(seed: nat, members: seq<Incident>)
    requires Emit(seed, members).Some?
    ensures Flatten(Emit(seed, members).value) == members
  {
    var b := Emit(seed, members).value;
    if |members| > 3 {
      assert b[..0] == [];
    } else {
      FlattenPlain(members);
    }
  }

  /** The markers stand for the grouped incidents, group by group, in order. */
  lemma {:induction false} EmitAllCovers(incs: seq<Incident>, groups: seq<seq<nat>>)
    requires Groups(incs, groups)
    requires EmitAll(incs, groups).Some?
    ensures InRange(incs, Flat(groups))
    ensures Flatten(EmitAll(incs, groups).value) == Members(incs, Flat(groups))
  {
    FlatInRange(incs, groups);
    if groups != [] {
      var prev := groups[..|groups| - 1];
      var g := groups[|groups| - 1];
      assert Groups(incs, prev);
      EmitAllCovers(incs, prev);
      var a := EmitAll(incs, prev).value;
      var b := Emit(g[0], Members(incs, g)).value;
      assert EmitAll(incs, groups).value == a + b;
      FlattenAppend(a, b);
      EmitFlatten(g[0], Members(incs, g));
      assert Flat(groups) == Flat(prev) + g;
      MembersAppend(incs, Flat(prev), g);
    }
  }

  /** Every input incident is shown exactly once: the markers' incidents are the
      input read at a sequence of indices that lists every index once. */
  lemma ExactlyOnce(incs: seq<Incident>, groups: seq<seq<nat>>)
    requires Groups(incs, groups) && Partition(groups, |incs|)
    requires EmitAll(incs, groups).Some?
    ensures var order := Flat(groups);
      && InRange(incs, order) && NoDuplicates(order) && (forall k :: k in order ==> k < |incs|) && (forall k :: 0 <= k < |incs| ==> k in order)
      && Flatten(EmitAll(incs, groups).value) == Members(incs, order)
  {
    EmitAllCovers(incs, groups);
  }

  /** A cluster has more than three members, all near its seed, `count` members,
      an id naming the seed's index, and the highest level of its members. */
  lemma {:induction false} ClusterShape(incs: seq<Incident>, groups: seq<seq<nat>>, c: Item)
    requires Groups(incs, groups) && SeedRelative(incs, groups)
    requires EmitAll(incs, groups).Some? && c in EmitAll(incs, groups).value && c.Cluster?
    ensures c.count == |c.members| > 3
    ensures exists seed :: 0 <= seed < |incs| && c.id == "cluster-" + NatToString(seed) && c.members[0] == incs[seed]
    ensures forall k :: 0 < k < |c.members| ==> Near(c.members[0], c.members[k])
    ensures Highest(c.members) == Some(c.level)
  {
    var prev := groups[..|groups| - 1];
    var g := groups[|groups| - 1];
    assert Groups(incs, prev);
    assert SeedRelative(incs, prev) by {
      forall t, k | 0 <= t < |prev| && 0 < k < |prev[t]| ensures Near(incs[prev[t][0]], incs[prev[t][k]]) {
        assert prev[t] == groups[t];
      }
    }
    var a := EmitAll(incs, prev).value;
    var b := Emit(g[0], Members(incs, g)).value;
    if c in a {
      ClusterShape(incs, prev, c);
    } else {
      assert c in b;
      assert |g| > 3;
      assert g[0] < |incs|;
    }
  }

  /** Fewer than ten incidents are shown as they are, in order. */
  lemma FewAreShownPlain(incs: seq<Incident>)
    requires |incs| < 10
    ensures Flatten(Plain(incs)) == incs
    ensures forall k :: 0 <= k < |incs| ==> Plain(incs)[k] == Single(incs[k])
  {
    FlattenPlain(incs);
  }

  // ----- threat circles and the centre -----

  /** `ThreatCircles` for one incident: the radius (`None` is NaN) and the colour.
      The score is `threat_score || 50`. */
  function Circle(score: Option<Json>): (r: (Option<real>, string))
    ensures !TruthyOpt(score) ==> r == (Some(100.0), "#F59E0B")
    ensures ToNumber(Some(OrElse(score, JNum(50.0)))).None? ==> r == (None, "#10B981")
    ensures match ToNumber(Some(OrElse(score, JNum(50.0))))
      case Some(s) =>
        && r.0 == Some(2.0 * s)
        && r.1 == (if s > 70.0 then "#EF4444" else if s > 40.0 then "#F59E0B" else "#10B981")
      case None => true
  {
    match ToNumber(Some(OrElse(score, JNum(50.0))))
    case None => (None, "#10B981")
    case Some(s) => (Some(s * 2.0), if s > 70.0 then "#EF4444" else if s > 40.0 then "#F59E0B" else "#10B981")
  }

  /** `initialCenter`. */
  function InitialCenter(incs: seq<Incident>): (r: (Option<real>, Option<real>))
    ensures incs == [] ==> r == (Some(0.0), Some(0.0))
    ensures incs != [] ==> r == (incs[0].lat, incs[0].lng)
  {
    if incs == [] then (Some(0.0), Some(0.0)) else (incs[0].lat, incs[0].lng)
  }
}
