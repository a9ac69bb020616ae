/** The analytics page's three histograms: incidents per day, per severity band and
    per camera, each counted by a loop over the incident list. */
module Analytics {
  import opened Base
  import opened Js
  import opened Seqs

  /** The severity bands, named `"HIGH"`, `"MEDIUM"` and `"LOW"`. */
  datatype Band = High | Medium | Low

  function BandName(b: Band): string {
    match b
    case High => "HIGH"
    case Medium => "MEDIUM"
    case Low => "LOW"
  }

  /** `getSeverity(confidence)`: the comparison converts the value to a number, so a
      missing value (NaN) is LOW and `null` counts as 0. */
  function Severity(confidence: Option<Json>): (r: Band)
    ensures r == High <==> ToNumber(confidence).Some? && ToNumber(confidence).value >= 0.8
    ensures r == Medium <==> ToNumber(confidence).Some? && 0.6 <= ToNumber(confidence).value < 0.8
    ensures ToNumber(confidence).None? ==> r == Low
  {
    BandOf(ToNumber(confidence))
  }

  /** The band of a converted confidence; `None` is NaN, which compares false. */
  function BandOf(c: Option<real>): Band {
    match c
    case Some(v) => if v >= 0.8 then High else if v >= 0.6 then Medium else Low
    case None => Low
  }

  /** The three bands, with their boundaries included in the higher band. */
  lemma SeverityBands(c: real)
    ensures Severity(Some(JNum(c))) == High <==> c >= 0.8
    ensures Severity(Some(JNum(c))) == Medium <==> 0.6 <= c < 0.8
    ensures Severity(Some(JNum(c))) == Low <==> c < 0.6
    ensures Severity(None) == Low && Severity(Some(JNull)) == Low && Severity(Some(JNaN)) == Low
  {
  }

  function SeverityOf(incident: Doc): Band {
    Severity(Get(incident, "confidence"))
  }

  function Severities(incidents: seq<Doc>): (r: seq<Band>)
    ensures |r| == |incidents| && forall k :: 0 <= k < |r| ==> r[k] == SeverityOf(incidents[k])
  {
    seq(|incidents|, k requires 0 <= k < |incidents| => SeverityOf(incidents[k]))
  }

  /** `processSeverity`: the `{ HIGH: 0, MEDIUM: 0, LOW: 0 }` counter read back in
      that order. Every band is listed, even with a zero count, and the counts add up
      to the number of incidents. */
  method ProcessSeverity(incidents: seq<Doc>) returns (r: seq<(string, nat)>)
    ensures |r| == 3 && r[0].0 == "HIGH" && r[1].0 == "MEDIUM" && r[2].0 == "LOW"
    ensures r[0].1 == Occurrences(Severities(incidents), High)
    ensures r[1].1 == Occurrences(Severities(incidents), Medium)
    ensures r[2].1 == Occurrences(Severities(incidents), Low)
    ensures r[0].1 + r[1].1 + r[2].1 == |incidents|
  {
    var counts: map<Band, nat> := map[High := 0, Medium := 0, Low := 0];
    ghost var bands := Severities(incidents);
    assert bands[..0] == [];
    forall b: Band ensures b in counts && counts[b] == 0 {
      assert b.High? || b.Medium? || b.Low?;
    }
    for i := 0 to |incidents|
      invariant forall b: Band :: b in counts && counts[b] == Occurrences(bands[..i], b)
    {
      var band := SeverityOf(incidents[i]);
      assert bands[..i + 1] == bands[..i] + [band];
      forall b: Band ensures Occurrences(bands[..i + 1], b) == Occurrences(bands[..i], b) + (if band == b then 1 else 0) {
        OccurrencesSnoc(bands[..i], band, b);
      }
      counts := counts[band := counts[band] + 1];
    }
    assert bands[..|incidents|] == bands;
    BandCountsSum(bands);
    r := [(BandName(High), counts[High]), (BandName(Medium), counts[Medium]), (BandName(Low), counts[Low])];
  }

  /** Every band value is counted under exactly one band. */
  lemma {:induction false} BandCountsSum(bands: seq<Band>)
    ensures Occurrences(bands, High) + Occurrences(bands, Medium) + Occurrences(bands, Low) == |bands|
  {
    if bands != [] {
      var init, x := bands[..|bands| - 1], bands[|bands| - 1];
      BandCountsSum(init);
      assert bands == init + [x];
      OccurrencesSnoc(init, x, High);
      OccurrencesSnoc(init, x, Medium);
      OccurrencesSnoc(init, x, Low);
      assert x == High || x == Medium || x == Low;
    }
  }

  /** A counter object filled by `map[k] = (map[k] || 0) + 1` over `keys` and read
      back key by key: one entry per distinct key, in the order keys first appear,
      with its number of occurrences. */
  method CountBy<K(==)>(keys: seq<K>) returns (entries: seq<(K, nat)>)
    ensures entries == TallyOf(keys)
  {
    var counts: map<K, nat> := map[];
    var order: seq<K> := [];
    for i := 0 to |keys|
      invariant order == Distinct(keys[..i])
      invariant forall k :: k in counts <==> k in order
      invariant forall k :: k in counts ==> counts[k] == Occurrences(keys[..i], k)
    {
      var k := keys[i];
      assert keys[..i + 1][..i] == keys[..i];
      if k in counts {
        counts := counts[k := counts[k] + 1];
      } else {
        counts := counts[k := 1];
        order := order + [k];
      }
    }
    assert keys[..|keys|] == keys;
    entries := [];
    for j := 0 to |order|
      invariant |entries| == j
      invariant forall t :: 0 <= t < j ==> entries[t] == (order[t], Occurrences(keys, order[t]))
    {
      entries := entries + [(order[j], counts[order[j]])];
    }
  }

  /** The value whose date an incident is filed under: `createdAt` when truthy,
      otherwise `timestamp`. */
  function DateSource(incident: Doc): (r: Option<Json>)
    ensures r == Get(incident, "createdAt") || r == Get(incident, "timestamp")
    ensures TruthyOpt(Get(incident, "createdAt")) ==> r == Get(incident, "createdAt")
  {
    if TruthyOpt(Get(incident, "createdAt")) then Get(incident, "createdAt") else Get(incident, "timestamp")
  }

  lemma CreatedAtPreferred(incident: Doc)
    ensures TruthyOpt(Get(incident, "createdAt")) ==> DateSource(incident) == Get(incident, "createdAt")
    ensures !TruthyOpt(Get(incident, "createdAt")) ==> DateSource(incident) == Get(incident, "timestamp")
  {
  }

  /** `processDaily`; `formatDate` stands for `formatDate`, the locale's date text of
      a stored timestamp. */
  method ProcessDaily(incidents: seq<Doc>, formatDate: Option<Json> -> string) returns (r: seq<(string, nat)>)
    ensures r == TallyOf(seq(|incidents|, k requires 0 <= k < |incidents| => formatDate(DateSource(incidents[k]))))
  {
    var dates: seq<string> := [];
    for i := 0 to |incidents|
      invariant dates == seq(i, k requires 0 <= k < i => formatDate(DateSource(incidents[k])))
    {
      dates := dates + [formatDate(DateSource(incidents[i]))];
    }
    r := CountBy(dates);
  }

  /** `processCamera`; `keyOf` stands for the conversion of `cameraId` to an object
      key (`String(v)`, so a missing id is counted under `"undefined"`). */
  method ProcessCamera(incidents: seq<Doc>, keyOf: Option<Json> -> string) returns (r: seq<(string, nat)>)
    ensures r == TallyOf(seq(|incidents|, k requires 0 <= k < |incidents| => keyOf(Get(incidents[k], "cameraId"))))
  {
    var ids: seq<string> := [];
    for i := 0 to |incidents|
      invariant ids == seq(i, k requires 0 <= k < i => keyOf(Get(incidents[k], "cameraId")))
    {
      ids := ids + [keyOf(Get(incidents[i], "cameraId"))];
    }
    r := CountBy(ids);
  }

  /** Each histogram built by `CountBy` lists every key once, each with a count of
      at least one, and its counts add up to the number of incidents. */
  lemma HistogramFacts(keys: seq<string>)
    ensures NoDuplicates(seq(|TallyOf(keys)|, t requires 0 <= t < |TallyOf(keys)| => TallyOf(keys)[t].0))
    ensures forall t :: 0 <= t < |TallyOf(keys)| ==> TallyOf(keys)[t].1 >= 1
    ensures SumCounts(TallyOf(keys)) == |keys|
    ensures forall k :: k in keys <==> exists t :: 0 <= t < |TallyOf(keys)| && TallyOf(keys)[t].0 == k
  {
    TallySum(keys);
  }
}
