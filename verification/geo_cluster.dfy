/**
 The cluster-based geo scorer (`GeoPredictor`, models/geo_model.py). It
 counts competitors and supports within 500 m (by amenity only, with no
 correction for the location itself), asks the trained model for a
 cluster id, and turns the cluster's name into a base score (0.9 for a
 "high" cluster, 0.6 for a "medium" one, 0.3 otherwise), raised by 0.001
 per support facility and capped at 1.0. A predictor whose model files
 could not be loaded answers 0.1.
 */
module ClusterScore {
  import opened Basics
  import opened Places
  import opened LocalGeo

  /** A predictor after construction: either the model files were missing
      (`self.model = None`) or the cluster-name map was loaded. The scaler
      and the KMeans model themselves are the `classify` parameter below. */
  datatype Predictor = Unloaded | Loaded(labels: map<int, string>)

  const UnloadedScore: real := 0.1
  const HighScore: real := 0.9
  const MediumScore: real := 0.6
  const LowScore: real := 0.3
  const SupportBonus: real := 0.001

  /** `_get_features`: the competitor and support matches among the records
      within 500 m, counted by amenity, (0, 0) without neighbours. The same
      tag lists as models/localGeoModel.py are used. */
  function GetFeatures(pois: seq<Poi>): (f: Features)
    ensures |Neighbours(pois, Radius)| == 0 ==> f == Features(0, 0)
    ensures f.competitors == |NearbyWithAmenity(pois, CompetitorTags)|
    ensures f.supports == |NearbyWithAmenity(pois, SupportTags)|
  {
    var neighbours := Neighbours(pois, Radius);
    NeighbourCount(pois, CompetitorTags);
    NeighbourCount(pois, SupportTags);
    if |neighbours| == 0 then Features(0, 0)
    else Features(AmenityCount(neighbours, CompetitorTags), AmenityCount(neighbours, SupportTags))
  }

  /** The offline counter and this one agree on supports, and the offline
      counter reports one competitor fewer (never below zero). */
  lemma CountersAgree(pois: seq<Poi>)
    ensures SurroundingFeatures(pois).supports == GetFeatures(pois).supports
    ensures var c := GetFeatures(pois).competitors;
            SurroundingFeatures(pois).competitors == if c == 0 then 0 else c - 1
  {
  }

  /** ASCII lower-casing of one character. */
  function LowerChar(c: char): char {
    if 'A' <= c <= 'Z' then (c as int + 32) as char else c
  }

  /** `str.lower()` on ASCII text. */
  function Lower(s: string): (r: string)
    ensures |r| == |s|
    ensures forall i :: 0 <= i < |s| ==> r[i] == LowerChar(s[i])
  {
    seq(|s|, i requires 0 <= i < |s| => LowerChar(s[i]))
  }

  /** `sub` occurs in `s` starting at position `i`. */
  predicate OccursAt(s: string, sub: string, i: int) {
    0 <= i <= |s| - |sub| && s[i..i + |sub|] == sub
  }

  /** `sub in s` for strings: `sub` occurs in `s` at some position. */
  predicate Contains(s: string, sub: string) {
    exists i :: 0 <= i <= |s| - |sub| && OccursAt(s, sub, i)
  }

  /** A non-empty pattern whose first character is missing does not occur. */
  lemma NotContains(s: string, sub: string)
    requires |sub| > 0 && sub[0] !in s
    ensures !Contains(s, sub)
  {
    forall i | 0 <= i <= |s| - |sub|
      ensures !OccursAt(s, sub, i)
    {
      assert s[i..i + |sub|][0] == s[i];
    }
  }

  /** The base score of a cluster name: "high" is looked for first, then
      "medium", in the lower-cased name. */
  function BaseScore(name: string): (r: real)
    ensures r in {HighScore, MediumScore, LowScore}
    ensures r == HighScore <==> Contains(Lower(name), "high")
    ensures r == MediumScore <==> !Contains(Lower(name), "high") && Contains(Lower(name), "medium")
  {
    var text := Lower(name);
    if Contains(text, "high") then HighScore
    else if Contains(text, "medium") then MediumScore
    else LowScore
  }

  /** `min(base + supp * 0.001, 1.0)`. */
  function CappedScore(base: real, supports: nat): (r: real)
    ensures r <= 1.0
    ensures r == 1.0 <==> base + SupportBonus * supports as real >= 1.0
    ensures r < 1.0 ==> r == base + SupportBonus * supports as real
  {
    var raw := base + SupportBonus * supports as real;
    if raw < 1.0 then raw else 1.0
  }

  /** The name a cluster id maps to, "" for an id missing from the map. */
  function LabelOf(labels: map<int, string>, id: int): string {
    if id in labels then labels[id] else ""
  }

  /** `predict_score`: 0.1 from a predictor that failed to load; otherwise
      the capped score of the cluster the features fall into, which lies
      in [0.3, 1.0]. */
  function PredictScore(predictor: Predictor, classify: Features -> int, pois: seq<Poi>): (r: real)
    ensures predictor.Unloaded? ==> r == UnloadedScore
    ensures predictor.Loaded? ==> LowScore <= r <= 1.0
  {
    match predictor
    case Unloaded => UnloadedScore
    case Loaded(labels) =>
      var features := GetFeatures(pois);
      var base := BaseScore(LabelOf(labels, classify(features)));
      CappedScore(base, features.supports)
  }

  /** For a fixed base score, more supports never lower the score. */
  lemma ScoreMonotone(base: real, s1: nat, s2: nat)
    requires s1 <= s2
    ensures CappedScore(base, s1) <= CappedScore(base, s2)
  {
  }

  /** A "high" cluster with at least 100 supports scores exactly 1.0. */
  lemma HighSaturates(name: string, supports: nat)
    requires Contains(Lower(name), "high")
    requires supports >= 100
    ensures CappedScore(BaseScore(name), supports) == 1.0
  {
  }

  /** An id the name map does not know has the empty name, hence the low
      base score. */
  lemma UnknownClusterIsLow(labels: map<int, string>, id: int)
    requires id !in labels
    ensures BaseScore(LabelOf(labels, id)) == LowScore
  {
    NotContains(Lower(""), "high");
    NotContains(Lower(""), "medium");
  }

  /** `Lower(s) == t` when `t` is `s` lower-cased character by character. */
  lemma LowerIs(s: string, t: string)
    requires |s| == |t|
    requires forall i :: 0 <= i < |s| ==> LowerChar(s[i]) == t[i]
    ensures Lower(s) == t
  {
  }

  /** The names the training step hands out score 0.3, 0.6 and 0.9, in the
      order of ascending support they are handed out in. */
  lemma NamesScoreInOrder()
    ensures BaseScore(ClusterNames[0]) == LowScore
    ensures BaseScore(ClusterNames[1]) == MediumScore
    ensures BaseScore(ClusterNames[2]) == HighScore
  {
    var low, medium, high := "low potential (sepi)", "medium potential", "high potential (strategis)";
    LowerIs(ClusterNames[0], low);
    LowerIs(ClusterNames[1], medium);
    LowerIs(ClusterNames[2], high);
    NotContains(low, "high");
    NotContains(low, "medium");
    NotContains(medium, "high");
    assert OccursAt(medium, "medium", 0);
    assert OccursAt(high, "high", 0);
  }
}
