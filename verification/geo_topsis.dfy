/**
 The dynamic geo opportunity scorer (`GeoTOPSISPredictor.predict_score`,
 models/sawGeoModel.py). Given the points of interest that the 5 km
 spatial-index query returned around a location, it counts the support
 facilities within 500 m, finds the nearest competitor, normalises both
 features against fixed caps and returns the TOPSIS closeness of the
 weighted pair to the ideal point (0.6, 0.4) relative to the anti-ideal
 point (0, 0).
 */
module GeoTopsis {
  import opened Basics
  import opened RealSqrt
  import opened Places

  /** The `raw_data` echoed beside the score. */
  datatype RawData = RawData(supportCount: nat, competitorDist: real)

  /** `predict_score` returns either a bare float or a dict with a score. */
  datatype GeoResult = Bare(value: real) | Scored(score: real, raw: RawData)

  const SupportRadius: real := 500.0
  const NoCompetitorDistance: real := 5000.0
  const MinCompetitorDistance: real := 1.0
  const MaxSupportIdeal: real := 50.0
  const MaxDistIdeal: real := 3000.0
  const SupportWeight: real := 0.6
  const DistWeight: real := 0.4
  /** The anti-ideal point: both weighted criteria at zero. */
  const WorstSupport: real := 0.0
  const WorstDist: real := 0.0

  /** A record matches when its amenity or its shop attribute is one of
      the tags; an absent attribute never matches. */
  predicate MatchesTags(p: Poi, tags: seq<string>) {
    || (p.amenity.Some? && p.amenity.value in tags)
    || (p.shop.Some? && p.shop.value in tags)
  }

  /** `filter_by_tags`: the records of `pois` that match, in order, each
      as often as it occurs in `pois`. */
  function FilterByTags(pois: seq<Poi>, tags: seq<string>): (r: seq<Poi>)
    ensures forall p :: p in r <==> p in pois && MatchesTags(p, tags)
    ensures forall p :: multiset(r)[p] == if MatchesTags(p, tags) then multiset(pois)[p] else 0
    ensures IsSubsequence(r, pois)
  {
    var r := Filter(pois, (p: Poi) => MatchesTags(p, tags));
    assert forall p :: p in pois && MatchesTags(p, tags) ==> p in r by {
      forall p | p in pois && MatchesTags(p, tags)
        ensures p in r
      {
        assert multiset(pois)[p] > 0;
        assert multiset(r)[p] > 0;
      }
    }
    r
  }

  /** Whether a record lies within the tight support radius. */
  predicate NearEnough(p: Poi) {
    Within(p, SupportRadius)
  }

  /** `len(supports[distance <= 500])`. */
  function SupportCount(supports: seq<Poi>): (n: nat)
    ensures n <= |supports|
    ensures n == |supports| <==> forall i :: 0 <= i < |supports| ==> NearEnough(supports[i])
    ensures n == 0 <==> forall i :: 0 <= i < |supports| ==> !NearEnough(supports[i])
  {
    |Filter(supports, NearEnough)|
  }

  function Distances(pois: seq<Poi>): (ds: seq<real>)
    ensures |ds| == |pois|
    ensures forall i :: 0 <= i < |pois| ==> ds[i] == pois[i].dist
  {
    seq(|pois|, i requires 0 <= i < |pois| => pois[i].dist)
  }

  /** The nearest competitor's distance: 5000 when there is none, and
      otherwise the minimum distance raised to at least 1 metre. */
  function CompetitorDistance(competitors: seq<Poi>): (d: real)
    ensures d >= MinCompetitorDistance
    ensures |competitors| == 0 ==> d == NoCompetitorDistance
    ensures |competitors| > 0 ==>
      && (forall i :: 0 <= i < |competitors| ==>
            d <= competitors[i].dist || d == MinCompetitorDistance)
      && (exists i :: 0 <= i < |competitors| &&
            (|| d == competitors[i].dist
             || (competitors[i].dist < MinCompetitorDistance && d == MinCompetitorDistance)))
  {
    if |competitors| == 0 then NoCompetitorDistance
    else
      var ds := Distances(competitors);
      var m := MinOf(ds);
      var k :| 0 <= k < |ds| && ds[k] == m;
      assert competitors[k].dist == m;
      if m < MinCompetitorDistance then MinCompetitorDistance else m
  }

  /** Steps 3 and 4 of `predict_score`: filter the coarse subset once per
      tag list, independently, then compute the two features. */
  function ExtractFeatures(subset: seq<Poi>, competitorTags: seq<string>, supportTags: seq<string>): (raw: RawData)
    ensures raw.supportCount <= |subset|
    ensures raw.competitorDist >= MinCompetitorDistance
    ensures (forall p :: p in subset ==> !MatchesTags(p, competitorTags)) ==>
              raw.competitorDist == NoCompetitorDistance
  {
    var competitors := FilterByTags(subset, competitorTags);
    var supports := FilterByTags(subset, supportTags);
    assert |competitors| > 0 ==> competitors[0] in competitors;
    RawData(SupportCount(supports), CompetitorDistance(competitors))
  }

  /** `support_count` is the number of records of the subset that are
      support-tagged and within 500 m. */
  lemma SupportCountMeaning(subset: seq<Poi>, competitorTags: seq<string>, supportTags: seq<string>)
    ensures ExtractFeatures(subset, competitorTags, supportTags).supportCount
         == |Filter(subset, (p: Poi) => MatchesTags(p, supportTags) && NearEnough(p))|
  {
    FilterFilter(subset, (p: Poi) => MatchesTags(p, supportTags), NearEnough,
                 (p: Poi) => MatchesTags(p, supportTags) && NearEnough(p));
  }

  /** The two filters are independent: a record carrying a competitor tag
      and a support tag within 500 m feeds both features. */
  lemma SharedRecordFeedsBoth(subset: seq<Poi>, competitorTags: seq<string>, supportTags: seq<string>, k: nat)
    requires k < |subset|
    requires MatchesTags(subset[k], competitorTags) && MatchesTags(subset[k], supportTags)
    requires NearEnough(subset[k])
    ensures ExtractFeatures(subset, competitorTags, supportTags).supportCount >= 1
    ensures ExtractFeatures(subset, competitorTags, supportTags).competitorDist
         <= if subset[k].dist < MinCompetitorDistance then MinCompetitorDistance else subset[k].dist
  {
    var p := subset[k];
    var competitors := FilterByTags(subset, competitorTags);
    var supports := FilterByTags(subset, supportTags);
    assert p in supports;
    var j :| 0 <= j < |supports| && supports[j] == p;
    assert NearEnough(supports[j]);
    assert p in competitors;
    var i :| 0 <= i < |competitors| && competitors[i] == p;
    assert competitors[i].dist == p.dist;
  }

  /** `np.clip(support / 50, 0, 1)`. */
  function NormSupport(count: real): (r: real)
    ensures 0.0 <= r <= 1.0
    ensures r == 1.0 <==> count >= MaxSupportIdeal
  {
    ClipUnit(count / MaxSupportIdeal)
  }

  /** `np.clip(dist / 3000, 0, 1)`. */
  function NormDistance(dist: real): (r: real)
    ensures 0.0 <= r <= 1.0
    ensures r == 1.0 <==> dist >= MaxDistIdeal
  {
    ClipUnit(dist / MaxDistIdeal)
  }

  /** Euclidean distance of the weighted pair to the ideal point (0.6, 0.4). */
  function DPlus(sqrt: real -> real, ySupp: real, yDist: real): (d: real)
    requires IsSqrt(sqrt)
    ensures 0.0 <= d
    ensures d == 0.0 <==> ySupp == SupportWeight && yDist == DistWeight
  {
    var s := Square(ySupp - SupportWeight) + Square(yDist - DistWeight);
    ZeroIff(sqrt, s);
    SquareSumZero(ySupp - SupportWeight, yDist - DistWeight);
    sqrt(s)
  }

  /** Euclidean distance of the weighted pair to the anti-ideal point (0, 0). */
  function DMinus(sqrt: real -> real, ySupp: real, yDist: real): (d: real)
    requires IsSqrt(sqrt)
    ensures 0.0 <= d
    ensures d == 0.0 <==> ySupp == WorstSupport && yDist == WorstDist
  {
    var s := Square(ySupp - WorstSupport) + Square(yDist - WorstDist);
    ZeroIff(sqrt, s);
    SquareSumZero(ySupp - WorstSupport, yDist - WorstDist);
    sqrt(s)
  }

  /** The ideal and anti-ideal points differ, so no weighted pair is at
      distance zero from both: the `d_min + d_plus == 0` guard never fires. */
  lemma SeparationPositive(sqrt: real -> real, ySupp: real, yDist: real)
    requires IsSqrt(sqrt)
    ensures DMinus(sqrt, ySupp, yDist) + DPlus(sqrt, ySupp, yDist) > 0.0
  {
  }

  /** A ratio `m / (m + p)` of non-negative distances lies in [0, 1]. */
  lemma RatioInUnit(m: real, p: real)
    requires 0.0 <= m && 0.0 <= p && 0.0 < m + p
    ensures 0.0 <= m / (m + p) <= 1.0
    ensures m / (m + p) == 1.0 <==> p == 0.0
  {
    var q := m / (m + p);
    assert q * (m + p) == m;
  }

  /** The weighted support criterion `norm_support * 0.6`. */
  function WeightedSupport(raw: RawData): (y: real)
    ensures 0.0 <= y <= SupportWeight
  {
    NormSupport(raw.supportCount as real) * SupportWeight
  }

  /** The weighted distance criterion `norm_dist * 0.4`. */
  function WeightedDistance(raw: RawData): (y: real)
    ensures 0.0 <= y <= DistWeight
  {
    NormDistance(raw.competitorDist) * DistWeight
  }

  /** Steps 5 and 6 of `predict_score`: the closeness coefficient of the
      features, returned with the features echoed unchanged. */
  function Assess(sqrt: real -> real, raw: RawData): (r: GeoResult)
    requires IsSqrt(sqrt)
    ensures r.Scored? && r.raw == raw
    ensures 0.0 <= r.score <= 1.0
  {
    var ySupp, yDist := WeightedSupport(raw), WeightedDistance(raw);
    var dPlus, dMinus := DPlus(sqrt, ySupp, yDist), DMinus(sqrt, ySupp, yDist);
    SeparationPositive(sqrt, ySupp, yDist);
    RatioInUnit(dMinus, dPlus);
    if dMinus + dPlus == 0.0 then Bare(0.0)
    else Scored(dMinus / (dMinus + dPlus), raw)
  }

  /** `predict_score`: a bare 0.0 exactly when the coarse subset is empty,
      otherwise a score in [0, 1] with the features it was computed from. */
  function PredictScore(sqrt: real -> real, subset: seq<Poi>, competitorTags: seq<string>, supportTags: seq<string>): (r: GeoResult)
    requires IsSqrt(sqrt)
    ensures r.Bare? <==> |subset| == 0
    ensures r.Bare? ==> r.value == 0.0
    ensures r.Scored? ==> 0.0 <= r.score <= 1.0
    ensures r.Scored? ==> r.raw.supportCount <= |subset| && r.raw.competitorDist >= MinCompetitorDistance
    ensures r.Scored? ==> r.raw == ExtractFeatures(subset, competitorTags, supportTags)
    ensures r.Scored? ==> r == Assess(sqrt, r.raw)
  {
    if |subset| == 0 then Bare(0.0)
    else Assess(sqrt, ExtractFeatures(subset, competitorTags, supportTags))
  }

  /** The score reaches 1 exactly at saturation: at least 50 supports and
      the nearest competitor at least 3000 m away (then `d_plus` is 0). */
  lemma Saturation(sqrt: real -> real, raw: RawData)
    requires IsSqrt(sqrt)
    ensures Assess(sqrt, raw).score == 1.0
        <==> raw.supportCount as real >= MaxSupportIdeal && raw.competitorDist >= MaxDistIdeal
  {
    var ySupp, yDist := WeightedSupport(raw), WeightedDistance(raw);
    var dPlus, dMinus := DPlus(sqrt, ySupp, yDist), DMinus(sqrt, ySupp, yDist);
    SeparationPositive(sqrt, ySupp, yDist);
    RatioInUnit(dMinus, dPlus);
    assert ySupp == SupportWeight <==> NormSupport(raw.supportCount as real) == 1.0;
    assert yDist == DistWeight <==> NormDistance(raw.competitorDist) == 1.0;
  }

  /** A ratio `m / (m + p)` grows when `m` grows and `p` shrinks. */
  lemma RatioMonotone(m1: real, p1: real, m2: real, p2: real)
    requires 0.0 <= m1 <= m2 && 0.0 <= p2 <= p1
    requires 0.0 < m1 + p1 && 0.0 < m2 + p2
    ensures m1 / (m1 + p1) <= m2 / (m2 + p2)
  {
    var d1, d2 := m1 + p1, m2 + p2;
    var q1, q2 := m1 / d1, m2 / d2;
    assert q1 * d1 == m1;
    assert q2 * d2 == m2;
    assert m1 * p2 <= m2 * p1 by {
      assert (m2 - m1) * p2 >= 0.0;
      assert m2 * (p1 - p2) >= 0.0;
    }
    assert m1 * d2 <= m2 * d1 by {
      assert m1 * d2 == m1 * m2 + m1 * p2;
      assert m2 * d1 == m2 * m1 + m2 * p1;
    }
    var dd := d1 * d2;
    assert 0.0 < dd;
    assert q1 * dd == m1 * d2;
    assert q2 * dd == m2 * d1;
    assert (q1 - q2) * dd <= 0.0;
    if q1 > q2 {
      assert (q1 - q2) * dd > 0.0;
    }
  }

  /** Moving the weighted pair away from (0, 0) within the box
      [0, 0.6] x [0, 0.4] does not shorten its distance to (0, 0). */
  lemma DMinusMonotone(sqrt: real -> real, a1: real, b1: real, a2: real, b2: real)
    requires IsSqrt(sqrt)
    requires 0.0 <= a1 <= a2 && 0.0 <= b1 <= b2
    ensures DMinus(sqrt, a1, b1) <= DMinus(sqrt, a2, b2)
  {
    SquareMonotone(a1, a2);
    SquareMonotone(b1, b2);
    Monotone(sqrt, Square(a1 - WorstSupport) + Square(b1 - WorstDist), Square(a2 - WorstSupport) + Square(b2 - WorstDist));
  }

  /** Moving the weighted pair towards (0.6, 0.4) within the box does not
      lengthen its distance to (0.6, 0.4). */
  lemma DPlusAntitone(sqrt: real -> real, a1: real, b1: real, a2: real, b2: real)
    requires IsSqrt(sqrt)
    requires a1 <= a2 <= SupportWeight && b1 <= b2 <= DistWeight
    ensures DPlus(sqrt, a2, b2) <= DPlus(sqrt, a1, b1)
  {
    var u1, u2 := SupportWeight - a1, SupportWeight - a2;
    var v1, v2 := DistWeight - b1, DistWeight - b2;
    SquareMonotone(u2, u1);
    SquareMonotone(v2, v1);
    assert Square(a1 - SupportWeight) == Square(u1);
    assert Square(a2 - SupportWeight) == Square(u2);
    assert Square(b1 - DistWeight) == Square(v1);
    assert Square(b2 - DistWeight) == Square(v2);
    Monotone(sqrt, Square(u2) + Square(v2), Square(u1) + Square(v1));
  }

  /** Moving the weighted pair towards the ideal point, criterion by
      criterion within the box [0, 0.6] x [0, 0.4], never lowers the
      closeness coefficient. */
  lemma ClosenessMonotone(sqrt: real -> real, a1: real, b1: real, a2: real, b2: real)
    requires IsSqrt(sqrt)
    requires 0.0 <= a1 <= a2 <= SupportWeight
    requires 0.0 <= b1 <= b2 <= DistWeight
    ensures var m1, p1 := DMinus(sqrt, a1, b1), DPlus(sqrt, a1, b1);
            var m2, p2 := DMinus(sqrt, a2, b2), DPlus(sqrt, a2, b2);
            m1 / (m1 + p1) <= m2 / (m2 + p2)
  {
    DMinusMonotone(sqrt, a1, b1, a2, b2);
    DPlusAntitone(sqrt, a1, b1, a2, b2);
    SeparationPositive(sqrt, a1, b1);
    SeparationPositive(sqrt, a2, b2);
    RatioMonotone(DMinus(sqrt, a1, b1), DPlus(sqrt, a1, b1), DMinus(sqrt, a2, b2), DPlus(sqrt, a2, b2));
  }

  /** For a fixed competitor distance the score does not decrease as the
      support count grows, and for a fixed support count it does not
      decrease as the nearest competitor moves away. */
  lemma ScoreMonotone(sqrt: real -> real, raw1: RawData, raw2: RawData)
    requires IsSqrt(sqrt)
    requires raw1.supportCount <= raw2.supportCount
    requires raw1.competitorDist <= raw2.competitorDist
    ensures Assess(sqrt, raw1).score <= Assess(sqrt, raw2).score
  {
    ClipUnitMonotone(raw1.supportCount as real / MaxSupportIdeal, raw2.supportCount as real / MaxSupportIdeal);
    ClipUnitMonotone(raw1.competitorDist / MaxDistIdeal, raw2.competitorDist / MaxDistIdeal);
    ClosenessMonotone(sqrt, WeightedSupport(raw1), WeightedDistance(raw1), WeightedSupport(raw2), WeightedDistance(raw2));
    SeparationPositive(sqrt, WeightedSupport(raw1), WeightedDistance(raw1));
    SeparationPositive(sqrt, WeightedSupport(raw2), WeightedDistance(raw2));
  }

  /** For a non-empty subset, `predict_score` returns 1 exactly when the
      extracted features saturate both ideals. */
  lemma PredictSaturation(sqrt: real -> real, subset: seq<Poi>, competitorTags: seq<string>, supportTags: seq<string>)
    requires IsSqrt(sqrt)
    requires |subset| > 0
    ensures var r := PredictScore(sqrt, subset, competitorTags, supportTags);
      var raw := ExtractFeatures(subset, competitorTags, supportTags);
      r.Scored? && (r.score == 1.0 <==> raw.supportCount as real >= MaxSupportIdeal && raw.competitorDist >= MaxDistIdeal)
  {
    Saturation(sqrt, ExtractFeatures(subset, competitorTags, supportTags));
  }
}
