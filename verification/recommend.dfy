/**
 The recommendation endpoint `recommend_location` (app.py). It validates
 the request, scores every candidate location with the geo scorer for
 the business type's competitor and support tags, blends the geo score
 with the review sentiment and a rent value into `Final_Vi`, attaches
 the explanation and the tags, ranks the locations by descending
 `Final_Vi` with ties sharing the best rank, and returns them by rank.

 The spatial query around a location's coordinates and the sentiment
 analysis of its reviews are inputs here: a candidate carries the points
 of interest the 5 km query returned (or nothing when its coordinates
 are missing) and its sentiment score.
 */
module Recommend {
  import opened Basics
  import opened RealSqrt
  import opened Sorting
  import opened Ranking
  import opened Places
  import opened GeoTopsis
  import opened Narrative

  /** The competitor and support tags of a business type. */
  datatype Config = Config(competitor: seq<string>, support: seq<string>)

  /** `BUSINESS_CONFIG`: the five known business types. */
  function BusinessConfig(name: string): Option<Config> {
    if name == "restaurant" then
      Some(Config(["restaurant", "cafe", "fast_food"], ["office", "school", "university", "bank", "station", "mall"]))
    else if name == "minimarket" then
      Some(Config(["convenience", "supermarket"], ["school", "residential", "bank", "station"]))
    else if name == "workshop" then
      Some(Config(["car_repair", "tyres"], ["fuel", "parking"]))
    else if name == "pharmacy" then
      Some(Config(["pharmacy"], ["hospital", "clinic"]))
    else if name == "electronics" then
      Some(Config(["electronics", "mobile_phone"], ["mall", "atm"]))
    else None
  }

  const DefaultBusinessType: string := "restaurant"
  /** The rent assumed when a candidate gives none, and the rent at and
      below which the rent value is full. */
  const DefaultRent: real := 100000000.0
  const RentReference: real := 100000000.0

  const GeoWeight: real := 0.6
  const SentimentWeight: real := 0.3
  const RentWeight: real := 0.1

  /** A candidate location: its id, the points of interest around it (none
      when `lat` or `lon` is missing), its rent if given, and the
      sentiment score of its reviews. */
  datatype Alternative = Alternative(id: string, surroundings: Option<seq<Poi>>, sewa: Option<real>, sentiment: real)

  /** A request body. */
  datatype Request = Request(alternatives: Option<seq<Alternative>>, businessType: Option<string>)

  /** One scored location before ranking. */
  datatype Evaluation = Evaluation(
    id: string, businessType: string, finalVi: real,
    geo: real, sentiment: real, priceValue: real,
    raw: RawData, analysis: seq<Reason>, tags: seq<Label>)

  /** One entry of the response: a scored location and its rank. */
  datatype Recommendation = Recommendation(evaluation: Evaluation, ranking: nat)

  /** Why a request is rejected with status 400. */
  datatype Problem = MissingAlternatives | UnknownBusinessType(name: string)

  /** The response: 400, 500 (an exception while scoring), or 200 with the
      ranked locations. */
  datatype Response = BadRequest(problem: Problem) | ServerError | Success(data: seq<Recommendation>)

  /** The rent value: `100000000 / sewa` (dividing by 1 instead when the
      rent is not positive), capped to [0, 1]. It is full exactly when the
      rent is at most 100 000 000. */
  function NormRent(sewa: real): (r: real)
    ensures 0.0 <= r <= 1.0
    ensures r == 1.0 <==> sewa <= RentReference
    ensures sewa > RentReference ==> r == RentReference / sewa
  {
    var raw := RentReference / (if sewa > 0.0 then sewa else 1.0);
    assert sewa > RentReference ==> 0.0 <= raw < 1.0 by {
      if sewa > RentReference {
        QuotientInUnit(RentReference, sewa);
      }
    }
    if raw > 1.0 then 1.0 else if raw < 0.0 then 0.0 else raw
  }

  /** A higher rent never gives a higher rent value. */
  lemma NormRentAntitone(s1: real, s2: real)
    requires s1 <= s2
    ensures NormRent(s2) <= NormRent(s1)
  {
    if s1 > RentReference {
      QuotientAntitone(RentReference, s1, s2);
    }
  }

  /** `Final_Vi`: 60% geo score, 30% sentiment, 10% rent value. */
  function FinalVi(geo: real, sentiment: real, priceValue: real): real {
    geo * GeoWeight + sentiment * SentimentWeight + priceValue * RentWeight
  }

  /** With all three parts in [0, 1], `Final_Vi` lies in [0, 1]. */
  lemma FinalViInUnit(geo: real, sentiment: real, priceValue: real)
    requires 0.0 <= geo <= 1.0 && 0.0 <= sentiment <= 1.0 && 0.0 <= priceValue <= 1.0
    ensures 0.0 <= FinalVi(geo, sentiment, priceValue) <= 1.0
  {
    ScaleWithin(geo, GeoWeight);
    ScaleWithin(sentiment, SentimentWeight);
    ScaleWithin(priceValue, RentWeight);
  }

  /** `Final_Vi` never falls when one of its parts rises. */
  lemma FinalViMonotone(g1: real, s1: real, p1: real, g2: real, s2: real, p2: real)
    requires g1 <= g2 && s1 <= s2 && p1 <= p2
    ensures FinalVi(g1, s1, p1) <= FinalVi(g2, s2, p2)
  {
    ScaleMonotone(g2, g1, GeoWeight);
    ScaleMonotone(s2, s1, SentimentWeight);
    ScaleMonotone(p2, p1, RentWeight);
  }

  /** A candidate the loop can score: its coordinates are present (no
      `KeyError`) and the query around it found something (otherwise the
      geo scorer returns a bare 0.0 and `geo_result['score']` raises). */
  predicate Scorable(a: Alternative) {
    a.surroundings.Some? && |a.surroundings.value| > 0
  }

  /** The loop body for one candidate; nothing where it raises. */
  function Evaluate(sqrt: real -> real, config: Config, businessType: string, a: Alternative): (e: Option<Evaluation>)
    requires IsSqrt(sqrt)
    ensures e.Some? <==> Scorable(a)
    ensures e.Some? ==>
      && e.value.id == a.id && e.value.businessType == businessType
      && 0.0 <= e.value.geo <= 1.0 && 0.0 <= e.value.priceValue <= 1.0
      && e.value.sentiment == a.sentiment
      && e.value.finalVi == FinalVi(e.value.geo, a.sentiment, e.value.priceValue)
  {
    match a.surroundings
    case None => None
    case Some(subset) =>
      match PredictScore(sqrt, subset, config.competitor, config.support)
      case Bare(_) => None
      case Scored(geo, raw) =>
        var sewa := a.sewa.GetOr(DefaultRent);
        var price := NormRent(sewa);
        var data := GeoFieldData(raw.supportCount, raw.competitorDist);
        Some(Evaluation(a.id, businessType, FinalVi(geo, a.sentiment, price), geo, a.sentiment, price,
                        raw, GenerateExplanation(data, sewa, a.sentiment), GenerateTags(data)))
  }

  /** Where a scored candidate's parts come from: the geo scorer on the
      points around it, the rent it gives (100 000 000 by default), and
      the explanation of the geo scorer's raw counts. */
  lemma EvaluationSources(sqrt: real -> real, config: Config, businessType: string, a: Alternative)
    requires IsSqrt(sqrt)
    requires Scorable(a)
    ensures var e := Evaluate(sqrt, config, businessType, a).value;
      var sewa := a.sewa.GetOr(DefaultRent);
      && e.priceValue == NormRent(sewa)
      && e.raw == ExtractFeatures(a.surroundings.value, config.competitor, config.support)
      && e.geo == PredictScore(sqrt, a.surroundings.value, config.competitor, config.support).score
      && e.analysis == GenerateExplanation(GeoFieldData(e.raw.supportCount, e.raw.competitorDist), sewa, a.sentiment)
      && e.tags == GenerateTags(GeoFieldData(e.raw.supportCount, e.raw.competitorDist))
  {
  }

  /** The loop over all candidates; nothing as soon as one raises. */
  function EvaluateAll(sqrt: real -> real, config: Config, businessType: string, alts: seq<Alternative>): (r: Option<seq<Evaluation>>)
    requires IsSqrt(sqrt)
    ensures r.Some? <==> forall i :: 0 <= i < |alts| ==> Scorable(alts[i])
    ensures r.Some? ==> |r.value| == |alts|
    ensures r.Some? ==> forall i :: 0 <= i < |alts| ==> Some(r.value[i]) == Evaluate(sqrt, config, businessType, alts[i])
  {
    var xs := Evaluations(sqrt, config, businessType, alts);
    assert forall i :: 0 <= i < |alts| ==> (xs[i].Some? <==> Scorable(alts[i])) by {
      forall i | 0 <= i < |alts|
        ensures xs[i].Some? <==> Scorable(alts[i])
      {
        var e := Evaluate(sqrt, config, businessType, alts[i]);
        assert xs[i] == e;
      }
    }
    AllPresent(xs)
  }

  /** The loop body's outcome for each candidate. */
  function Evaluations(sqrt: real -> real, config: Config, businessType: string, alts: seq<Alternative>): (xs: seq<Option<Evaluation>>)
    requires IsSqrt(sqrt)
    ensures |xs| == |alts|
    ensures forall i :: 0 <= i < |alts| ==> xs[i] == Evaluate(sqrt, config, businessType, alts[i])
  {
    seq(|alts|, i requires 0 <= i < |alts| => Evaluate(sqrt, config, businessType, alts[i]))
  }

  /** The `Final_Vi` column. */
  function FinalVis(evals: seq<Evaluation>): (vs: seq<real>)
    ensures |vs| == |evals|
    ensures forall i :: 0 <= i < |evals| ==> vs[i] == evals[i].finalVi
  {
    seq(|evals|, i requires 0 <= i < |evals| => evals[i].finalVi)
  }

  /** Every evaluation with its `'min'` rank by descending `Final_Vi`, in
      input order. */
  function Rank(evals: seq<Evaluation>): (r: seq<Recommendation>)
    ensures |r| == |evals|
    ensures forall i :: 0 <= i < |evals| ==> r[i].evaluation == evals[i]
    ensures forall i :: 0 <= i < |evals| ==> r[i].ranking == 1 + CountAbove(FinalVis(evals), evals[i].finalVi)
  {
    var vs := FinalVis(evals);
    seq(|evals|, i requires 0 <= i < |evals| => Recommendation(evals[i], MinRank(vs, i)))
  }

  /** The sort key that puts smaller ranks first. */
  function RankKey(r: Recommendation): real {
    -(r.ranking as real)
  }

  /** The business type a request names, `"restaurant"` by default. */
  function BusinessTypeOf(req: Request): string {
    req.businessType.GetOr(DefaultBusinessType)
  }

  /** `recommend_location`. */
  function Recommend(sqrt: real -> real, req: Request): (r: Response)
    requires IsSqrt(sqrt)
    ensures r == BadRequest(MissingAlternatives) <==> req.alternatives.None?
    ensures r == BadRequest(UnknownBusinessType(BusinessTypeOf(req))) <==>
      req.alternatives.Some? && BusinessConfig(BusinessTypeOf(req)).None?
    ensures r.BadRequest? ==> r.problem == MissingAlternatives || r.problem == UnknownBusinessType(BusinessTypeOf(req))
    ensures r.ServerError? <==>
      && req.alternatives.Some? && BusinessConfig(BusinessTypeOf(req)).Some?
      && exists i :: 0 <= i < |req.alternatives.value| && !Scorable(req.alternatives.value[i])
    ensures r.Success? ==> |r.data| == |req.alternatives.value|
    ensures r.Success? ==> SortedDesc(r.data, RankKey)
    ensures req.alternatives == Some([]) && BusinessConfig(BusinessTypeOf(req)).Some? ==> r == Success([])
  {
    match req.alternatives
    case None => BadRequest(MissingAlternatives)
    case Some(alts) =>
      var businessType := BusinessTypeOf(req);
      match BusinessConfig(businessType)
      case None => BadRequest(UnknownBusinessType(businessType))
      case Some(config) =>
        match EvaluateAll(sqrt, config, businessType, alts)
        case None => ServerError
        case Some(evals) =>
          if |evals| == 0 then Success([])
          else Success(SortDesc(Rank(evals), RankKey))
  }

  /** On success every input candidate appears exactly once, scored as the
      loop body scores it, and its rank is one more than the number of
      candidates with a strictly greater `Final_Vi`; so equal values share
      a rank and a greater value has a smaller rank. */
  lemma RecommendRanks(sqrt: real -> real, req: Request)
    requires IsSqrt(sqrt)
    requires Recommend(sqrt, req).Success?
    ensures var alts := req.alternatives.value;
      var config := BusinessConfig(BusinessTypeOf(req)).value;
      var evals := EvaluateAll(sqrt, config, BusinessTypeOf(req), alts).value;
      var data := Recommend(sqrt, req).data;
      && multiset(data) == multiset(Rank(evals))
      && forall x :: x in data ==> x.ranking == 1 + CountAbove(FinalVis(evals), x.evaluation.finalVi)
  {
    var alts := req.alternatives.value;
    var config := BusinessConfig(BusinessTypeOf(req)).value;
    var evals := EvaluateAll(sqrt, config, BusinessTypeOf(req), alts).value;
    var ranked := Rank(evals);
    assert Recommend(sqrt, req) == if |evals| == 0 then Success([]) else Success(SortDesc(ranked, RankKey));
    RanksSurviveReordering(evals, Recommend(sqrt, req).data);
  }

  /** Reordering the ranked locations keeps each one's rank. */
  lemma RanksSurviveReordering(evals: seq<Evaluation>, data: seq<Recommendation>)
    requires multiset(data) == multiset(Rank(evals))
    ensures forall x :: x in data ==> x.ranking == 1 + CountAbove(FinalVis(evals), x.evaluation.finalVi)
  {
    var ranked := Rank(evals);
    forall x | x in data
      ensures x.ranking == 1 + CountAbove(FinalVis(evals), x.evaluation.finalVi)
    {
      assert x in multiset(ranked);
      var i :| 0 <= i < |ranked| && ranked[i] == x;
    }
  }

  /** With every sentiment in [0, 1], every `Final_Vi` returned lies in
      [0, 1]. */
  lemma FinalVisInUnit(sqrt: real -> real, req: Request)
    requires IsSqrt(sqrt)
    requires Recommend(sqrt, req).Success?
    requires forall a :: a in req.alternatives.value ==> 0.0 <= a.sentiment <= 1.0
    ensures forall x :: x in Recommend(sqrt, req).data ==> 0.0 <= x.evaluation.finalVi <= 1.0
  {
    var alts := req.alternatives.value;
    var config := BusinessConfig(BusinessTypeOf(req)).value;
    var evals := EvaluateAll(sqrt, config, BusinessTypeOf(req), alts).value;
    RecommendRanks(sqrt, req);
    forall x | x in Recommend(sqrt, req).data
      ensures 0.0 <= x.evaluation.finalVi <= 1.0
    {
      assert x in multiset(Rank(evals));
      var i :| 0 <= i < |evals| && Rank(evals)[i] == x;
      var e := evals[i];
      assert Some(e) == Evaluate(sqrt, config, BusinessTypeOf(req), alts[i]);
      assert alts[i] in alts;
      FinalViInUnit(e.geo, e.sentiment, e.priceValue);
    }
  }

  /** The tags of a returned location never name a facility: the geo
      scorer's field data carries no facility key. */
  lemma TagsNameNoFacility(sqrt: real -> real, config: Config, businessType: string, a: Alternative)
    requires IsSqrt(sqrt)
    requires Scorable(a)
    ensures var e := Evaluate(sqrt, config, businessType, a).value;
      e.tags == if e.raw.supportCount > 15 then [Hotspot]
                else if e.raw.supportCount > 0 then [PublicFacilities]
                else []
  {
    var e := Evaluate(sqrt, config, businessType, a).value;
    EvaluationSources(sqrt, config, businessType, a);
    GeoTags(e.raw.supportCount, e.raw.competitorDist);
  }
}
