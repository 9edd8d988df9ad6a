# Location recommendation scoring, modelled in Dafny

This project models the scoring core of Geospasial-sentimen. That service ranks
candidate business locations. It combines three scores:

- a geospatial "opportunity" score computed from nearby points of interest;
- a review-sentiment score;
- a rent value.

The model covers these parts of the repository:

- **The geo scorer** (`GeoTOPSISPredictor.predict_score`, module `GeoTopsis`).
  - It filters the points of interest around a location by competitor and support tags.
  - It counts the support points within 500 m and takes the nearest competitor's distance.
  - It normalises both against fixed ideals (50 supports, 3000 m) and weights them 0.6/0.4.
  - It returns the closeness to the ideal point together with the raw counts.
- **The recommendation endpoint** (`recommend_location`, module `Recommend`).
  - It validates the request and normalises the rent against 100 000 000.
  - It blends geo, sentiment and rent 0.6/0.3/0.1 into `Final_Vi`.
  - It ranks the locations with pandas' `"min"` tie rule and returns them by rank.
- **The tag and explanation generators** `generate_tags` and `generate_explanation` (module `Narrative`).
- **The TOPSIS kernel** `run_topsis` (module `Topsis`) and **the SAW kernel** `run_saw` (module `Saw`).
  - Both work over the four criteria C1_Geo, C2_Sentiment, C3_CompetitorDist and C4_Sewa (module `Criteria`).
  - TOPSIS uses pandas' truncated average rank (module `Ranking`).
  - Both sort by descending score (module `Sorting`).
- **The K-means feature extractor and cluster naming** (module `LocalGeo`).
  - `calculate_surrounding_features` counts the competitor and support amenities within 500 m, then subtracts one from the competitor count (floored at 0). The source means that one for the centre when the centre is itself a record; for a new location it drops a real competitor.
  - The naming loop of `train` names the three clusters Low, Medium and High by ascending mean support count.
- **The cluster-based predictor** `GeoPredictor._get_features` / `predict_score` (module `ClusterScore`).
  - It maps the label of the predicted cluster to 0.9, 0.6 or 0.3.
  - It adds 0.001 per support point, capped at 1.

Some things the model takes as inputs instead of computing them:

- **Points of interest.** Each is a record with an optional `amenity`, an optional `shop` and its planar distance to the query point (module `Places`).
- **The coarse 5 km candidate subset.** The spatial index query result is an input sequence.
- **The square root.** `np.sqrt` is a parameter `sqrt`. It must satisfy `RealSqrt.IsSqrt`: non-negative, and it squares back.
- **The K-means classifier.** It is the parameter `classify`.
- **The sentiment score.** It is a field of each candidate.

The source does not raise on a zero division. NumPy produces `inf`/`NaN`, and the computation fails later: `np.max` of an empty frame, or `astype(int)` of a NaN preference. In `Topsis` these failures are the error results `EmptyMatrix`, `ZeroNorm` and `Degenerate`, each with an exact characterisation of when it happens. In `Recommend`, any exception inside the `try` becomes the `ServerError` response.

One edge case deserves a note. On an empty coarse subset, `predict_score` returns the bare number `0.0` with no raw data (models/sawGeoModel.py:45-46). The endpoint then raises on `geo_result['score']` (app.py:164) and answers with status 500. The model follows this: `GeoTopsis.PredictScore` returns `Bare(0.0)`, and `Recommend.Recommend` answers `ServerError`.

A consequence the model proves: `generate_tags` receives only the geo scorer's `raw_data`. That holds the keys `support_count` and `competitor_dist` and no facility key. So no facility label from `FACILITY_MAP` can ever appear in a response's tags (`Narrative.GeoTags`, `Recommend.TagsNameNoFacility`).

## Model

| member | source | states |
|---|---|---|
| Topsis.WeightsConvex | spk/topsis_core.py:7 | every TOPSIS weight is positive and the four weights sum to 1 |
| Topsis.EuclideanNorm | spk/topsis_core.py:17 | a column's Euclidean norm is non-negative and is zero exactly when every entry of the column is zero |
| Topsis.ColumnNorms | spk/topsis_core.py:17 | the j-th divisor is the norm of column j, and it is zero exactly when column j is all zeros |
| Topsis.NormalisedInUnit | spk/topsis_core.py:17 | dividing a non-negative column that is not all zero by its norm puts every entry in [0, 1] |
| Topsis.Weigh | spk/topsis_core.py:17-19 | the weighted matrix has one row per input row, and every entry between zero and its column's norm becomes an entry between zero and that column's weight |
| Topsis.WeighedInRange | spk/topsis_core.py:17-19 | with the column norms of line 17 and no all-zero column, every entry of a non-negative matrix is weighted into [0, W_j] |
| Topsis.WeighKeepsConstant | spk/topsis_core.py:17-19 | normalising and weighting a column makes it constant exactly when the raw column is constant |
| Topsis.BestOf | spk/topsis_core.py:22-31 | the ideal value of a column occurs in it; it is the maximum for a benefit criterion and the minimum for a cost criterion |
| Topsis.WorstOf | spk/topsis_core.py:22-31 | the anti-ideal value of a column occurs in it; it is the minimum for a benefit criterion and the maximum for a cost criterion |
| Topsis.IdealBest | spk/topsis_core.py:22-31 | A+ takes every column's ideal value |
| Topsis.IdealWorst | spk/topsis_core.py:22-31 | A- takes every column's anti-ideal value |
| Topsis.Separation | spk/topsis_core.py:34-35 | the distance of a row to a reference point is non-negative and zero exactly when the row equals the point |
| Topsis.Closeness | spk/topsis_core.py:38 | the relative closeness is in [0, 1]; it is 1 exactly when D+ is 0 and 0 exactly when D- is 0 |
| Topsis.Preference | spk/topsis_core.py:34-38 | an alternative's Vi is in [0, 1]; it is 1 exactly when the alternative is the ideal point and 0 exactly when it is the anti-ideal point |
| Topsis.BothIdealsConstant | spk/topsis_core.py:34-38 | an alternative at zero distance from both ideal points forces every column to be constant |
| Topsis.DegenerateIffConstant | spk/topsis_core.py:34-38 | some alternative has D+ + D- = 0 (Vi is NaN) exactly when every weighted column is constant |
| Topsis.DegenerateInput | spk/topsis_core.py:17-38 | the same NaN condition stated on the raw matrix: every raw column is constant |
| Topsis.Assessments | spk/topsis_core.py:38-41 | each alternative keeps its row and gets as Vi its own relative closeness D-/(D- + D+) (in [0, 1], 1 exactly at A+, 0 exactly at A-) and a rank in 1..n equal to the truncated pandas average rank of its Vi |
| Topsis.RankAll | spk/topsis_core.py:38-43 | the output is the assessed alternatives reordered by descending Vi |
| Topsis.Diagnose | spk/topsis_core.py:15-41 | the computation fails on an empty matrix, on a column of zeros (zero norm), and on all-constant columns (NaN Vi), and only then; otherwise every norm is non-zero and no Vi is NaN |
| Topsis.OutputPreference | spk/topsis_core.py:34-43 | every row the kernel returns is an input row whose Vi is that row's relative closeness on the weighted matrix |
| Topsis.RunTopsis | spk/topsis_core.py:10-43 | it fails exactly when Diagnose reports a failure, with that error; otherwise it returns every alternative once, ranked and assessed, sorted by descending Vi |
| Topsis.SingleRowDegenerate | spk/topsis_core.py:17-41 | a single alternative with no zero criterion always makes the kernel fail with a NaN preference |
| Ranking.TruncatedAverageRank | spk/topsis_core.py:41 | the rank is between 1 and n and equals the number of strictly greater values plus half (rounded down) of one more than the number of equal values |
| Ranking.TruncatedAverageRankOrder | spk/topsis_core.py:41 | a strictly smaller rank means a strictly greater Vi and equal ranks mean equal Vi, in both directions |
| Ranking.DistinctRanks | spk/topsis_core.py:41 | for a value no other alternative shares, the truncated average rank and the "min" rank coincide |
| Ranking.MinRank | app.py:188 | the "min" rank lies between 1 and the number of locations |
| Ranking.MinRankOrder | app.py:188 | a smaller "min" rank means a strictly greater Final_Vi and equal ranks mean equal Final_Vi, in both directions |
| Ranking.CountAbovePermutation | app.py:186-189 | a location's rank does not depend on the order in which the locations are listed |
| Sorting.SortDesc | spk/topsis_core.py:43 | the result is a permutation of the input ordered by descending key |
| Saw.WeightsConvex | spk/saw_core.py:17-22 | every SAW weight is positive and the four weights sum to 1 |
| Saw.BenefitDivisor | spk/saw_core.py:47-51 | the benefit divisor is never zero; it is the column maximum, or 1 when that maximum is 0 |
| Saw.CostNumerator | spk/saw_core.py:48-52 | the cost numerator is never zero; it is the column minimum, or 0.001 when that minimum is 0 |
| Saw.BenefitInUnit | spk/saw_core.py:54-56 | a non-negative benefit value normalises into [0, 1], and the column maximum to 1 when it is positive |
| Saw.CostInUnit | spk/saw_core.py:58-61 | a positive cost value normalises into (0, 1], and the column minimum to 1 |
| Saw.CostAboveOne | spk/saw_core.py:48-61 | a cost value normalises above 1 exactly when the column minimum is 0 and the value lies strictly between 0 and 0.001 |
| Saw.FreeCostScoresZero | spk/saw_core.py:61 | a cost value of 0 or less normalises to 0, the worst, not the best |
| Saw.AbsentIgnored | spk/saw_core.py:40-71 | a criterion column missing from the input contributes nothing: scores agree whatever that column holds |
| Saw.ScoreInUnit | spk/saw_core.py:66-71 | when every present criterion is normalised into [0, 1], the weighted score is in [0, 1] |
| Saw.WellFormedScoresInUnit | spk/saw_core.py:40-75 | with non-negative benefit columns and positive cost columns, every returned SAW score lies in [0, 1] |
| Saw.Dominance | spk/saw_core.py:54-71 | a location at least as good on every present criterion scores at least as high |
| Saw.Scores | spk/saw_core.py:66-71 | one score per row, in input order; with non-negative benefit columns and positive cost columns every score lies in [0, 1] |
| Saw.AllScoresInUnit | spk/saw_core.py:40-71 | with non-negative benefit columns and positive cost columns, every row's weighted sum lies in [0, 1] |
| Saw.RunSaw | spk/saw_core.py:40-79 | the result is every scored row exactly once, ordered by descending SAW score; an empty input gives an empty result |
| Places.Neighbours | models/localGeoModel.py:42-46 | the buffer query keeps exactly the points within the radius, each as many times as it occurs, in their original order |
| Places.AmenityCount | models/localGeoModel.py:53-56 | the count of points with a listed amenity is at most the number of points and zero exactly when none has one |
| GeoTopsis.FilterByTags | models/sawGeoModel.py:49-59 | a point is kept exactly when its amenity or its shop is one of the tags, with its multiplicity and the original order |
| GeoTopsis.SupportCount | models/sawGeoModel.py:68-69 | the support count is at most the number of supports, all of them exactly when all lie within 500 m, and none exactly when none does |
| GeoTopsis.CompetitorDistance | models/sawGeoModel.py:72-77 | with no competitor the distance is 5000 m; otherwise it is the nearest competitor's distance clamped below at 1 m |
| GeoTopsis.ExtractFeatures | models/sawGeoModel.py:62-77 | the support count never exceeds the subset size, the distance is at least 1 m, and it is 5000 m when no point matches a competitor tag |
| GeoTopsis.SupportCountMeaning | models/sawGeoModel.py:62-69 | the support count is the number of subset points matching a support tag within 500 m |
| GeoTopsis.SharedRecordFeedsBoth | models/sawGeoModel.py:62-77 | a nearby point whose tag is both a competitor and a support tag counts as a support and bounds the competitor distance |
| GeoTopsis.NormSupport | models/sawGeoModel.py:81-86 | the normalised support is in [0, 1] and reaches 1 exactly at 50 supports or more |
| GeoTopsis.NormDistance | models/sawGeoModel.py:82-90 | the normalised distance is in [0, 1] and reaches 1 exactly at 3000 m or more |
| GeoTopsis.WeightedSupport | models/sawGeoModel.py:94-97 | the weighted support lies between 0 and its weight 0.6 |
| GeoTopsis.WeightedDistance | models/sawGeoModel.py:95-98 | the weighted distance lies between 0 and its weight 0.4 |
| GeoTopsis.DPlus | models/sawGeoModel.py:100-108 | the distance to the ideal point is non-negative and zero exactly at (0.6, 0.4) |
| GeoTopsis.DMinus | models/sawGeoModel.py:104-109 | the distance to the anti-ideal point is non-negative and zero exactly at (0, 0) |
| GeoTopsis.SeparationPositive | models/sawGeoModel.py:111-112 | D- + D+ is always positive, so the zero-sum fallback never fires |
| GeoTopsis.Assess | models/sawGeoModel.py:79-121 | the score keeps the raw counts and lies in [0, 1] |
| GeoTopsis.PredictScore | models/sawGeoModel.py:35-121 | an empty subset gives the bare 0.0; otherwise the score is in [0, 1], carries the extracted support count and competitor distance, and is the closeness Assess computes from them (so Saturation and ScoreMonotone apply to it) |
| GeoTopsis.PredictSaturation | models/sawGeoModel.py:35-114 | for a non-empty subset `predict_score` returns 1 exactly when the extracted features reach 50 supports and 3000 m |
| GeoTopsis.Saturation | models/sawGeoModel.py:79-114 | the score is exactly 1 when there are at least 50 supports and the nearest competitor is at least 3000 m away, and only then |
| GeoTopsis.ScoreMonotone | models/sawGeoModel.py:79-114 | more supports and a farther nearest competitor never lower the score |
| GeoTopsis.ClosenessMonotone | models/sawGeoModel.py:97-114 | raising either weighted criterion never lowers the closeness |
| LocalGeo.TagsDisjoint | models/localGeoModel.py:18-19 | no tag is both a competitor tag and a support tag |
| LocalGeo.SurroundingFeatures | models/localGeoModel.py:36-61 | nothing nearby gives (0, 0); supports count nearby points with a support amenity; competitors count nearby competitor amenities minus one, never below zero |
| LocalGeo.NeighbourCount | models/localGeoModel.py:46-56 | counting the amenity matches among the buffer's neighbours counts the nearby matching points |
| LocalGeo.CountsFitNeighbours | models/localGeoModel.py:36-61 | competitors plus supports never exceed the number of neighbours |
| LocalGeo.ShopIgnored | models/localGeoModel.py:53-56 | the counts depend only on the amenity and the position, never on the shop |
| LocalGeo.ArgsortBySupport | models/localGeoModel.py:111 | the order is a permutation of the three cluster ids, by ascending mean support |
| LocalGeo.LabelClusters | models/localGeoModel.py:110-120 | every cluster gets exactly one of the three names, and a name later in the list means a mean support at least as high |
| LocalGeo.NamingCorrect | models/localGeoModel.py:110-120 | naming the clusters along the support order names them by support for any three distinct names |
| LocalGeo.NameAtPosition | models/localGeoModel.py:110-120 | the naming map covers ids 0..2, gives different clusters different names, and each name belongs to the cluster at that position of the order |
| LocalGeo.TopCluster | models/localGeoModel.py:110-120 | a cluster with strictly the highest mean support is named "High Potential (Strategis)" |
| ClusterScore.GetFeatures | models/geo_model.py:36-58 | nothing nearby gives (0, 0); otherwise it gives the nearby competitor and support amenity counts |
| ClusterScore.CountersAgree | models/geo_model.py:46-58 | the predictor's supports equal the trainer's, and the trainer's competitors are the predictor's minus one, floored at 0 |
| ClusterScore.Lower | models/geo_model.py:78 | lower-casing keeps the length and maps each character on its own |
| ClusterScore.BaseScore | models/geo_model.py:78-87 | the base score is 0.9 exactly when the lower-cased label contains "high", 0.6 exactly when it contains "medium" but not "high", and 0.3 otherwise |
| ClusterScore.CappedScore | models/geo_model.py:90-92 | the final score is at most 1, exactly 1 when base plus 0.001 per support reaches 1, and that sum otherwise |
| ClusterScore.PredictScore | models/geo_model.py:60-92 | without a loaded model the score is 0.1; otherwise it lies in [0.3, 1] |
| ClusterScore.ScoreMonotone | models/geo_model.py:89-92 | more supports never lower the score |
| ClusterScore.HighSaturates | models/geo_model.py:82-92 | a "high" cluster with at least 100 supports scores exactly 1 |
| ClusterScore.UnknownClusterIsLow | models/geo_model.py:78-87 | a cluster id missing from the label map scores as a low cluster |
| ClusterScore.NamesScoreInOrder | models/geo_model.py:82-87 | the three names the trainer assigns map to 0.3, 0.6 and 0.9 in support order |
| Narrative.TextInjective | app.py:16-36 | distinct tag labels render to distinct texts, so de-duplicating labels de-duplicates texts |
| Narrative.LabelOf | app.py:16-36 | every facility key maps to a facility label, never to a crowd label |
| Narrative.CollectLabels | app.py:76-79 | no label twice; a label is present exactly when it was already there or one of its keys has a positive value; the result is empty exactly when no key fires |
| Narrative.WithCrowdLabel | app.py:82-86 | "Hotspot" is present, and first, exactly when support exceeds 15; "public facilities" is present exactly when 0 < support ≤ 15 and no facility fired; facility labels are untouched and none is duplicated |
| Narrative.TagsFor | app.py:69-88 | no tag twice; the Hotspot and public-facilities conditions as above; a facility label appears exactly when one of its keys has a positive value |
| Narrative.GenerateTags | app.py:69-88 | no tag twice; "Hotspot" first exactly when support exceeds 15; "public facilities" only for 0 < support ≤ 15 |
| Narrative.GeoFieldData | models/sawGeoModel.py:118-121 | the geo scorer's raw data holds exactly the support count and the competitor distance |
| Narrative.GeoTagsNameNoFacility | app.py:69-88 | on the geo scorer's raw data the tags are ["Hotspot"] above 15 supports, ["public facilities"] for 1..15, and empty otherwise |
| Narrative.GeoTags | app.py:69-88 | the same for the application's facility map |
| Narrative.Truncate | app.py:109 | int() truncates toward zero |
| Narrative.FacilityLine | app.py:94-100 | a facility line quoting the support count: very strategic exactly above 20 supports, a quiet area exactly at 5 or fewer, otherwise fairly strategic |
| Narrative.CompetitorLine | app.py:103-109 | a competitor line: monopoly exactly beyond 2000 m, tight competition exactly within 500 m (quoting the distance truncated to whole metres), otherwise safe |
| Narrative.RentLines | app.py:112-115 | at most one rent line, present exactly when the rent is above 150 000 000 or below 50 000 000 |
| Narrative.GenerateExplanation | app.py:90-121 | the facility line for the data's support count then the competitor line for its competitor distance (missing keys read as 0), a rent line only in third place and exactly when the rent is notable, and the good-reputation line exactly when sentiment exceeds 0.7 |
| Narrative.GeoExplanation | app.py:90-109 | on the geo scorer's field data the first two sentences are chosen by its support count (above 20, at most 5) and competitor distance (beyond 2000 m, within 500 m) |
| Narrative.BandsMonotone | app.py:94-109 | more supports never give a weaker facility line, and a farther competitor never gives a more alarming competitor line |
| Recommend.NormRent | app.py:156-160 | the rent value is in [0, 1]; it is 1 exactly when the rent is at most 100 000 000 (including zero or negative rent), and 100 000 000 / rent above that |
| Recommend.NormRentAntitone | app.py:156-160 | a higher rent never gives a higher rent value |
| Recommend.FinalViInUnit | app.py:164-165 | with all three scores in [0, 1], Final_Vi is in [0, 1] |
| Recommend.FinalViMonotone | app.py:164-165 | raising any of the three scores never lowers Final_Vi |
| Recommend.Evaluate | app.py:141-184 | a candidate is scored exactly when its coordinates are present and the query found points; then it carries its id, business type and sentiment, a geo score and a rent value in [0, 1], and their 0.6/0.3/0.1 blend as Final_Vi |
| Recommend.EvaluationSources | app.py:145-169 | a scored candidate's geo score and raw counts are the geo scorer's on its points; its rent value is that of its rent, 100 000 000 by default; its explanation and tags are generated from the raw counts |
| Recommend.Evaluations | app.py:141-184 | one outcome per candidate, in order |
| Recommend.EvaluateAll | app.py:139-184 | the loop succeeds exactly when every candidate can be scored, and then scores each in order |
| Recommend.Rank | app.py:186-188 | each location's rank is one more than the number of locations with a strictly greater Final_Vi |
| Recommend.Recommend | app.py:124-203 | 400 exactly when `alternatives` is missing, or exactly when the business type is unknown; 500 exactly when some candidate cannot be scored; otherwise one entry per candidate ordered by ascending rank, and an empty list for no candidates |
| Recommend.RecommendRanks | app.py:186-192 | a successful response is a permutation of the ranked locations, each with the "min" rank of its Final_Vi |
| Recommend.FinalVisInUnit | app.py:141-192 | with every sentiment in [0, 1], every returned Final_Vi is in [0, 1] |
| Recommend.TagsNameNoFacility | app.py:169 | a returned location's tags are only the crowd tag its support count earns |

## Left out

- Rounding: `round(…, 2/3/4)` in the scorers and the response is not modelled. All values are exact reals. The "min" rank is computed on the unrounded `Final_Vi`, so two values that differ only beyond the fourth decimal rank apart in the model but tie in the source. GeoTopsis.Saturation and GeoTopsis.PredictSaturation characterise a score of exactly 1 on the unrounded closeness; the source returns `round(final_score, 4)`, so a score just below 1 (50 supports with the competitor at 2999.99 m) is already reported as 1.0.
- Coordinates: the conversion from latitude/longitude to EPSG:3857 metres is not modelled. Each point of interest carries its planar distance to the query point.
- Spatial index: the R-tree query and the buffer intersection test are not modelled. The buffer is idealised as `distance <= radius`, and the coarse 5 km subset is an input sequence.
- Data loading: reading the GeoJSON dataset, `joblib` model files and `FileNotFoundError` handling are left out. An unloaded cluster model is the `Unloaded` predictor.
- Training: `StandardScaler`, K-means fitting and sampling in `train` are left out. The classifier is a function parameter and the cluster centres are an input; only the naming loop is modelled.
- Sentiment: `run_sentiment_analysis` is not part of this model. Its score is an input field of each candidate.
- HTTP layer: Flask, JSON parsing and serialisation, CORS, `print` and `traceback` are left out. A request is a datatype whose `alternatives` is absent or a sequence; a non-object body is not modelled.
- Other exceptions: any exception in the loop other than missing coordinates and a bare geo score (for example a non-numeric `sewa_cost`) is not modelled.
- Sort ties: pandas' `sort_values` is not a stable sort, so the order among equal keys is unspecified. The model sorts by insertion, and its contracts promise only the descending order and the permutation.
- Sorting.SortDesc: does not fix the relative order of tied rows, because the source's sort does not either.
- Text: the explanation sentences and tag texts (with their emoji) are not reproduced character for character. Each sentence is a `Reason` variant carrying the numbers it quotes. Each tag is a `Label` whose `Text` is the tag's wording, and `TextInjective` shows that comparing labels compares texts.
- Lower-casing: `str.lower()` is modelled for ASCII letters only.
- In-place mutation: `run_topsis` adds `Vi` and `Ranking` columns to the caller's frame in place, and `run_saw` adds a `SAW_Score` column to the caller's frame (spk/saw_core.py:66,71) although it copies the frame for normalisation. The model returns new records and does not model either side effect.
- NaN: apart from the failures the TOPSIS kernel reports as errors, NaN and infinite inputs are not modelled. The SAW kernel is modelled on finite reals; a negative benefit maximum and other inputs outside `Saw.WellFormed` are covered by the exact `Normalised` definition but not by the range lemmas.
- Narrative.GenerateTags: its own contract states only the de-duplication and crowd-tag facts, because the full facility-label characterisation is stated once on `Narrative.TagsFor` (of which it is the instance for the application's facility map).
- ClusterScore.PredictScore: states only the range of the score; the exact value is stated by `ClusterScore.BaseScore` and `ClusterScore.CappedScore`.
- The SAW kernel's "missing column" warning print is not modelled; the missing column is the set `present` of criteria the input provides.
