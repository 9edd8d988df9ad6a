/**
 The neighbourhood counter and the cluster naming of the offline KMeans
 model (models/localGeoModel.py). The counter looks at every point of
 interest within 500 m of a location and counts, by amenity only,
 competitors and support facilities; the naming step orders the three
 cluster centres by their average support count and names them from
 "Low Potential (Sepi)" up to "High Potential (Strategis)".
 */
module LocalGeo {
  import opened Basics
  import opened Sorting
  import opened Places

  const CompetitorTags: seq<string> := ["restaurant", "cafe", "fast_food"]
  const SupportTags: seq<string> := ["bank", "school", "university", "office", "marketplace", "bus_station"]
  const Radius: real := 500.0

  /** The two counts around a location. */
  datatype Features = Features(competitors: nat, supports: nat)

  /** No tag is both a competitor tag and a support tag. */
  lemma TagsDisjoint()
    ensures forall t :: t in CompetitorTags ==> t !in SupportTags
  {
  }

  /** The records within the radius whose amenity is one of `tags`. */
  function NearbyWithAmenity(pois: seq<Poi>, tags: seq<string>): seq<Poi> {
    Filter(pois, (p: Poi) => Within(p, Radius) && AmenityIn(p, tags))
  }

  /** `calculate_surrounding_features`: no neighbours gives (0, 0);
      otherwise the competitor matches minus one (the location itself, when
      it is in the dataset), never below zero, and the support matches. */
  function SurroundingFeatures(pois: seq<Poi>): (f: Features)
    ensures |Neighbours(pois, Radius)| == 0 ==> f == Features(0, 0)
    ensures f.supports == |NearbyWithAmenity(pois, SupportTags)|
    ensures var raw := |NearbyWithAmenity(pois, CompetitorTags)|;
            f.competitors == if raw == 0 then 0 else raw - 1
  {
    var neighbours := Neighbours(pois, Radius);
    NeighbourCount(pois, CompetitorTags);
    NeighbourCount(pois, SupportTags);
    if |neighbours| == 0 then Features(0, 0)
    else
      var comp := AmenityCount(neighbours, CompetitorTags);
      Features(if comp - 1 < 0 then 0 else comp - 1, AmenityCount(neighbours, SupportTags))
  }

  /** Counting amenity matches among the neighbours is counting the records
      that are both near and matching. */
  lemma NeighbourCount(pois: seq<Poi>, tags: seq<string>)
    ensures AmenityCount(Neighbours(pois, Radius), tags) == |NearbyWithAmenity(pois, tags)|
  {
    FilterFilter(pois, (p: Poi) => Within(p, Radius), (p: Poi) => AmenityIn(p, tags),
                 (p: Poi) => Within(p, Radius) && AmenityIn(p, tags));
  }

  /** Because the tag lists are disjoint, no neighbour is counted twice:
      the two counts together never exceed the number of neighbours. */
  lemma CountsFitNeighbours(pois: seq<Poi>)
    ensures var f := SurroundingFeatures(pois);
            f.competitors + f.supports <= |Neighbours(pois, Radius)|
  {
    var neighbours := Neighbours(pois, Radius);
    TagsDisjoint();
    FilterDisjoint(neighbours, (p: Poi) => AmenityIn(p, CompetitorTags), (p: Poi) => AmenityIn(p, SupportTags));
  }

  /** Only the amenity attribute is read: datasets that differ only in
      their shop attributes give the same counts. */
  lemma {:induction false} ShopIgnored(pois: seq<Poi>, others: seq<Poi>, tags: seq<string>)
    requires |pois| == |others|
    requires forall i :: 0 <= i < |pois| ==>
      pois[i].amenity == others[i].amenity && pois[i].dist == others[i].dist
    ensures |NearbyWithAmenity(pois, tags)| == |NearbyWithAmenity(others, tags)|
  {
    if |pois| > 0 {
      ShopIgnored(pois[1..], others[1..], tags);
    }
  }

  /** An average cluster centre in original units: `[competitors, supports]`. */
  datatype Centre = Centre(competitors: real, supports: real)

  const ClusterNames: seq<string> := ["Low Potential (Sepi)", "Medium Potential", "High Potential (Strategis)"]

  /** The support value of centre `i`, for ordering cluster ids. */
  function SupportOf(centres: seq<Centre>, i: int): real {
    if 0 <= i < |centres| then centres[i].supports else 0.0
  }

  /** `np.argsort(centres[:, 1])` on three centres: the cluster ids in
      ascending support order. NumPy sorts so short an array by insertion,
      which is what the three compare-and-swap steps below do. */
  function ArgsortBySupport(centres: seq<Centre>): (order: seq<int>)
    requires |centres| == 3
    ensures |order| == 3
    ensures forall k :: 0 <= k < 3 ==> 0 <= order[k] < 3
    ensures order[0] != order[1] && order[1] != order[2] && order[0] != order[2]
    ensures forall i, j :: 0 <= i < j < 3 ==> SupportOf(centres, order[i]) <= SupportOf(centres, order[j])
  {
    var a := if SupportOf(centres, 1) < SupportOf(centres, 0) then [1, 0, 2] else [0, 1, 2];
    var b := if SupportOf(centres, a[2]) < SupportOf(centres, a[1]) then [a[0], a[2], a[1]] else a;
    if SupportOf(centres, b[1]) < SupportOf(centres, b[0]) then [b[1], b[0], b[2]] else b
  }

  /** The map the naming loop has built after its first `n` rounds. */
  function NamesUpTo(order: seq<int>, names: seq<string>, n: nat): map<int, string>
    requires n <= |order| && n <= |names|
  {
    if n == 0 then map[] else NamesUpTo(order, names, n - 1)[order[n - 1] := names[n - 1]]
  }

  /** `labels` names the clusters {0, 1, 2} with `names` in ascending
      order of support: every cluster gets exactly one name, no two share
      one, a later name never goes to a cluster with less support than an
      earlier name's, and a cluster whose support value is strictly the
      largest gets the last name. */
  ghost predicate NamedBySupport(centres: seq<Centre>, names: seq<string>, labels: map<int, string>)
    requires |centres| == 3 && |names| == 3
  {
    && labels.Keys == {0, 1, 2}
    && (forall a, b :: a in labels && b in labels && a != b ==> labels[a] != labels[b])
    && (forall a :: a in labels ==> labels[a] in names)
    && (forall a, b, i, j :: a in labels && b in labels && 0 <= i < j < 3
          && labels[a] == names[i] && labels[b] == names[j]
          ==> SupportOf(centres, a) <= SupportOf(centres, b))
    && (forall a :: 0 <= a < 3 && (forall b :: 0 <= b < 3 && b != a ==> centres[b].supports < centres[a].supports)
          ==> labels[a] == names[2])
  }

  /** The naming loop of `train`: the i-th cluster id in ascending support
      order gets the i-th name, from "Low Potential (Sepi)" to
      "High Potential (Strategis)". */
  method LabelClusters(centres: seq<Centre>) returns (labels: map<int, string>)
    requires |centres| == 3
    ensures NamedBySupport(centres, ClusterNames, labels)
  {
    var order := ArgsortBySupport(centres);
    labels := map[];
    var i := 0;
    while i < 3
      invariant 0 <= i <= 3
      invariant labels == NamesUpTo(order, ClusterNames, i)
    {
      labels := labels[order[i] := ClusterNames[i]];
      i := i + 1;
    }
    ThreeRounds(order, ClusterNames);
    NamesDistinct();
    NamingCorrect(centres, order, ClusterNames, labels);
  }

  /** Handing out three distinct names along an ascending support order
      names the clusters by support. */
  lemma NamingCorrect(centres: seq<Centre>, order: seq<int>, names: seq<string>, labels: map<int, string>)
    requires |centres| == 3 && |order| == 3 && |names| == 3
    requires forall i, j :: 0 <= i < j < 3 ==> names[i] != names[j]
    requires forall k :: 0 <= k < 3 ==> 0 <= order[k] < 3
    requires order[0] != order[1] && order[1] != order[2] && order[0] != order[2]
    requires forall i, j :: 0 <= i < j < 3 ==> SupportOf(centres, order[i]) <= SupportOf(centres, order[j])
    requires labels == map[order[0] := names[0], order[1] := names[1], order[2] := names[2]]
    ensures NamedBySupport(centres, names, labels)
  {
    NameAtPosition(order, names, labels);
    OrderedNames(centres, order, names, labels);
    TopCluster(centres, order, names, labels);
  }

  lemma ThreeRounds(order: seq<int>, names: seq<string>)
    requires |order| == 3 && |names| == 3
    ensures NamesUpTo(order, names, 3) == map[order[0] := names[0], order[1] := names[1], order[2] := names[2]]
  {
    assert NamesUpTo(order, names, 1) == map[order[0] := names[0]];
    assert NamesUpTo(order, names, 2) == NamesUpTo(order, names, 1)[order[1] := names[1]];
  }

  /** The three cluster names differ. */
  lemma NamesDistinct()
    ensures forall i, j :: 0 <= i < j < 3 ==> ClusterNames[i] != ClusterNames[j]
  {
    assert |ClusterNames[0]| == 20 && |ClusterNames[1]| == 16 && |ClusterNames[2]| == 26;
  }

  /** Giving three distinct ids three distinct names names every id of
      {0, 1, 2} once, and a name identifies the position it came from. */
  lemma NameAtPosition(order: seq<int>, names: seq<string>, labels: map<int, string>)
    requires |order| == 3 && |names| == 3
    requires forall i, j :: 0 <= i < j < 3 ==> names[i] != names[j]
    requires forall k :: 0 <= k < 3 ==> 0 <= order[k] < 3
    requires order[0] != order[1] && order[1] != order[2] && order[0] != order[2]
    requires labels == map[order[0] := names[0], order[1] := names[1], order[2] := names[2]]
    ensures {order[0], order[1], order[2]} == {0, 1, 2}
    ensures labels.Keys == {0, 1, 2}
    ensures forall a, b :: a in labels && b in labels && a != b ==> labels[a] != labels[b]
    ensures forall a :: a in labels ==> labels[a] in names
    ensures forall a, i :: a in labels && 0 <= i < 3 && labels[a] == names[i] ==> a == order[i]
  {
    assert {order[0], order[1], order[2]} == {0, 1, 2};
  }

  /** Names follow the ascending support order of the ids that carry them. */
  lemma OrderedNames(centres: seq<Centre>, order: seq<int>, names: seq<string>, labels: map<int, string>)
    requires |centres| == 3 && |order| == 3 && |names| == 3
    requires forall i, j :: 0 <= i < j < 3 ==> SupportOf(centres, order[i]) <= SupportOf(centres, order[j])
    requires forall a, i :: a in labels && 0 <= i < 3 && labels[a] == names[i] ==> a == order[i]
    ensures forall a, b, i, j :: a in labels && b in labels && 0 <= i < j < 3
              && labels[a] == names[i] && labels[b] == names[j]
              ==> SupportOf(centres, a) <= SupportOf(centres, b)
  {
  }

  /** The id whose support value beats both others carries the last name. */
  lemma TopCluster(centres: seq<Centre>, order: seq<int>, names: seq<string>, labels: map<int, string>)
    requires |centres| == 3 && |order| == 3 && |names| == 3
    requires forall i, j :: 0 <= i < j < 3 ==> SupportOf(centres, order[i]) <= SupportOf(centres, order[j])
    requires {order[0], order[1], order[2]} == {0, 1, 2}
    requires labels.Keys == {0, 1, 2}
    requires labels[order[2]] == names[2]
    ensures forall a :: 0 <= a < 3 && (forall b :: 0 <= b < 3 && b != a ==> centres[b].supports < centres[a].supports)
              ==> labels[a] == names[2]
  {
    forall a | 0 <= a < 3 && (forall b :: 0 <= b < 3 && b != a ==> centres[b].supports < centres[a].supports)
      ensures labels[a] == names[2]
    {
      assert SupportOf(centres, order[0]) <= SupportOf(centres, order[2]);
      assert SupportOf(centres, order[1]) <= SupportOf(centres, order[2]);
      assert a == order[2];
    }
  }
}
