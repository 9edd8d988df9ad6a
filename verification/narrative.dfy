/**
 The two rule-based text generators of the recommendation service
 (app.py): `generate_tags`, which turns a location's field data into
 short labels, and `generate_explanation`, which turns its supports,
 competitor distance, rent and sentiment into a list of reasons.

 Field data is a string-keyed dictionary of numbers read with
 `.get(key, 0)`. A reason is kept as a variant carrying the numbers its
 sentence shows rather than as the rendered sentence.
 */
module Narrative {
  import opened Basics

  /** A dictionary of field data. */
  type FieldData = map<string, real>

  /** `data.get(key, 0)`. */
  function Get(data: FieldData, key: string): real {
    if key in data then data[key] else 0.0
  }

  /** The keys of `FACILITY_MAP`. */
  datatype Facility =
    | School | University | Office | Bank | Atm | Mall | Supermarket
    | Hospital | Clinic | Residential | Fuel | Parking | BusStation
    | Station | TrainStation | Airport | Aerodrome

  /** The field-data key of a facility. */
  function Key(f: Facility): string {
    match f
    case School => "school"
    case University => "university"
    case Office => "office"
    case Bank => "bank"
    case Atm => "atm"
    case Mall => "mall"
    case Supermarket => "supermarket"
    case Hospital => "hospital"
    case Clinic => "clinic"
    case Residential => "residential"
    case Fuel => "fuel"
    case Parking => "parking"
    case BusStation => "bus_station"
    case Station => "station"
    case TrainStation => "train_station"
    case Airport => "airport"
    case Aerodrome => "aerodrome"
  }

  /** The tags a location can carry: the facility labels and the two
      crowd labels. */
  datatype Label =
    | Education | Campus | OfficeArea | Banking | AtmAccess | NearMall
    | DailyShopping | Health | Housing | FuelStation | ParkingArea
    | BusTerminal | TrainTerminal | AirportNearby
    | Hotspot | PublicFacilities

  /** The text of a tag. */
  function Text(l: Label): string {
    match l
    case Education => "🎓 Pendidikan"
    case Campus => "🎓 Kampus"
    case OfficeArea => "🏢 Area Kantor"
    case Banking => "🏦 Perbankan"
    case AtmAccess => "🏧 Akses ATM"
    case NearMall => "🛍️ Dekat Mall"
    case DailyShopping => "🛒 Belanja Harian"
    case Health => "🏥 RS/Klinik"
    case Housing => "🏠 Pemukiman"
    case FuelStation => "⛽ SPBU"
    case ParkingArea => "🅿️ Area Parkir"
    case BusTerminal => "🚌 Terminal Bus"
    case TrainTerminal => "🚉 Stasiun Kereta"
    case AirportNearby => "✈️ Bandara"
    case Hotspot => "🔥 Hotspot Ramai"
    case PublicFacilities => "✅ Ada Fasilitas Publik"
  }

  /** Distinct tags have distinct texts, so comparing tags is comparing
      their texts. */
  lemma TextInjective(a: Label, b: Label)
    ensures Text(a) == Text(b) ==> a == b
  {
    var s, t := Text(a), Text(b);
    assert s == t ==> s[0] == t[0] && |s| == |t|;
  }

  /** The label `FACILITY_MAP` gives a facility; hospital and clinic,
      station and train station, airport and aerodrome share one. */
  function LabelOf(f: Facility): (l: Label)
    ensures IsFacilityLabel(l)
  {
    match f
    case School => Education
    case University => Campus
    case Office => OfficeArea
    case Bank => Banking
    case Atm => AtmAccess
    case Mall => NearMall
    case Supermarket => DailyShopping
    case Hospital => Health
    case Clinic => Health
    case Residential => Housing
    case Fuel => FuelStation
    case Parking => ParkingArea
    case BusStation => BusTerminal
    case Station => TrainTerminal
    case TrainStation => TrainTerminal
    case Airport => AirportNearby
    case Aerodrome => AirportNearby
  }

  /** A label some facility maps to, as opposed to a crowd label. */
  predicate IsFacilityLabel(l: Label) {
    !l.Hotspot? && !l.PublicFacilities?
  }

  /** `FACILITY_MAP`'s keys in its iteration order. */
  const FacilityMap: seq<Facility> := [
    School, University, Office, Bank, Atm, Mall, Supermarket,
    Hospital, Clinic, Residential, Fuel, Parking, BusStation,
    Station, TrainStation, Airport, Aerodrome
  ]

  /** The key under which the field data carries the number of supports. */
  const SupportKey: string := "support_count"
  /** The key under which the field data carries the competitor distance. */
  const CompetitorKey: string := "competitor_dist"

  const HotspotThreshold: real := 15.0

  /** Entry `k` of `entries` has a positive value in the data and label `l`. */
  predicate Fires(data: FieldData, entries: seq<Facility>, k: int, l: Label) {
    0 <= k < |entries| && LabelOf(entries[k]) == l && Get(data, Key(entries[k])) > 0.0
  }

  /** An entry fires a label exactly when the first entry does or an entry
      of the rest does. */
  lemma FiresSplit(data: FieldData, entries: seq<Facility>, l: Label)
    requires |entries| > 0
    ensures (exists k :: Fires(data, entries, k, l)) <==>
      Fires(data, entries, 0, l) || exists k :: Fires(data, entries[1..], k, l)
  {
    if exists k :: Fires(data, entries[1..], k, l) {
      var k :| Fires(data, entries[1..], k, l);
      assert Fires(data, entries, k + 1, l);
    }
    if exists k :: Fires(data, entries, k, l) {
      var k :| Fires(data, entries, k, l);
      if k > 0 {
        assert Fires(data, entries[1..], k - 1, l);
      }
    }
  }

  /** The facility loop: appends, in order, the label of every entry with a
      positive value that is not yet in the list. */
  function CollectLabels(data: FieldData, entries: seq<Facility>, tags: seq<Label>): (r: seq<Label>)
    requires NoDuplicates(tags)
    ensures NoDuplicates(r)
    ensures forall l :: l in r <==> l in tags || exists k :: Fires(data, entries, k, l)
    ensures |r| == 0 <==> |tags| == 0 && forall k :: 0 <= k < |entries| ==> Get(data, Key(entries[k])) <= 0.0
    ensures (forall l :: l in tags ==> IsFacilityLabel(l)) ==> forall l :: l in r ==> IsFacilityLabel(l)
    decreases |entries|
  {
    if |entries| == 0 then tags
    else
      var f := entries[0];
      var next := if Get(data, Key(f)) > 0.0 && LabelOf(f) !in tags then tags + [LabelOf(f)] else tags;
      var r := CollectLabels(data, entries[1..], next);
      assert forall k :: 1 <= k < |entries| ==> entries[k] == entries[1..][k - 1];
      assert |next| == 0 <==> |tags| == 0 && Get(data, Key(f)) <= 0.0;
      assert forall l :: l in r <==> l in tags || exists k :: Fires(data, entries, k, l) by {
        forall l
          ensures l in r <==> l in tags || exists k :: Fires(data, entries, k, l)
        {
          FiresSplit(data, entries, l);
        }
      }
      r
  }

  /** The second half of `generate_tags`: the hotspot label put in front of
      the facility labels when there are more than 15 supports, or else the
      public facilities label when there are supports but no facility
      label. */
  function WithCrowdLabel(tags: seq<Label>, support: real): (r: seq<Label>)
    requires NoDuplicates(tags)
    requires forall l :: l in tags ==> IsFacilityLabel(l)
    ensures NoDuplicates(r)
    ensures (|r| > 0 && r[0] == Hotspot) <==> support > HotspotThreshold
    ensures Hotspot in r <==> support > HotspotThreshold
    ensures PublicFacilities in r <==> 0.0 < support <= HotspotThreshold && |tags| == 0
    ensures forall l :: IsFacilityLabel(l) ==> (l in r <==> l in tags)
  {
    assert !IsFacilityLabel(Hotspot) && !IsFacilityLabel(PublicFacilities);
    assert Hotspot !in tags && PublicFacilities !in tags;
    if support > HotspotThreshold then
      var r := [Hotspot] + tags;
      assert forall i :: 1 <= i < |r| ==> r[i] == tags[i - 1];
      assert forall l :: l in r <==> l == Hotspot || l in tags;
      r
    else if support > 0.0 && |tags| == 0 then
      [PublicFacilities]
    else
      assert |tags| > 0 ==> IsFacilityLabel(tags[0]);
      tags
  }

  /** The tags `generate_tags` builds with a given facility table: the
      facility labels in table order, each once, with the hotspot label
      inserted in front or the public-facilities label appended. */
  function TagsFor(data: FieldData, entries: seq<Facility>): (r: seq<Label>)
    ensures NoDuplicates(r)
    ensures (|r| > 0 && r[0] == Hotspot) <==> Get(data, SupportKey) > HotspotThreshold
    ensures Hotspot in r <==> Get(data, SupportKey) > HotspotThreshold
    ensures PublicFacilities in r <==>
      && 0.0 < Get(data, SupportKey) <= HotspotThreshold
      && forall k :: 0 <= k < |entries| ==> Get(data, Key(entries[k])) <= 0.0
    ensures forall f :: LabelOf(f) in r <==> exists k :: Fires(data, entries, k, LabelOf(f))
  {
    WithCrowdLabel(CollectLabels(data, entries, []), Get(data, SupportKey))
  }

  /** `generate_tags`, with `FACILITY_MAP`. */
  function GenerateTags(data: FieldData): (r: seq<Label>)
    ensures NoDuplicates(r)
    ensures (|r| > 0 && r[0] == Hotspot) <==> Get(data, SupportKey) > HotspotThreshold
    ensures PublicFacilities in r ==> 0.0 < Get(data, SupportKey) <= HotspotThreshold
  {
    TagsFor(data, FacilityMap)
  }

  /** The field data the geo scorer returns: only the support count and the
      competitor distance. */
  function GeoFieldData(supports: nat, competitorDist: real): (data: FieldData)
    ensures Get(data, SupportKey) == supports as real
    ensures Get(data, CompetitorKey) == competitorDist
    ensures forall key :: key in data ==> key == SupportKey || key == CompetitorKey
  {
    map[SupportKey := supports as real, CompetitorKey := competitorDist]
  }

  /** No facility key is one of the geo scorer's keys. */
  lemma FacilityKeysAreNotGeoKeys(f: Facility)
    ensures Key(f) != SupportKey && Key(f) != CompetitorKey
  {
    var key := Key(f);
    assert key[0] != SupportKey[0] || key[1] != SupportKey[1] || |key| != |SupportKey|;
    assert key[0] != CompetitorKey[0] || |key| != |CompetitorKey|;
  }

  /** The geo scorer's field data has no facility key, so with any facility
      table the tags of a scored location never name a facility: they are
      the hotspot label, the public facilities label, or nothing. */
  lemma GeoTagsNameNoFacility(supports: nat, competitorDist: real, entries: seq<Facility>)
    ensures TagsFor(GeoFieldData(supports, competitorDist), entries) ==
      if supports > 15 then [Hotspot]
      else if supports > 0 then [PublicFacilities]
      else []
  {
    var data := GeoFieldData(supports, competitorDist);
    forall k | 0 <= k < |entries|
      ensures Get(data, Key(entries[k])) == 0.0
    {
      FacilityKeysAreNotGeoKeys(entries[k]);
    }
  }

  /** On the geo scorer's field data the explanation's first two sentences
      are chosen by the support count and the competitor distance: above 20
      supports is very strategic, 5 or fewer is a quiet area; a competitor
      beyond 2000 m is a monopoly, within 500 m is tight competition. */
  lemma GeoExplanation(supports: nat, competitorDist: real, sewa: real, sentiment: real)
    ensures var rs := GenerateExplanation(GeoFieldData(supports, competitorDist), sewa, sentiment);
      && (rs[0].VeryStrategic? <==> supports as real > VeryStrategicAbove)
      && (rs[0].QuietArea? <==> supports as real <= FairlyStrategicAbove)
      && rs[0].supports == supports as real
      && (rs[1].Monopoly? <==> competitorDist > MonopolyBeyond)
      && (rs[1].TightCompetition? <==> competitorDist <= SafeBeyond)
  {
  }

  /** In particular with `FACILITY_MAP`. */
  lemma GeoTags(supports: nat, competitorDist: real)
    ensures GenerateTags(GeoFieldData(supports, competitorDist)) ==
      if supports > 15 then [Hotspot]
      else if supports > 0 then [PublicFacilities]
      else []
  {
    GeoTagsNameNoFacility(supports, competitorDist, FacilityMap);
  }

  /** One sentence of an explanation. */
  datatype Reason =
    | VeryStrategic(supports: real)
    | FairlyStrategic(supports: real)
    | QuietArea(supports: real)
    | Monopoly
    | Safe
    | TightCompetition(meters: int)
    | HighRent
    | AffordableRent
    | GoodReputation

  predicate IsFacilityLine(r: Reason) {
    r.VeryStrategic? || r.FairlyStrategic? || r.QuietArea?
  }

  predicate IsCompetitorLine(r: Reason) {
    r.Monopoly? || r.Safe? || r.TightCompetition?
  }

  predicate IsRentLine(r: Reason) {
    r.HighRent? || r.AffordableRent?
  }

  const VeryStrategicAbove: real := 20.0
  const FairlyStrategicAbove: real := 5.0
  const MonopolyBeyond: real := 2000.0
  const SafeBeyond: real := 500.0
  const HighRentAbove: real := 150000000.0
  const AffordableRentBelow: real := 50000000.0
  const GoodReputationAbove: real := 0.7

  /** Python's `int(x)`: truncation toward zero. */
  function Truncate(x: real): (n: int)
    ensures 0.0 <= x ==> n as real <= x < n as real + 1.0
    ensures x < 0.0 ==> n as real - 1.0 < x <= n as real
  {
    if 0.0 <= x then x.Floor else -((-x).Floor)
  }

  /** The facility sentence for a number of supports. */
  function FacilityLine(supports: real): (r: Reason)
    ensures IsFacilityLine(r) && r.supports == supports
    ensures r.VeryStrategic? <==> supports > VeryStrategicAbove
    ensures r.QuietArea? <==> supports <= FairlyStrategicAbove
  {
    if supports > VeryStrategicAbove then VeryStrategic(supports)
    else if supports > FairlyStrategicAbove then FairlyStrategic(supports)
    else QuietArea(supports)
  }

  /** The competitor sentence for the distance to the nearest competitor. */
  function CompetitorLine(dist: real): (r: Reason)
    ensures IsCompetitorLine(r)
    ensures r.Monopoly? <==> dist > MonopolyBeyond
    ensures r.TightCompetition? <==> dist <= SafeBeyond
    ensures r.TightCompetition? ==> r.meters == Truncate(dist)
  {
    if dist > MonopolyBeyond then Monopoly
    else if dist > SafeBeyond then Safe
    else TightCompetition(Truncate(dist))
  }

  /** The rent sentence, if the rent is outside [50 M, 150 M]. */
  function RentLines(sewa: real): (r: seq<Reason>)
    ensures |r| <= 1
    ensures forall i :: 0 <= i < |r| ==> IsRentLine(r[i])
    ensures |r| == 1 <==> sewa > HighRentAbove || sewa < AffordableRentBelow
  {
    if sewa > HighRentAbove then [HighRent]
    else if sewa < AffordableRentBelow then [AffordableRent]
    else []
  }

  /** Whether the rent is outside [50 M, 150 M], so a rent sentence is due. */
  predicate RentNoted(sewa: real) {
    sewa > HighRentAbove || sewa < AffordableRentBelow
  }

  /** `generate_explanation`: exactly one facility sentence and exactly one
      competitor sentence, in that order; then a rent sentence exactly when
      the rent is outside [50 M, 150 M]; then the reputation sentence
      exactly when the sentiment exceeds 0.7. */
  function GenerateExplanation(data: FieldData, sewa: real, sentiment: real): (rs: seq<Reason>)
    ensures |rs| == 2 + (if RentNoted(sewa) then 1 else 0) + (if sentiment > GoodReputationAbove then 1 else 0)
    ensures rs[0] == FacilityLine(Get(data, SupportKey)) && rs[1] == CompetitorLine(Get(data, CompetitorKey))
    ensures IsFacilityLine(rs[0]) && IsCompetitorLine(rs[1])
    ensures forall i :: 1 <= i < |rs| ==> !IsFacilityLine(rs[i])
    ensures forall i :: 0 <= i < |rs| && i != 1 ==> !IsCompetitorLine(rs[i])
    ensures forall i :: 0 <= i < |rs| ==> (IsRentLine(rs[i]) <==> i == 2 && RentNoted(sewa))
    ensures HighRent in rs <==> sewa > HighRentAbove
    ensures AffordableRent in rs <==> sewa < AffordableRentBelow
    ensures GoodReputation in rs <==> sentiment > GoodReputationAbove
  {
    var head := [FacilityLine(Get(data, SupportKey)), CompetitorLine(Get(data, CompetitorKey))];
    var rent := RentLines(sewa);
    var mood := if sentiment > GoodReputationAbove then [GoodReputation] else [];
    head + rent + mood
  }

  /** How favourable a facility sentence is, 0 to 2. */
  function FacilityBand(r: Reason): nat {
    if r.VeryStrategic? then 2 else if r.FairlyStrategic? then 1 else 0
  }

  /** How favourable a competitor sentence is, 0 to 2. */
  function CompetitorBand(r: Reason): nat {
    if r.Monopoly? then 2 else if r.Safe? then 1 else 0
  }

  /** More supports never give a less favourable facility sentence, and a
      farther competitor never gives a less favourable competitor sentence. */
  lemma BandsMonotone(s1: real, s2: real, d1: real, d2: real)
    requires s1 <= s2 && d1 <= d2
    ensures FacilityBand(FacilityLine(s1)) <= FacilityBand(FacilityLine(s2))
    ensures CompetitorBand(CompetitorLine(d1)) <= CompetitorBand(CompetitorLine(d2))
  {
  }
}
