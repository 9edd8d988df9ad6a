/**
 Points of interest of the GeoJSON dataset, as every geo scorer sees
 them after reprojection to metres: two optional tag attributes and the
 planar distance to the location being assessed.
 */
module Places {
  import opened Basics

  /** A point of interest. `dist` is its planar (EPSG:3857, metres)
      distance to the query location; `amenity` and `shop` are absent when
      the GeoJSON feature does not carry them (NaN in the frame). */
  datatype Poi = Poi(amenity: Option<string>, shop: Option<string>, dist: real)

  /** The record lies in the disc of the given radius around the query
      location (the buffer-intersection test, idealised as a true circle). */
  predicate Within(p: Poi, radius: real) {
    p.dist <= radius
  }

  /** The records of `pois` within `radius`, in order, each as many times
      as it occurs in `pois`. */
  function Neighbours(pois: seq<Poi>, radius: real): (r: seq<Poi>)
    ensures forall p :: p in r <==> p in pois && Within(p, radius)
    ensures forall p :: multiset(r)[p] == if Within(p, radius) then multiset(pois)[p] else 0
    ensures IsSubsequence(r, pois)
  {
    var r := Filter(pois, (p: Poi) => Within(p, radius));
    assert forall p :: p in pois && Within(p, radius) ==> multiset(r)[p] == multiset(pois)[p];
    r
  }

  /** The amenity attribute is present and is one of `tags`. */
  predicate AmenityIn(p: Poi, tags: seq<string>) {
    p.amenity.Some? && p.amenity.value in tags
  }

  /** `neighbors_amenity[neighbors_amenity['amenity'].isin(tags)].shape[0]`
      over the records with an amenity: the number of records whose amenity is present and one of `tags`. */
  function AmenityCount(pois: seq<Poi>, tags: seq<string>): (n: nat)
    ensures n <= |pois|
    ensures n == 0 <==> forall i :: 0 <= i < |pois| ==> !AmenityIn(pois[i], tags)
  {
    |Filter(pois, (p: Poi) => AmenityIn(p, tags))|
  }
}
