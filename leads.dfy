/**
 * The two record shapes of the places search: the provider's raw record (`GooglePlace` in
 * src/app/api/places/search/route.ts) and the normalised lead (`NormalizedPlace` there,
 * `PlaceResult` in src/app/search/page.tsx). Latitude, longitude and rating are numbers that
 * nothing computes with; a real stands for each.
 */
module Leads {
  import opened Wrappers
  import opened Json

  datatype LatLng = LatLng(lat: Option<real>, lng: Option<real>)

  datatype Geometry = Geometry(location: Option<LatLng>)

  /** A raw text-search record. `rating` is kept as JSON because the code tests its type. */
  datatype GooglePlace = GooglePlace(
    placeId: Option<string>,
    name: Option<string>,
    formattedAddress: Option<string>,
    rating: Option<Json>,
    formattedPhoneNumber: Option<string>,
    website: Option<string>,
    geometry: Option<Geometry>)

  /** `place.geometry?.location?.lat`. */
  function LatOf(g: Option<Geometry>): Option<real> {
    if g.Some? && g.value.location.Some? then g.value.location.value.lat else None
  }

  /** `place.geometry?.location?.lng`. */
  function LngOf(g: Option<Geometry>): Option<real> {
    if g.Some? && g.value.location.Some? then g.value.location.value.lng else None
  }

  /** A normalised lead. */
  datatype Lead = Lead(
    placeId: string,
    name: string,
    address: Option<string>,
    phone: Option<string>,
    website: Option<string>,
    rating: Option<real>,
    sector: string,
    city: string,
    country: string,
    lat: Option<real>,
    lng: Option<real>)

  /** The place identifiers of `leads`, in order. */
  function PlaceIds(leads: seq<Lead>): (ids: seq<string>)
    ensures |ids| == |leads|
    ensures forall i :: 0 <= i < |leads| ==> ids[i] == leads[i].placeId
  {
    seq(|leads|, i requires 0 <= i < |leads| => leads[i].placeId)
  }

  /** No two leads share a place identifier. */
  predicate DistinctIds(leads: seq<Lead>) {
    forall i, j :: 0 <= i < j < |leads| ==> leads[i].placeId != leads[j].placeId
  }
}
