/**
 * Normalisation and de-duplication of the raw records: records without a place identifier are
 * skipped, the first record seen for each identifier is kept, and leads come out in first-seen
 * order (the insertion order of the `deduped` Map).
 */
module Dedup {
  import opened Wrappers
  import opened Json
  import opened Leads

  /** The name a lead gets when the provider sends none. */
  const UnknownBusiness := "Bilinmeyen İşletme"

  /** `if (!place.place_id) continue;` lets the record through. */
  predicate HasId(place: GooglePlace) {
    place.placeId.Some? && place.placeId.value != ""
  }

  /** `typeof place.rating === 'number' ? place.rating : undefined` */
  function NumericRating(rating: Option<Json>): (r: Option<real>)
    ensures r.Some? <==> rating.Some? && rating.value.JNumber?
    ensures r.Some? ==> rating == Some(JNumber(r.value))
  {
    if rating.Some? && rating.value.JNumber? then Some(rating.value.n) else None
  }

  /** The lead built from a raw record for a search by `keyword` in `city`, `country`. */
  function Normalise(place: GooglePlace, keyword: string, city: string, country: string): (lead: Lead)
    requires HasId(place)
    ensures Some(lead.placeId) == place.placeId
    ensures lead.name == place.name.GetOr(UnknownBusiness)
    ensures lead.sector == keyword && lead.city == city && lead.country == country
    ensures lead.address == place.formattedAddress && lead.phone == place.formattedPhoneNumber
    ensures lead.website == place.website && lead.rating == NumericRating(place.rating)
    ensures lead.lat == LatOf(place.geometry) && lead.lng == LngOf(place.geometry)
  {
    Lead(place.placeId.value, place.name.GetOr(UnknownBusiness), place.formattedAddress,
         place.formattedPhoneNumber, place.website, NumericRating(place.rating),
         keyword, city, country, LatOf(place.geometry), LngOf(place.geometry))
  }

  /** The de-duplicated leads of `raw`, built one record at a time from the left. */
  function Deduplicated(raw: seq<GooglePlace>, keyword: string, city: string, country: string): seq<Lead>
  {
    if raw == [] then []
    else
      var kept := Deduplicated(raw[..|raw| - 1], keyword, city, country);
      var place := raw[|raw| - 1];
      if !HasId(place) || place.placeId.value in PlaceIds(kept) then kept
      else kept + [Normalise(place, keyword, city, country)]
  }

  /** The index of the first record with identifier `id`, or |raw| when there is none. */
  function FirstIndex(raw: seq<GooglePlace>, id: string): (k: nat)
    ensures k <= |raw|
    ensures k < |raw| ==> raw[k].placeId == Some(id)
    ensures forall j :: 0 <= j < k && j < |raw| ==> raw[j].placeId != Some(id)
  {
    if raw == [] then 0
    else
      var k := FirstIndex(raw[..|raw| - 1], id);
      if k < |raw| - 1 then k
      else if raw[|raw| - 1].placeId == Some(id) then |raw| - 1
      else |raw|
  }

  lemma {:induction false} FirstIndexOfPrefix(raw: seq<GooglePlace>, n: nat, id: string)
    requires n <= |raw|
    requires FirstIndex(raw[..n], id) < n
    ensures FirstIndex(raw, id) == FirstIndex(raw[..n], id)
  {
    var k := FirstIndex(raw[..n], id);
    var f := FirstIndex(raw, id);
    assert raw[k] == raw[..n][k];
  }

  lemma PlaceIdsAppend(leads: seq<Lead>, lead: Lead)
    ensures PlaceIds(leads + [lead]) == PlaceIds(leads) + [lead.placeId]
  {
  }

  /** The identifiers that come out are non-empty and pairwise distinct; no lead is invented. */
  lemma {:induction false} DeduplicatedDistinct(raw: seq<GooglePlace>, keyword: string, city: string, country: string)
    ensures |Deduplicated(raw, keyword, city, country)| <= |raw|
    ensures DistinctIds(Deduplicated(raw, keyword, city, country))
    ensures forall i :: 0 <= i < |Deduplicated(raw, keyword, city, country)| ==>
      Deduplicated(raw, keyword, city, country)[i].placeId != ""
  {
    if raw != [] {
      var kept := Deduplicated(raw[..|raw| - 1], keyword, city, country);
      DeduplicatedDistinct(raw[..|raw| - 1], keyword, city, country);
      var place := raw[|raw| - 1];
      if HasId(place) && place.placeId.value !in PlaceIds(kept) {
        forall i | 0 <= i < |kept| ensures kept[i].placeId != place.placeId.value {
          assert PlaceIds(kept)[i] == kept[i].placeId;
        }
      }
    }
  }

  /** Every identifier present in the input is the identifier of some lead. */
  lemma {:induction false} DeduplicatedComplete(raw: seq<GooglePlace>, keyword: string, city: string, country: string)
    ensures forall k :: 0 <= k < |raw| && HasId(raw[k]) ==>
      raw[k].placeId.value in PlaceIds(Deduplicated(raw, keyword, city, country))
  {
    if raw != [] {
      var n := |raw| - 1;
      var kept := Deduplicated(raw[..n], keyword, city, country);
      var out := Deduplicated(raw, keyword, city, country);
      DeduplicatedComplete(raw[..n], keyword, city, country);
      var place := raw[n];
      if HasId(place) && place.placeId.value !in PlaceIds(kept) {
        PlaceIdsAppend(kept, Normalise(place, keyword, city, country));
      }
      forall k | 0 <= k < |raw| && HasId(raw[k]) ensures raw[k].placeId.value in PlaceIds(out) {
        if k < n {
          assert raw[..n][k] == raw[k];
        }
      }
    }
  }

  /** `lead` is the normalisation of the first record of `raw` that carries its identifier. */
  predicate BuiltFromFirst(raw: seq<GooglePlace>, lead: Lead, keyword: string, city: string, country: string) {
    lead.placeId != "" && FirstIndex(raw, lead.placeId) < |raw|
    && lead == Normalise(raw[FirstIndex(raw, lead.placeId)], keyword, city, country)
  }

  /** Each lead is built from the first record that carries its identifier. */
  lemma {:induction false} DeduplicatedKeepsFirst(raw: seq<GooglePlace>, keyword: string, city: string, country: string)
    ensures forall i :: 0 <= i < |Deduplicated(raw, keyword, city, country)| ==>
      BuiltFromFirst(raw, Deduplicated(raw, keyword, city, country)[i], keyword, city, country)
  {
    if raw != [] {
      var n := |raw| - 1;
      var prefix := raw[..n];
      var kept := Deduplicated(prefix, keyword, city, country);
      var out := Deduplicated(raw, keyword, city, country);
      DeduplicatedKeepsFirst(prefix, keyword, city, country);
      DeduplicatedDistinct(raw, keyword, city, country);
      forall i | 0 <= i < |kept|
        ensures FirstIndex(raw, kept[i].placeId) == FirstIndex(prefix, kept[i].placeId)
      {
        assert BuiltFromFirst(prefix, kept[i], keyword, city, country);
        FirstIndexOfPrefix(raw, n, kept[i].placeId);
        assert prefix[FirstIndex(prefix, kept[i].placeId)] == raw[FirstIndex(prefix, kept[i].placeId)];
      }
      var place := raw[n];
      if HasId(place) && place.placeId.value !in PlaceIds(kept) {
        var id := place.placeId.value;
        DeduplicatedComplete(prefix, keyword, city, country);
        assert FirstIndex(prefix, id) == n;
      }
    }
  }

  /** Leads come out in the order in which their identifiers first appear. */
  lemma {:induction false} DeduplicatedInFirstSeenOrder(raw: seq<GooglePlace>, keyword: string, city: string, country: string)
    ensures forall i, j :: 0 <= i < j < |Deduplicated(raw, keyword, city, country)| ==>
      FirstIndex(raw, Deduplicated(raw, keyword, city, country)[i].placeId)
      < FirstIndex(raw, Deduplicated(raw, keyword, city, country)[j].placeId)
  {
    if raw != [] {
      var n := |raw| - 1;
      var prefix := raw[..n];
      var kept := Deduplicated(prefix, keyword, city, country);
      var out := Deduplicated(raw, keyword, city, country);
      DeduplicatedInFirstSeenOrder(prefix, keyword, city, country);
      DeduplicatedKeepsFirst(prefix, keyword, city, country);
      forall i | 0 <= i < |kept|
        ensures FirstIndex(raw, kept[i].placeId) == FirstIndex(prefix, kept[i].placeId) < n
      {
        FirstIndexOfPrefix(raw, n, kept[i].placeId);
      }
      var place := raw[n];
      if HasId(place) && place.placeId.value !in PlaceIds(kept) {
        var id := place.placeId.value;
        DeduplicatedComplete(prefix, keyword, city, country);
        assert FirstIndex(prefix, id) == n;
        assert FirstIndex(raw, id) == n;
        assert out[|kept|].placeId == id;
      }
    }
  }

  /**
   * The `for (const place of rawResults)` loop filling the `deduped` Map, followed by
   * `Array.from(deduped.values())`. The Map is its key-to-value map and its insertion order.
   */
  method Deduplicate(raw: seq<GooglePlace>, keyword: string, city: string, country: string)
    returns (normalized: seq<Lead>)
    ensures normalized == Deduplicated(raw, keyword, city, country)
  {
    var deduped: map<string, Lead> := map[];
    var order: seq<string> := [];
    for i := 0 to |raw|
      invariant order == PlaceIds(Deduplicated(raw[..i], keyword, city, country))
      invariant forall id :: id in deduped <==> id in order
      invariant forall j :: 0 <= j < |order| ==>
                  order[j] in deduped && deduped[order[j]] == Deduplicated(raw[..i], keyword, city, country)[j]
    {
      var place := raw[i];
      assert raw[..i + 1][..i] == raw[..i];
      assert raw[..i + 1][i] == place;
      if !HasId(place) {
        continue;
      }
      if place.placeId.value in deduped {
        continue;
      }
      var lead := Normalise(place, keyword, city, country);
      deduped := deduped[place.placeId.value := lead];
      order := order + [place.placeId.value];
    }
    assert raw[..|raw|] == raw;
    normalized := seq(|order|, j requires 0 <= j < |order| => deduped[order[j]]);
  }
}
