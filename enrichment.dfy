/**
 * Enrichment of the first leads with detail lookups: at most 20 targets, one lookup each, a
 * failed lookup giving no detail; the details are gathered into `detailMap` by place
 * identifier, and each lead found there has phone, website, latitude and longitude replaced
 * by the values the detail supplies.
 */
module Enrichment {
  import opened Wrappers
  import opened Leads

  /** The cap on detail lookups per search. */
  const MaxDetailTargets := 20

  /** The `result` object of a details reply. */
  datatype DetailResult = DetailResult(formattedPhoneNumber: Option<string>, website: Option<string>, geometry: Option<Geometry>)

  /** What a detail lookup gives: it throws, a non-OK HTTP status, or a parsed body with its `status` and `result`. */
  datatype DetailReply = DetailThrown | DetailNotOk | DetailBody(status: Option<string>, result: Option<DetailResult>)

  /** The values a detail supplies; None where the provider sent nothing. */
  datatype DetailFields = DetailFields(phone: Option<string>, website: Option<string>, lat: Option<real>, lng: Option<real>)

  /** One element of `enrichResults`. */
  datatype Detail = Detail(placeId: string, fields: DetailFields)

  /** `normalized.slice(0, 20)`. */
  function Targets(leads: seq<Lead>): (targets: seq<Lead>)
    ensures |targets| == if |leads| < MaxDetailTargets then |leads| else MaxDetailTargets
    ensures targets == leads[..|targets|]
  {
    if |leads| < MaxDetailTargets then leads else leads[..MaxDetailTargets]
  }

  /** The per-target async callback: a thrown fetch, a non-OK response or a status other than OK give null. */
  function LookupOutcome(item: Lead, reply: DetailReply): (d: Option<Detail>)
    ensures d.Some? <==> reply.DetailBody? && reply.status == Some("OK")
    ensures d.Some? ==> d.value.placeId == item.placeId
    ensures d.Some? && reply.result.None? ==> d.value.fields == DetailFields(None, None, None, None)
    ensures d.Some? && reply.result.Some? ==>
      d.value.fields == DetailFields(reply.result.value.formattedPhoneNumber, reply.result.value.website,
                                     LatOf(reply.result.value.geometry), LngOf(reply.result.value.geometry))
  {
    match reply
    case DetailThrown => None
    case DetailNotOk => None
    case DetailBody(status, result) =>
      if status != Some("OK") then None
      else
        var detail := result.GetOr(DetailResult(None, None, None));
        Some(Detail(item.placeId, DetailFields(detail.formattedPhoneNumber, detail.website,
                                                LatOf(detail.geometry), LngOf(detail.geometry))))
  }

  /** `enrichResults`: the outcome of each target's lookup, in target order. */
  function Lookups(targets: seq<Lead>, replies: seq<DetailReply>): (results: seq<Option<Detail>>)
    requires |replies| == |targets|
    ensures |results| == |targets|
    ensures forall i :: 0 <= i < |targets| ==> results[i] == LookupOutcome(targets[i], replies[i])
  {
    seq(|targets|, i requires 0 <= i < |targets| => LookupOutcome(targets[i], replies[i]))
  }

  /** The detail map after `enrichResults.forEach(...)` has seen `results`: later details win. */
  function DetailMapOf(results: seq<Option<Detail>>): map<string, DetailFields>
  {
    if results == [] then map[]
    else
      var m := DetailMapOf(results[..|results| - 1]);
      var detail := results[|results| - 1];
      if detail.None? || detail.value.placeId == "" then m
      else m[detail.value.placeId := detail.value.fields]
  }

  /** The `forEach` that fills `detailMap`, skipping null outcomes and empty identifiers. */
  method BuildDetailMap(enrichResults: seq<Option<Detail>>) returns (detailMap: map<string, DetailFields>)
    ensures detailMap == DetailMapOf(enrichResults)
  {
    detailMap := map[];
    for i := 0 to |enrichResults|
      invariant detailMap == DetailMapOf(enrichResults[..i])
    {
      assert enrichResults[..i + 1][..i] == enrichResults[..i];
      var detail := enrichResults[i];
      if detail.None? || detail.value.placeId == "" {
        continue;
      }
      detailMap := detailMap[detail.value.placeId := detail.value.fields];
    }
    assert enrichResults[..|enrichResults|] == enrichResults;
  }

  /**
   * For targets with distinct identifiers, a target's identifier is in the detail map exactly
   * when its lookup succeeded, with that lookup's fields; nothing else is in the map.
   */
  lemma {:induction false} DetailMapOfLookups(targets: seq<Lead>, replies: seq<DetailReply>)
    requires |replies| == |targets|
    requires DistinctIds(targets)
    ensures forall i :: 0 <= i < |targets| ==>
      ((targets[i].placeId in DetailMapOf(Lookups(targets, replies)))
         <==> (LookupOutcome(targets[i], replies[i]).Some? && targets[i].placeId != ""))
    ensures forall i :: 0 <= i < |targets| && targets[i].placeId in DetailMapOf(Lookups(targets, replies)) ==>
      DetailMapOf(Lookups(targets, replies))[targets[i].placeId] == LookupOutcome(targets[i], replies[i]).value.fields
    ensures forall id :: id in DetailMapOf(Lookups(targets, replies)) ==> id in PlaceIds(targets)
  {
    if targets != [] {
      var n := |targets| - 1;
      var results := Lookups(targets, replies);
      assert results[..n] == Lookups(targets[..n], replies[..n]);
      DetailMapOfLookups(targets[..n], replies[..n]);
      assert PlaceIds(targets) == PlaceIds(targets[..n]) + [targets[n].placeId];
      forall i | 0 <= i < n ensures targets[i].placeId != targets[n].placeId {
      }
    }
  }

  /** The spread `{...item, phone: detail.phone ?? item.phone, ...}`. */
  function MergeLead(item: Lead, detail: DetailFields): (r: Lead)
    ensures r.placeId == item.placeId && r.name == item.name && r.address == item.address
    ensures r.rating == item.rating && r.sector == item.sector && r.city == item.city && r.country == item.country
    ensures r.phone == if detail.phone.Some? then detail.phone else item.phone
    ensures r.website == if detail.website.Some? then detail.website else item.website
    ensures r.lat == if detail.lat.Some? then detail.lat else item.lat
    ensures r.lng == if detail.lng.Some? then detail.lng else item.lng
  {
    item.(phone := detail.phone.Or(item.phone), website := detail.website.Or(item.website),
          lat := detail.lat.Or(item.lat), lng := detail.lng.Or(item.lng))
  }

  /** `normalized.map(...)`: leads found in the detail map are merged, the others come back as they were. */
  function Merge(normalized: seq<Lead>, detailMap: map<string, DetailFields>): (r: seq<Lead>)
    ensures |r| == |normalized| && PlaceIds(r) == PlaceIds(normalized)
    ensures forall i :: 0 <= i < |normalized| && normalized[i].placeId !in detailMap ==> r[i] == normalized[i]
    ensures forall i :: 0 <= i < |normalized| && normalized[i].placeId in detailMap ==>
      r[i] == MergeLead(normalized[i], detailMap[normalized[i].placeId])
  {
    seq(|normalized|, i requires 0 <= i < |normalized| =>
      var item := normalized[i];
      if item.placeId in detailMap then MergeLead(item, detailMap[item.placeId]) else item)
  }

  /** The enrichment step as a whole: skipped unless enrich is set and there is a lead. */
  function Enriched(normalized: seq<Lead>, enrich: bool, replies: seq<DetailReply>): seq<Lead>
    requires |replies| == |Targets(normalized)|
  {
    if enrich && |normalized| > 0 then Merge(normalized, DetailMapOf(Lookups(Targets(normalized), replies)))
    else normalized
  }

  /**
   * Enrichment keeps the length and the order of identifiers, leaves every lead past the
   * first 20 and every lead whose lookup failed as it was, and merges the supplied values
   * into the others.
   */
  lemma EnrichedSpec(normalized: seq<Lead>, enrich: bool, replies: seq<DetailReply>)
    requires |replies| == |Targets(normalized)|
    requires DistinctIds(normalized)
    ensures |Enriched(normalized, enrich, replies)| == |normalized|
    ensures PlaceIds(Enriched(normalized, enrich, replies)) == PlaceIds(normalized)
    ensures !enrich ==> Enriched(normalized, enrich, replies) == normalized
    ensures forall i :: MaxDetailTargets <= i < |normalized| ==> Enriched(normalized, enrich, replies)[i] == normalized[i]
    ensures forall i :: 0 <= i < |replies| && (LookupOutcome(normalized[i], replies[i]).None? || normalized[i].placeId == "") ==>
      Enriched(normalized, enrich, replies)[i] == normalized[i]
    ensures forall i :: 0 <= i < |replies| && enrich && LookupOutcome(normalized[i], replies[i]).Some? && normalized[i].placeId != "" ==>
      Enriched(normalized, enrich, replies)[i] == MergeLead(normalized[i], LookupOutcome(normalized[i], replies[i]).value.fields)
  {
    var targets := Targets(normalized);
    if enrich && |normalized| > 0 {
      DetailMapOfLookups(targets, replies);
      var m := DetailMapOf(Lookups(targets, replies));
      forall i | MaxDetailTargets <= i < |normalized| ensures normalized[i].placeId !in PlaceIds(targets) {
        forall j | 0 <= j < |targets| ensures PlaceIds(targets)[j] != normalized[i].placeId {
          assert targets[j] == normalized[j];
        }
      }
      forall i | 0 <= i < |replies| ensures normalized[i] == targets[i] {
      }
    }
  }
}
