/**
 * The `POST` handler of the places-search endpoint: session check, request validation, API
 * key check, pagination, de-duplication and optional enrichment.
 */
module PlacesSearch {
  import opened Wrappers
  import opened Json
  import opened Leads
  import opened PlacesRequest
  import opened Pagination
  import opened Dedup
  import opened Enrichment

  /** The handler's answers, by HTTP status. */
  datatype SearchResponse =
    | Unauthorized                        // 401
    | InvalidRequest                      // 400, schema failure
    | MissingApiKey                       // 400, no places API key configured
    | UpstreamHttpError(details: string)  // 502, non-OK text-search response
    | UpstreamStatusError(status: string) // 502, provider status other than OK / ZERO_RESULTS
    | ServerError                         // 500, something threw
    | Items(items: seq<Lead>)             // 200

  /** The answer once the pagination run of `n` requests is over. */
  function Respond(req: SearchRequest, pageReplies: seq<PageReply>, n: nat, detailReplies: seq<DetailReply>): SearchResponse
    requires 1 <= n <= |pageReplies|
    requires |detailReplies| >= MaxDetailTargets
  {
    match Settle(pageReplies[n - 1], AllResults(pageReplies[..n - 1]))
    case Collected(raw) =>
      var normalized := Deduplicated(raw, req.keyword, req.city, req.country);
      Items(Enriched(normalized, req.enrich, detailReplies[..|Targets(normalized)|]))
    case HttpFailure(details) => UpstreamHttpError(details)
    case StatusFailure(status) => UpstreamStatusError(status)
    case FetchThrew => ServerError
  }

  /**
   * `POST /api/places/search`. The k-th text-search fetch is answered by `pageReplies[k]`,
   * the lookup of the k-th enrichment target by `detailReplies[k]`; `numberOf` is `Number(...)`.
   * `pageRequests` and `detailLookups` record the upstream calls made.
   */
  method SearchPost(authenticated: bool, body: Option<Json>, numberOf: Json -> JsNumber, apiKey: string,
                    pageReplies: seq<PageReply>, detailReplies: seq<DetailReply>)
    returns (response: SearchResponse, pageRequests: seq<PageRequest>, detailLookups: nat)
    requires |pageReplies| >= MaxPages
    requires |detailReplies| >= MaxDetailTargets
    ensures !authenticated ==> response == Unauthorized && pageRequests == [] && detailLookups == 0
    ensures authenticated && ParseRequest(body, numberOf).None? ==>
      response == InvalidRequest && pageRequests == [] && detailLookups == 0
    ensures authenticated && ParseRequest(body, numberOf).Some? && apiKey == "" ==>
      response == MissingApiKey && pageRequests == [] && detailLookups == 0
    ensures authenticated && ParseRequest(body, numberOf).Some? && apiKey != "" ==>
      && PagedAsSpecified(Query(ParseRequest(body, numberOf).value.keyword, ParseRequest(body, numberOf).value.city,
                                ParseRequest(body, numberOf).value.country),
                          ParseRequest(body, numberOf).value.pages, pageReplies, pageRequests)
      && response == Respond(ParseRequest(body, numberOf).value, pageReplies, |pageRequests|, detailReplies)
      && detailLookups == (if ParseRequest(body, numberOf).value.enrich && response.Items? then |Targets(response.items)| else 0)
      && detailLookups <= MaxDetailTargets
      && (detailLookups > 0 ==> ParseRequest(body, numberOf).value.enrich && response.Items?)
  {
    pageRequests, detailLookups := [], 0;
    if !authenticated {
      return Unauthorized, pageRequests, detailLookups;
    }
    var parsed := ParseRequest(body, numberOf);
    if parsed.None? {
      return InvalidRequest, pageRequests, detailLookups;
    }
    var req := parsed.value;
    if apiKey == "" {
      return MissingApiKey, pageRequests, detailLookups;
    }
    response, pageRequests, detailLookups := RunSearch(req, pageReplies, detailReplies);
  }

  /**
   * The `try` block of the handler for a validated request: the paged text search, then
   * de-duplication and enrichment. The answer is the one the replies decide, and one detail
   * lookup is made per enrichment target.
   */
  method RunSearch(req: SearchRequest, pageReplies: seq<PageReply>, detailReplies: seq<DetailReply>)
    returns (response: SearchResponse, pageRequests: seq<PageRequest>, detailLookups: nat)
    requires MinPages <= req.pages <= MaxPages
    requires |pageReplies| >= MaxPages
    requires |detailReplies| >= MaxDetailTargets
    ensures PagedAsSpecified(Query(req.keyword, req.city, req.country), req.pages, pageReplies, pageRequests)
    ensures response == Respond(req, pageReplies, |pageRequests|, detailReplies)
    ensures detailLookups == if req.enrich && response.Items? then |Targets(response.items)| else 0
  {
    detailLookups := 0;
    var outcome;
    pageRequests, outcome := FetchPages(Query(req.keyword, req.city, req.country), req.pages, pageReplies);
    match outcome {
      case HttpFailure(details) => response := UpstreamHttpError(details);
      case StatusFailure(status) => response := UpstreamStatusError(status);
      case FetchThrew => response := ServerError;
      case Collected(rawResults) =>
        var items;
        items, detailLookups := NormaliseAndEnrich(req, rawResults, detailReplies);
        response := Items(items);
    }
  }

  /**
   * What the handler does with the collected records: de-duplicate them, then, when `enrich`
   * is set and there are leads, look up the first 20 and merge the answers in. The lookup of
   * the k-th target is answered by `detailReplies[k]`; `detailLookups` counts the lookups made.
   */
  method NormaliseAndEnrich(req: SearchRequest, rawResults: seq<GooglePlace>, detailReplies: seq<DetailReply>)
    returns (items: seq<Lead>, detailLookups: nat)
    requires |detailReplies| >= MaxDetailTargets
    ensures var deduped := Deduplicated(rawResults, req.keyword, req.city, req.country);
      items == Enriched(deduped, req.enrich, detailReplies[..|Targets(deduped)|])
    ensures detailLookups == if req.enrich then |Targets(items)| else 0
  {
    var normalized := Deduplicate(rawResults, req.keyword, req.city, req.country);
    ghost var deduped := normalized;
    if req.enrich && |normalized| > 0 {
      var detailTargets := Targets(normalized);
      detailLookups := |detailTargets|;
      var enrichResults := Lookups(detailTargets, detailReplies[..|detailTargets|]);
      var detailMap := BuildDetailMap(enrichResults);
      normalized := Merge(normalized, detailMap);
    } else {
      detailLookups := 0;
    }
    items := normalized;
    assert |Targets(items)| == |Targets(deduped)|;
  }

  /**
   * A successful search answers with leads that have non-empty, pairwise distinct
   * identifiers, carry the request's keyword as sector and its city and country, and are
   * no more numerous than the raw records collected.
   */
  lemma SearchItemsSpec(req: SearchRequest, pageReplies: seq<PageReply>, n: nat, detailReplies: seq<DetailReply>)
    requires 1 <= n <= |pageReplies|
    requires |detailReplies| >= MaxDetailTargets
    requires Respond(req, pageReplies, n, detailReplies).Items?
    ensures DistinctIds(Respond(req, pageReplies, n, detailReplies).items)
    ensures |Respond(req, pageReplies, n, detailReplies).items| <= |AllResults(pageReplies[..n])|
    ensures forall i :: 0 <= i < |Respond(req, pageReplies, n, detailReplies).items| ==>
      && Respond(req, pageReplies, n, detailReplies).items[i].placeId != ""
      && Respond(req, pageReplies, n, detailReplies).items[i].sector == req.keyword
      && Respond(req, pageReplies, n, detailReplies).items[i].city == req.city
      && Respond(req, pageReplies, n, detailReplies).items[i].country == req.country
  {
    assert pageReplies[..n] == pageReplies[..n - 1] + [pageReplies[n - 1]];
    assert pageReplies[..n][..n - 1] == pageReplies[..n - 1];
    var raw := AllResults(pageReplies[..n]);
    var normalized := Deduplicated(raw, req.keyword, req.city, req.country);
    DeduplicatedDistinct(raw, req.keyword, req.city, req.country);
    DeduplicatedKeepsFirst(raw, req.keyword, req.city, req.country);
    var replies := detailReplies[..|Targets(normalized)|];
    EnrichedSpec(normalized, req.enrich, replies);
    var items := Enriched(normalized, req.enrich, replies);
    assert items == Respond(req, pageReplies, n, detailReplies).items;
    forall i | 0 <= i < |items|
      ensures items[i].placeId == normalized[i].placeId && items[i].sector == normalized[i].sector
      ensures items[i].city == normalized[i].city && items[i].country == normalized[i].country
    {
      assert PlaceIds(items)[i] == PlaceIds(normalized)[i];
      assert BuiltFromFirst(raw, normalized[i], req.keyword, req.city, req.country);
    }
    forall i, j | 0 <= i < j < |items| ensures items[i].placeId != items[j].placeId {
      assert PlaceIds(items)[i] == PlaceIds(normalized)[i];
      assert PlaceIds(items)[j] == PlaceIds(normalized)[j];
    }
  }
}
