/**
 * The text-search pagination loop: up to `pages` requests, the first with the query alone and
 * each later one with the continuation token of the page before; a page without a token ends
 * the loop, and a transport failure or a bad provider status ends the whole request.
 * The fetcher is the sequence of replies it gives, the k-th reply answering the k-th request.
 */
module Pagination {
  import opened Wrappers
  import opened Text
  import opened Leads

  /** The parts of a text-search request that vary: the query and the optional `pagetoken`. */
  datatype PageRequest = PageRequest(query: string, pageToken: Option<string>)

  /** The parsed JSON of a text-search reply; `results` is None when it is not an array. */
  datatype PageData = PageData(status: Option<string>, results: Option<seq<GooglePlace>>, nextPageToken: Option<string>)

  /** What a fetch gives: it throws (network failure or a body that is not JSON), a non-OK HTTP status, or a parsed body. */
  datatype PageReply = Thrown | NotOk(body: string) | Ok(data: PageData)

  /** How the loop ends: the collected raw records, a 502 with the upstream text, a 502 naming the status, or a 500 because a fetch threw. */
  datatype PageOutcome =
    | Collected(raw: seq<GooglePlace>)
    | HttpFailure(details: string)
    | StatusFailure(status: string)
    | FetchThrew

  /** `${keyword} in ${city} ${country}`.trim() */
  function Query(keyword: string, city: string, country: string): (q: string)
    ensures IsTrimmed(q)
  {
    Trim(keyword + " in " + city + " " + country)
  }

  /** A JavaScript truthiness test on an optional string: present and non-empty. */
  predicate Truthy(s: Option<string>) {
    s.Some? && s.value != ""
  }

  /** `data.status && !['OK', 'ZERO_RESULTS'].includes(data.status)` is false. */
  predicate StatusAccepted(status: Option<string>) {
    !Truthy(status) || status.value == "OK" || status.value == "ZERO_RESULTS"
  }

  /** The continuation token a reply carries, if any. */
  function TokenOf(reply: PageReply): Option<string> {
    if reply.Ok? then reply.data.nextPageToken else None
  }

  /** The reply is usable and asks for another page. */
  predicate Continues(reply: PageReply) {
    reply.Ok? && StatusAccepted(reply.data.status) && Truthy(reply.data.nextPageToken)
  }

  /** The records a reply contributes: its `results` when that is an array. */
  function ResultsOf(reply: PageReply): seq<GooglePlace> {
    if reply.Ok? && reply.data.results.Some? then reply.data.results.value else []
  }

  /** The concatenation, in page order, of the records of `replies`. */
  function AllResults(replies: seq<PageReply>): seq<GooglePlace>
  {
    if replies == [] then [] else AllResults(replies[..|replies| - 1]) + ResultsOf(replies[|replies| - 1])
  }

  /** One more page adds its records at the end. */
  lemma AllResultsStep(replies: seq<PageReply>, k: nat)
    requires k < |replies|
    ensures AllResults(replies[..k + 1]) == AllResults(replies[..k]) + ResultsOf(replies[k])
  {
    assert replies[..k + 1][..k] == replies[..k];
  }

  /** The k-th request: the query, with the token of the page before from the second on. */
  function RequestAt(query: string, replies: seq<PageReply>, k: nat): PageRequest
    requires k <= |replies|
  {
    if k == 0 then PageRequest(query, None) else PageRequest(query, TokenOf(replies[k - 1]))
  }

  /** The outcome decided by the last reply of a run, given what the earlier pages collected. */
  function Settle(last: PageReply, collected: seq<GooglePlace>): PageOutcome {
    match last
    case Thrown => FetchThrew
    case NotOk(body) => HttpFailure(body)
    case Ok(data) =>
      if !StatusAccepted(data.status) then StatusFailure(data.status.value)
      else Collected(collected + ResultsOf(last))
  }

  /** Each request of `issued` is the one the loop builds at its position. */
  predicate IssuedAsSpecified(query: string, replies: seq<PageReply>, issued: seq<PageRequest>) {
    |issued| <= |replies| && forall k :: 0 <= k < |issued| ==> issued[k] == RequestAt(query, replies, k)
  }

  /** The first `n` replies all ask for another page. */
  predicate ContinuedBefore(replies: seq<PageReply>, n: nat) {
    n <= |replies| && forall k :: 0 <= k < n ==> Continues(replies[k])
  }

  /**
   * `issued` is a run of the loop against `replies`: between one and `pages` requests, the k-th
   * built from the reply before it, every reply but the last asking for another page, and the
   * last one ending the run unless the page budget did.
   */
  predicate PagedAsSpecified(query: string, pages: nat, replies: seq<PageReply>, issued: seq<PageRequest>) {
    && 1 <= |issued| <= pages
    && IssuedAsSpecified(query, replies, issued)
    && ContinuedBefore(replies, |issued| - 1)
    && (|issued| == pages || !Continues(replies[|issued| - 1]))
  }

  /** Issuing the next request keeps the requests as specified. */
  lemma IssuedStep(query: string, replies: seq<PageReply>, issued: seq<PageRequest>)
    requires IssuedAsSpecified(query, replies, issued) && |issued| < |replies|
    ensures IssuedAsSpecified(query, replies, issued + [RequestAt(query, replies, |issued|)])
  {
  }

  /** One more reply that asks for another page. */
  lemma ContinuedStep(replies: seq<PageReply>, n: nat)
    requires ContinuedBefore(replies, n) && n < |replies| && Continues(replies[n])
    ensures ContinuedBefore(replies, n + 1)
  {
  }

  /** The replies decide the run: at most one sequence of requests fits them. */
  lemma {:induction false} PagingIsDetermined(query: string, pages: nat, replies: seq<PageReply>, a: seq<PageRequest>, b: seq<PageRequest>)
    requires PagedAsSpecified(query, pages, replies, a)
    requires PagedAsSpecified(query, pages, replies, b)
    ensures a == b
  {
    assert |a| == |b|;
    forall k | 0 <= k < |a| ensures a[k] == b[k] {
    }
  }

  /**
   * The `for (pageIndex ...)` loop. `issued` are the requests made, in order.
   */
  method FetchPages(query: string, pages: nat, replies: seq<PageReply>)
    returns (issued: seq<PageRequest>, outcome: PageOutcome)
    requires 1 <= pages <= |replies|
    ensures PagedAsSpecified(query, pages, replies, issued)
    ensures outcome == Settle(replies[|issued| - 1], AllResults(replies[..|issued| - 1]))
    ensures outcome.Collected? ==> outcome.raw == AllResults(replies[..|issued|])
  {
    issued := [];
    var rawResults: seq<GooglePlace> := [];
    var nextPageToken: Option<string> := None;
    var pageIndex := 0;
    while pageIndex < pages
      invariant 0 <= pageIndex <= pages
      invariant |issued| == pageIndex
      invariant IssuedAsSpecified(query, replies, issued)
      invariant ContinuedBefore(replies, pageIndex)
      invariant rawResults == AllResults(replies[..pageIndex])
      invariant pageIndex > 0 ==> nextPageToken == TokenOf(replies[pageIndex - 1])
    {
      var pageToken: Option<string> := None;
      if pageIndex > 0 {
        if !Truthy(nextPageToken) {
          break;
        }
        pageToken := nextPageToken;
      }
      IssuedStep(query, replies, issued);
      issued := issued + [PageRequest(query, pageToken)];
      var reply := replies[pageIndex];
      AllResultsStep(replies, pageIndex);
      match reply {
        case Thrown =>
          outcome := FetchThrew;
          return;
        case NotOk(body) =>
          outcome := HttpFailure(body);
          return;
        case Ok(data) =>
          if !StatusAccepted(data.status) {
            outcome := StatusFailure(data.status.value);
            return;
          }
          rawResults := rawResults + ResultsOf(reply);
          nextPageToken := data.nextPageToken;
          if !Truthy(nextPageToken) {
            break;
          }
      }
      ContinuedStep(replies, pageIndex);
      pageIndex := pageIndex + 1;
    }
    AllResultsStep(replies, |issued| - 1);
    outcome := Collected(rawResults);
  }
}
