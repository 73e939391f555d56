/**
 * The Brave web search client (acura/internal/services/brave_search.py): a GET retried
 * with exponential backoff on HTTP 429 Too Many Requests (section 4 of RFC 6585) and on
 * transport errors, and the YouTube video search built on it. The server is an oracle:
 * `server(request, k)` is its reply to the k-th attempt (counted from 0) of `request`.
 * Sleeps are recorded, not taken.
 */
module BraveSearch {
  import opened Wrappers

  /** A search hit; the pipeline reads its title and its url. */
  datatype SearchResult = SearchResult(title: string, url: string)

  /** `data[name]`: absent, present without "results", or present with a result list. */
  datatype Section = Missing | NoResults | Results(items: seq<SearchResult>)

  /** The decoded JSON body of a search response. */
  datatype ResponseData = ResponseData(web: Section, videos: Section)

  /** The request: the endpoint and the parameters the search sets. */
  datatype Request = Request(endpoint: string, q: string, count: int)

  /** A reply: a status line with its decoded body, or an `httpx.RequestError`. */
  datatype Reply = Status(code: int, data: ResponseData) | TransportError

  datatype Fault =
    | HttpStatusError(code: int)   // raised by `raise_for_status`
    | TransportFailure             // the last `RequestError`, re-raised
    | MaxRetriesExceeded           // the generic exception after the loop

  const TOO_MANY_REQUESTS: int := 429
  const DEFAULT_MAX_RETRIES: int := 5
  const SEARCH_ENDPOINT: string := "/res/v1/web/search"
  const SITE_FILTER: string := "site:youtube.com"
  const DEFAULT_NUM_RESULTS: int := 10

  function Pow2(k: nat): (p: nat)
    ensures p >= 1
  {
    if k == 0 then 1 else 2 * Pow2(k - 1)
  }

  /** A reply after which the loop tries again (if retries are left). */
  predicate Retried(reply: Reply) {
    reply == TransportError || (reply.Status? && reply.code == TOO_MANY_REQUESTS)
  }

  /** The i-th sleep lasts 2^i seconds. */
  predicate Doubling(sleeps: seq<nat>) {
    forall i :: 0 <= i < |sleeps| ==> sleeps[i] == Pow2(i)
  }

  lemma DoublingSnoc(sleeps: seq<nat>, next: nat)
    requires Doubling(sleeps) && next == Pow2(|sleeps|)
    ensures Doubling(sleeps + [next])
  {
    var t := sleeps + [next];
    forall i | 0 <= i < |t| ensures t[i] == Pow2(i) {
      if i < |sleeps| {
        assert t[i] == sleeps[i];
      }
    }
  }

  /** The outcome of the loop entered with `retries` attempts already used. */
  function Run(server: (Request, nat) -> Reply, request: Request, maxRetries: int, retries: nat): Result<ResponseData, Fault>
    decreases maxRetries - retries
  {
    if retries >= maxRetries then Failure(MaxRetriesExceeded)
    else
      var reply := server(request, retries);
      if reply.TransportError? then
        if retries + 1 >= maxRetries then Failure(TransportFailure) else Run(server, request, maxRetries, retries + 1)
      else if reply.code == TOO_MANY_REQUESTS then Run(server, request, maxRetries, retries + 1)
      else if 200 <= reply.code < 300 then Success(reply.data)
      else Failure(HttpStatusError(reply.code))
  }

  /** The loop ended on a reply it did not retry (and did not sleep after). */
  predicate EndedOnStatus(r: Result<ResponseData, Fault>) {
    r.Success? || r.error.HttpStatusError?
  }

  /**
   * `_make_request`: the outcome, the number of requests sent and the sleeps taken.
   * At most `maxRetries` requests go out, the i-th sleep lasts 2^i seconds, and every
   * request but a final non-retried one is followed by a sleep.
   */
  method MakeRequest(request: Request, server: (Request, nat) -> Reply, maxRetries: int := DEFAULT_MAX_RETRIES)
    returns (r: Result<ResponseData, Fault>, requests: nat, sleeps: seq<nat>)
    ensures r == Run(server, request, maxRetries, 0)
    ensures requests <= (if maxRetries > 0 then maxRetries else 0)
    ensures |sleeps| == (if EndedOnStatus(r) then requests - 1 else requests)
    ensures Doubling(sleeps)
    ensures EndedOnStatus(r) ==> requests >= 1 && !Retried(server(request, requests - 1))
  {
    var retries: nat := 0;
    var backoff: nat := 1;
    requests := 0;
    sleeps := [];
    while retries < maxRetries
      invariant requests == retries == |sleeps|
      invariant retries <= (if maxRetries > 0 then maxRetries else 0)
      invariant backoff == Pow2(retries)
      invariant Doubling(sleeps)
      invariant Run(server, request, maxRetries, retries) == Run(server, request, maxRetries, 0)
      decreases maxRetries - retries
    {
      var reply := server(request, retries);
      requests := requests + 1;
      if reply.Status? && reply.code != TOO_MANY_REQUESTS {
        if 200 <= reply.code < 300 {
          return Success(reply.data), requests, sleeps;
        }
        return Failure(HttpStatusError(reply.code)), requests, sleeps;
      }
      assert Pow2(retries + 1) == 2 * backoff;
      DoublingSnoc(sleeps, backoff);
      retries := retries + 1;
      sleeps := sleeps + [backoff];
      backoff := 2 * backoff;
      if reply.TransportError? && retries >= maxRetries {
        return Failure(TransportFailure), requests, sleeps;
      }
    }
    r := Failure(MaxRetriesExceeded);
  }

  /** Attempts that are all retried and leave one to spare do not change the outcome. */
  lemma {:induction false} SkipRetried(server: (Request, nat) -> Reply, request: Request, maxRetries: int, from: nat, j: nat)
    requires from <= j < maxRetries
    requires forall k :: from <= k < j ==> Retried(server(request, k))
    ensures Run(server, request, maxRetries, from) == Run(server, request, maxRetries, j)
    decreases j - from
  {
    if from < j {
      SkipRetried(server, request, maxRetries, from + 1, j);
    }
  }

  /** The first reply that is neither a 429 nor a transport error decides, within the budget. */
  lemma FirstStatusDecides(server: (Request, nat) -> Reply, request: Request, maxRetries: int, j: nat)
    requires j < maxRetries
    requires forall k :: 0 <= k < j ==> Retried(server(request, k))
    requires !Retried(server(request, j))
    ensures 200 <= server(request, j).code < 300 ==> Run(server, request, maxRetries, 0) == Success(server(request, j).data)
    ensures !(200 <= server(request, j).code < 300) ==>
              Run(server, request, maxRetries, 0) == Failure(HttpStatusError(server(request, j).code))
  {
    SkipRetried(server, request, maxRetries, 0, j);
  }

  /** A transport error on the last allowed attempt is re-raised. */
  lemma LastTransportErrorReraised(server: (Request, nat) -> Reply, request: Request, maxRetries: nat)
    requires maxRetries >= 1
    requires forall k :: 0 <= k < maxRetries - 1 ==> Retried(server(request, k))
    requires server(request, maxRetries - 1) == TransportError
    ensures Run(server, request, maxRetries, 0) == Failure(TransportFailure)
  {
    SkipRetried(server, request, maxRetries, 0, maxRetries - 1);
  }

  /** A server that answers 429 every time ends in the generic "Max retries exceeded" failure. */
  lemma {:induction false} AlwaysThrottled(server: (Request, nat) -> Reply, request: Request, maxRetries: int, from: nat)
    requires forall k :: server(request, k).Status? && server(request, k).code == TOO_MANY_REQUESTS
    ensures Run(server, request, maxRetries, from) == Failure(MaxRetriesExceeded)
    decreases maxRetries - from
  {
    if from < maxRetries {
      AlwaysThrottled(server, request, maxRetries, from + 1);
    }
  }

  /** With no retry budget nothing is sent. */
  lemma NoBudget(server: (Request, nat) -> Reply, request: Request, maxRetries: int)
    requires maxRetries <= 0
    ensures Run(server, request, maxRetries, 0) == Failure(MaxRetriesExceeded)
  {
  }

  function ItemsOf(s: Section): seq<SearchResult> {
    if s.Results? then s.items else []
  }

  /** The merged hits: web results, then video results, each only when the response has them. */
  method MergeResults(data: ResponseData) returns (results: seq<SearchResult>)
    ensures |results| == |ItemsOf(data.web)| + |ItemsOf(data.videos)|
    ensures results[..|ItemsOf(data.web)|] == ItemsOf(data.web)
    ensures results[|ItemsOf(data.web)|..] == ItemsOf(data.videos)
  {
    results := [];
    if data.web.Results? {
      results := results + data.web.items;
    }
    if data.videos.Results? {
      results := results + data.videos.items;
    }
  }

  /** The request `search_youtube_for_videos` sends for a query. */
  function SearchRequest(query: string, numResults: int): (req: Request)
    ensures |req.q| == |SITE_FILTER| + 1 + |query|
    ensures req.q[..|SITE_FILTER|] == SITE_FILTER && req.q[|SITE_FILTER|] == ' '
    ensures req.q[|SITE_FILTER| + 1..] == query
    ensures req.endpoint == SEARCH_ENDPOINT && req.count == numResults
  {
    Request(SEARCH_ENDPOINT, SITE_FILTER + " " + query, numResults)
  }

  /** The hits of a YouTube search: the merge of a successful request, or its failure. */
  function SearchOutcome(server: (Request, nat) -> Reply, query: string, numResults: int): Result<seq<SearchResult>, Fault> {
    match Run(server, SearchRequest(query, numResults), DEFAULT_MAX_RETRIES, 0)
    case Success(data) => Success(ItemsOf(data.web) + ItemsOf(data.videos))
    case Failure(e) => Failure(e)
  }

  /** `search_youtube_for_videos` with the default retry budget. */
  method SearchYoutubeForVideos(server: (Request, nat) -> Reply, query: string, numResults: int := DEFAULT_NUM_RESULTS)
    returns (r: Result<seq<SearchResult>, Fault>)
    ensures r == SearchOutcome(server, query, numResults)
  {
    var request := SearchRequest(query, numResults);
    var response, _, _ := MakeRequest(request, server);
    if response.Failure? {
      return Failure(response.error);
    }
    var results := MergeResults(response.value);
    assert results == results[..|ItemsOf(response.value.web)|] + results[|ItemsOf(response.value.web)|..];
    return Success(results);
  }
}
