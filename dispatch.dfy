/** How app.py sends one query to the search service (`perform_search`), the delay it
    waits between queries (`obfuscated_delay`) and the fingerprint it keys the rate
    limiter with (`anonymize_query`). The service itself is a parameter: a function
    from the request's parameters to its reply. */
module Dispatch {
  import opened Sampling

  datatype Option<T> = None | Some(value: T)

  /** `TOR_PROXY`: the proxy settings, one entry per scheme. */
  const TOR_PROXY: map<string, string> := map[
    "http" := "socks5h://127.0.0.1:9050",
    "https" := "socks5h://127.0.0.1:9050"
  ]

  /** The proxy address `perform_search` hands to the service when it routes over TOR. */
  const SERVICE_PROXY: string := "socks5://127.0.0.1:9050"

  /** The `num_results` of the retry, which falls back to the parameter's default. */
  const DEFAULT_NUM_RESULTS: int := 10

  /** One organic result as the service returns it: a JSON object. */
  type Hit = map<string, string>

  /** The `params` dictionary of one request. */
  datatype Params = Params(
    engine: string,
    q: string,
    apiKey: Option<string>,
    num: int,
    gl: string,
    hl: string,
    proxy: Option<string>)

  /** What `search.get_dict()` does: raise, or return a dictionary that may or may
      not hold an `organic_results` entry. */
  datatype Reply = Failure | Answer(organicResults: Option<seq<Hit>>)

  /** The search service: the reply to a request. */
  type Service = Params -> Reply

  /** `bool(TOR_PROXY)`. */
  predicate TorConfigured() {
    TOR_PROXY != map[]
  }

  /** TOR is always configured. */
  lemma TorIsConfigured()
    ensures TorConfigured()
  {
    assert "http" in TOR_PROXY;
  }

  /** The request `perform_search(query, use_tor, num_results)` sends, with the
      service key read from the environment (`None` when it is unset). */
  function SearchParams(query: string, useTor: bool, numResults: int, apiKey: Option<string>): (p: Params)
    ensures p.q == query && p.num == numResults && p.apiKey == apiKey
    ensures p.engine == "google" && p.gl == "us" && p.hl == "en"
    ensures p.proxy == (if useTor then Some(SERVICE_PROXY) else None)
  {
    TorIsConfigured();
    var proxy := if useTor && TorConfigured() then Some(SERVICE_PROXY) else None;
    Params("google", query, apiKey, numResults, "us", "en", proxy)
  }

  /** `results.get("organic_results", [])`. */
  function OrganicResults(organic: Option<seq<Hit>>): seq<Hit> {
    match organic
    case Some(hits) => hits
    case None => []
  }

  /** The outcome of `perform_search`: the results it returns and the requests it sent,
      in order. */
  datatype SearchRun = SearchRun(results: seq<Hit>, requests: seq<Params>)

  /** `perform_search(query, use_tor, num_results)`: ask the service once; if that
      raises and TOR was in use, ask once more without TOR and with the default
      number of results; if it raises without TOR, return no results. One or two
      requests go out, all for the query itself; the first is the one asked for, and
      a second goes out exactly when the first went over TOR and raised. */
  function PerformSearch(query: string, useTor: bool, numResults: int, apiKey: Option<string>, service: Service): (run: SearchRun)
    ensures 1 <= |run.requests| <= 2
    ensures run.requests[0] == SearchParams(query, useTor, numResults, apiKey)
    ensures |run.requests| == 2 <==> useTor && service(run.requests[0]).Failure?
    ensures forall i :: 0 <= i < |run.requests| ==> run.requests[i].q == query
    decreases if useTor then 1 else 0
  {
    var params := SearchParams(query, useTor, numResults, apiKey);
    match service(params)
    case Answer(organic) => SearchRun(OrganicResults(organic), [params])
    case Failure =>
      if useTor then
        var retry := PerformSearch(query, false, DEFAULT_NUM_RESULTS, apiKey, service);
        SearchRun(retry.results, [params] + retry.requests)
      else SearchRun([], [params])
  }

  /** A search without TOR sends exactly one request and returns that reply's organic
      results, or nothing when the request raised. */
  lemma DirectSearch(query: string, numResults: int, apiKey: Option<string>, service: Service)
    ensures var run := PerformSearch(query, false, numResults, apiKey, service);
      var first := SearchParams(query, false, numResults, apiKey);
      && run.requests == [first]
      && first.proxy == None
      && run.results == (if service(first).Failure? then [] else OrganicResults(service(first).organicResults))
  {
  }

  /** The fallback of `perform_search`: the first request goes over TOR; exactly when
      it raises, one more request for the same query goes out without TOR and with the
      default number of results, and its outcome is the result. Nothing is ever
      raised to the caller and no request is retried twice. */
  lemma {:induction false} SearchFallback(query: string, numResults: int, apiKey: Option<string>, service: Service)
    ensures var run := PerformSearch(query, true, numResults, apiKey, service);
      var first := SearchParams(query, true, numResults, apiKey);
      var second := SearchParams(query, false, DEFAULT_NUM_RESULTS, apiKey);
      && 1 <= |run.requests| <= 2
      && run.requests[0] == first
      && first.proxy == Some(SERVICE_PROXY)
      && (|run.requests| == 2 <==> service(first).Failure?)
      && (service(first).Answer? ==> run.results == OrganicResults(service(first).organicResults))
      && (service(first).Failure? ==>
            (run.requests[1] == second && second.proxy == None
             && run == SearchRun(PerformSearch(query, false, DEFAULT_NUM_RESULTS, apiKey, service).results, [first, second])))
      && (service(first).Failure? && service(second).Failure? ==> run.results == [])
  {
    var first := SearchParams(query, true, numResults, apiKey);
    if service(first).Failure? {
      DirectSearch(query, DEFAULT_NUM_RESULTS, apiKey, service);
    }
  }

  /** `obfuscated_delay()` for the normal sample `sample` (mean 0.8 s, deviation
      0.3 s): the sample clamped to between 0.3 and 2 seconds. */
  function ObfuscatedDelay(sample: real): (d: real)
    ensures 0.3 <= d <= 2.0
    ensures 0.3 <= sample <= 2.0 ==> d == sample
    ensures sample < 0.3 ==> d == 0.3
    ensures sample > 2.0 ==> d == 2.0
  {
    var capped := if sample < 2.0 then sample else 2.0;
    if 0.3 > capped then 0.3 else capped
  }

  /** Clamping is idempotent and keeps the order of the samples. */
  lemma DelayClampIdempotentAndMonotone(a: real, b: real)
    ensures ObfuscatedDelay(ObfuscatedDelay(a)) == ObfuscatedDelay(a)
    ensures a <= b ==> ObfuscatedDelay(a) <= ObfuscatedDelay(b)
  {
  }

  /** `anonymize_query(query)`: the first 16 characters of the hexadecimal SHA-256
      digest of the query, given as `hexDigest`. */
  function AnonymizeQuery(query: string, hexDigest: string -> string): (id: string)
    ensures |hexDigest(query)| >= 16 ==> |id| == 16
    ensures id <= hexDigest(query)
  {
    var hex := hexDigest(query);
    hex[..Min(16, |hex|)]
  }

  /** Requests with the same query text share one fingerprint and hence one rate-limit
      bucket; queries whose digests agree on their first 16 characters share one too. */
  lemma SameDigestPrefixSameFingerprint(a: string, b: string, hexDigest: string -> string)
    requires |hexDigest(a)| >= 16 && |hexDigest(b)| >= 16
    requires hexDigest(a)[..16] == hexDigest(b)[..16]
    ensures AnonymizeQuery(a, hexDigest) == AnonymizeQuery(b, hexDigest)
  {
  }
}
