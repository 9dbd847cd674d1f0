/** The `/search` endpoint of app.py (`private_search`): parameter validation, rate
    limiting keyed by the query fingerprint, the query check, decoy generation, mixing
    the real query in at a random position, and sending every query in turn with a
    random pause between consecutive ones. */
module Search {
  import opened Text
  import opened Sampling
  import opened RateLimit
  import opened Decoys
  import opened Dispatch

  // ---------------------------------------------------------------------------
  // Mixing the real query into the decoys

  /** `xs.insert(k, x)` for `0 <= k <= len(xs)`. */
  function Insert<T>(xs: seq<T>, k: nat, x: T): (r: seq<T>)
    requires k <= |xs|
    ensures |r| == |xs| + 1
    ensures r[k] == x
    ensures forall i :: 0 <= i < k ==> r[i] == xs[i]
    ensures forall i :: k < i < |r| ==> r[i] == xs[i - 1]
  {
    xs[..k] + [x] + xs[k..]
  }

  /** Taking the inserted element out again gives the original list back. */
  lemma InsertThenRemove<T>(xs: seq<T>, k: nat, x: T)
    requires k <= |xs|
    ensures RemoveAt(Insert(xs, k, x), k) == xs
  {
    var r := RemoveAt(Insert(xs, k, x), k);
    assert |r| == |xs|;
    forall i | 0 <= i < |xs| ensures r[i] == xs[i] {
      if i < k {
        assert r[i] == Insert(xs, k, x)[i];
      } else {
        assert r[i] == Insert(xs, k, x)[i + 1];
      }
    }
  }

  /** The mixed list holds exactly the decoys and the real query. */
  lemma InsertMembers<T>(xs: seq<T>, k: nat, x: T)
    requires k <= |xs|
    ensures forall y :: y in Insert(xs, k, x) <==> y == x || y in xs
  {
    var r := Insert(xs, k, x);
    forall y | y in xs ensures y in r {
      var i :| 0 <= i < |xs| && xs[i] == y;
      if i < k { assert r[i] == y; } else { assert r[i + 1] == y; }
    }
  }

  /** `insert_index = random.randint(0, len(decoys))` can put the real query at every
      position of the mixed list, the last one included. */
  lemma EveryPositionPossible(decoys: seq<string>, query: string, position: nat)
    requires position <= |decoys|
    ensures RandInt(0, |decoys|, position) == position
    ensures Insert(decoys, RandInt(0, |decoys|, position), query)[position] == query
  {
    RandIntCovers(0, |decoys|, position);
  }

  // ---------------------------------------------------------------------------
  // Sending the queries

  /** What the loop of `private_search` does, in order: a search, or a pause. */
  datatype Event = Searched(query: string) | Slept(seconds: real)

  /** The `i`-th normal sample of `random.gauss`, 0.8 (the mean) when there is none. */
  function NormalSample(samples: seq<real>, i: nat): real {
    if i < |samples| then samples[i] else 0.8
  }

  /** What visiting the `i`-th of the queries adds to the trace: its search and, unless
      it is the last query, the pause after it. */
  function StepEvents(queries: seq<string>, i: nat, samples: seq<real>): seq<Event>
    requires i < |queries|
  {
    [Searched(queries[i])] + (if i < |queries| - 1 then [Slept(ObfuscatedDelay(NormalSample(samples, i)))] else [])
  }

  /** The trace after the loop has visited the first `i` queries. */
  function EventsUpTo(queries: seq<string>, i: nat, samples: seq<real>): seq<Event>
    requires i <= |queries|
  {
    if i == 0 then [] else EventsUpTo(queries, i - 1, samples) + StepEvents(queries, i - 1, samples)
  }

  /** `results` after the loop has visited the first `i` queries. */
  function ResultsUpTo(queries: seq<string>, i: nat, numResults: int, apiKey: Option<string>, service: Service): map<string, seq<Hit>>
    requires i <= |queries|
  {
    if i == 0 then map[]
    else
      var q := queries[i - 1];
      ResultsUpTo(queries, i - 1, numResults, apiKey, service)[q := PerformSearch(q, true, numResults, apiKey, service).results]
  }

  /** The results dictionary has an entry for each query visited so far, and that
      entry is what searching it over TOR returns. */
  lemma {:induction false} ResultsUpToEntries(queries: seq<string>, i: nat, numResults: int, apiKey: Option<string>, service: Service)
    requires i <= |queries|
    ensures var results := ResultsUpTo(queries, i, numResults, apiKey, service);
      && (forall q :: q in results <==> q in queries[..i])
      && (forall q :: q in results ==> results[q] == PerformSearch(q, true, numResults, apiKey, service).results)
  {
    if i > 0 {
      ResultsUpToEntries(queries, i - 1, numResults, apiKey, service);
      assert queries[..i] == queries[..i - 1] + [queries[i - 1]];
    }
  }

  /** The trace of the first `i` queries has `2i` events, one fewer once the last
      query is among them; searches take the even places, in query order, and pauses
      clamped to between 0.3 and 2 seconds the odd ones. */
  lemma {:induction false} EventsUpToShape(queries: seq<string>, i: nat, samples: seq<real>)
    requires i <= |queries|
    ensures var events := EventsUpTo(queries, i, samples);
      && |events| == (if i == |queries| && i > 0 then 2 * i - 1 else 2 * i)
      && (forall k :: 0 <= k < i ==> events[2 * k] == Searched(queries[k]))
      && (forall k :: 0 <= k < i && k < |queries| - 1 ==> events[2 * k + 1] == Slept(ObfuscatedDelay(NormalSample(samples, k))))
  {
    if i > 0 {
      EventsUpToShape(queries, i - 1, samples);
      var before := EventsUpTo(queries, i - 1, samples);
      var events := EventsUpTo(queries, i, samples);
      assert events == before + StepEvents(queries, i - 1, samples);
      assert |before| == 2 * (i - 1);
      forall k | 0 <= k < i - 1 ensures events[2 * k] == Searched(queries[k]) {
        assert events[2 * k] == before[2 * k];
      }
      forall k | 0 <= k < i - 1 && k < |queries| - 1
        ensures events[2 * k + 1] == Slept(ObfuscatedDelay(NormalSample(samples, k)))
      {
        assert events[2 * k + 1] == before[2 * k + 1];
      }
    }
  }

  /** Total seconds spent pausing in a trace. */
  function PauseTotal(events: seq<Event>): real {
    if events == [] then 0.0
    else (if events[0].Slept? then events[0].seconds else 0.0) + PauseTotal(events[1..])
  }

  /** Number of pauses in a trace. */
  function PauseCount(events: seq<Event>): nat {
    if events == [] then 0
    else (if events[0].Slept? then 1 else 0) + PauseCount(events[1..])
  }

  lemma {:induction false} PauseAppend(a: seq<Event>, b: seq<Event>)
    ensures PauseTotal(a + b) == PauseTotal(a) + PauseTotal(b)
    ensures PauseCount(a + b) == PauseCount(a) + PauseCount(b)
  {
    if a != [] {
      assert (a + b)[1..] == a[1..] + b;
      PauseAppend(a[1..], b);
    } else {
      assert a + b == b;
    }
  }

  /** Visiting the first `i` queries pauses after each of them but the last query,
      each time for 0.3 to 2 seconds. */
  lemma {:induction false} PausesUpTo(queries: seq<string>, i: nat, samples: seq<real>)
    requires i <= |queries|
    ensures var events := EventsUpTo(queries, i, samples);
      var pauses := if i == |queries| && i > 0 then i - 1 else i;
      && PauseCount(events) == pauses
      && 0.3 * pauses as real <= PauseTotal(events) <= 2.0 * pauses as real
  {
    if i > 0 {
      PausesUpTo(queries, i - 1, samples);
      var step := StepEvents(queries, i - 1, samples);
      PauseAppend(EventsUpTo(queries, i - 1, samples), step);
      PauseAppend([Searched(queries[i - 1])], step[1..]);
      assert step == [Searched(queries[i - 1])] + step[1..];
      assert PauseTotal([Searched(queries[i - 1])]) == 0.0;
      assert PauseCount([Searched(queries[i - 1])]) == 0;
    }
  }

  /** The loop of `private_search`: search every query over TOR, recording its results
      under the query text, and pause between consecutive searches. */
  method SearchAll(queries: seq<string>, numResults: int, apiKey: Option<string>, service: Service, samples: seq<real>)
    returns (results: map<string, seq<Hit>>, events: seq<Event>)
    ensures results == ResultsUpTo(queries, |queries|, numResults, apiKey, service)
    ensures events == EventsUpTo(queries, |queries|, samples)
  {
    results := map[];
    events := [];
    var i := 0;
    while i < |queries|
      invariant 0 <= i <= |queries|
      invariant results == ResultsUpTo(queries, i, numResults, apiKey, service)
      invariant events == EventsUpTo(queries, i, samples)
    {
      var q := queries[i];
      results := results[q := PerformSearch(q, true, numResults, apiKey, service).results];
      events := events + [Searched(q)];
      if i < |queries| - 1 {
        events := events + [Slept(ObfuscatedDelay(NormalSample(samples, i)))];
      }
      i := i + 1;
    }
  }

  // ---------------------------------------------------------------------------
  // The endpoint

  /** Every raw draw and normal sample one request consumes. */
  datatype SearchDraws = SearchDraws(decoys: DecoyDraws, insertIndex: nat, pauses: seq<real>)

  datatype PrivacyStats = PrivacyStats(totalTimeSeconds: real, torEnabled: bool, queriesMixed: bool, timingObfuscated: bool)

  /** The JSON body of a successful `/search`. */
  datatype SearchResponse = SearchResponse(
    realQuery: string,
    decoys: seq<string>,
    queryOrder: seq<string>,
    realQueryPosition: nat,
    totalQueries: nat,
    resultsCount: map<string, nat>,
    sampleResults: seq<Hit>,
    privacyStats: PrivacyStats)

  /** The response body of app.py for the real query and its decoys, and the trace of
      searches and pauses behind it: the real query at the drawn position of the mixed
      list, one more query than there are decoys, each query's result count and the
      real query's own results, all searched over TOR. */
  ghost predicate IsResponse(
    r: SearchResponse, events: seq<Event>, query: string, decoys: seq<string>, numResults: int,
    elapsed: real, apiKey: Option<string>, service: Service, draws: SearchDraws)
  {
    && r.realQuery == query
    && r.decoys == decoys
    && r.realQueryPosition == RandInt(0, |decoys|, draws.insertIndex)
    && r.queryOrder == Insert(decoys, r.realQueryPosition, query)
    && r.queryOrder[r.realQueryPosition] == query
    && r.totalQueries == |decoys| + 1
    && (forall q :: q in r.resultsCount <==> q in r.queryOrder)
    && (forall q :: q in r.resultsCount ==> r.resultsCount[q] == |PerformSearch(q, true, numResults, apiKey, service).results|)
    && r.sampleResults == PerformSearch(query, true, numResults, apiKey, service).results
    && r.privacyStats == PrivacyStats(elapsed, true, true, true)
    && events == EventsUpTo(r.queryOrder, |r.queryOrder|, draws.pauses)
  }

  /** How a request ends: refused by the parameter validation of the web framework
      (status 422), with an `HTTPException`, or with a response body. */
  datatype Outcome = ValidationError | HttpError(status: int, detail: string) | Ok(response: SearchResponse)

  /** The bounds the endpoint declares for `num_decoys` and `num_results`. */
  predicate ValidParameters(numDecoys: int, numResults: int) {
    3 <= numDecoys <= 10 && 5 <= numResults <= 20
  }

  /** The check that raises status 400, `not query or len(query.strip()) < 2`. A
      query of whitespace only is too short, and the test for the empty query adds
      nothing: a query is too short exactly when fewer than two characters remain once
      it is stripped. */
  function QueryTooShort(query: string): (short: bool)
    ensures Blank(query) ==> short
    ensures short <==> |Strip(query)| < 2
  {
    query == [] || |Strip(query)| < 2
  }

  /** `private_search(query, num_decoys, num_results)`. The clock is an input: `now`
      is the rate limiter's time in seconds and `elapsed` the time the searches took;
      `hexDigest` is SHA-256 in hexadecimal. */
  method PrivateSearch(
    limiter: RateLimiter, query: string, numDecoys: int, numResults: int,
    now: int, elapsed: real, apiKey: Option<string>, hexDigest: string -> string,
    synonyms: Lexicon, service: Service, draws: SearchDraws)
    returns (outcome: Outcome, events: seq<Event>)
    modifies limiter
    ensures var id := AnonymizeQuery(query, hexDigest);
      var admission := Admit(old(limiter.Window(id)), now);
      && (!ValidParameters(numDecoys, numResults) ==>
            outcome == ValidationError && events == [] && limiter.tracker == old(limiter.tracker))
      && (ValidParameters(numDecoys, numResults) ==>
            limiter.tracker == old(limiter.tracker)[id := admission.window])
      && (ValidParameters(numDecoys, numResults) && !admission.admitted ==>
            outcome == HttpError(429, "Too many requests. Please wait.") && events == [])
      && (ValidParameters(numDecoys, numResults) && admission.admitted && QueryTooShort(query) ==>
            outcome == HttpError(400, "Query too short") && events == [])
      && (outcome.Ok? <==> ValidParameters(numDecoys, numResults) && admission.admitted && !QueryTooShort(query))
    ensures old(limiter.Valid()) ==> limiter.Valid()
    ensures outcome.Ok? ==>
      IsResponse(outcome.response, events, query, DecoysFor(query, numDecoys, synonyms, draws.decoys),
        numResults, elapsed, apiKey, service, draws)
  {
    events := [];
    if !ValidParameters(numDecoys, numResults) {
      return ValidationError, events;
    }
    var queryHash := AnonymizeQuery(query, hexDigest);
    var admitted := limiter.CheckRateLimit(queryHash, now);
    if !admitted {
      return HttpError(429, "Too many requests. Please wait."), events;
    }
    if query == [] || |Strip(query)| < 2 {
      return HttpError(400, "Query too short"), events;
    }
    var decoys := GenerateDecoys(query, numDecoys, synonyms, draws.decoys);
    var response, trace := MixAndSearch(query, decoys, numResults, elapsed, apiKey, service, draws);
    return Ok(response), trace;
  }

  /** The part of `private_search` after the checks: mix the real query into the
      decoys, search them all and build the response body. */
  method MixAndSearch(
    query: string, decoys: seq<string>, numResults: int, elapsed: real,
    apiKey: Option<string>, service: Service, draws: SearchDraws)
    returns (r: SearchResponse, events: seq<Event>)
    ensures IsResponse(r, events, query, decoys, numResults, elapsed, apiKey, service, draws)
  {
    var allQueries := decoys;
    var insertIndex := RandInt(0, |decoys|, draws.insertIndex);
    allQueries := Insert(allQueries, insertIndex, query);
    var results;
    results, events := SearchAll(allQueries, numResults, apiKey, service, draws.pauses);
    ResultsUpToEntries(allQueries, |allQueries|, numResults, apiKey, service);
    assert allQueries[..|allQueries|] == allQueries;
    assert query in allQueries;
    var counts := map q | q in allQueries :: |results[q]|;
    r := SearchResponse(query, decoys, allQueries, insertIndex, |allQueries|, counts, results[query],
      PrivacyStats(elapsed, true, true, true));
  }
}
