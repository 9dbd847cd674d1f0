# Private search engine: a verified model of the query mixer

The Private Search Engine API (`app.py`) hides a user's search behind decoys. For each
`/search` request it does five things, in this order:

1. It checks a per-query rate limit: ten queries per identifier per sliding minute.
2. It rejects queries that are too short.
3. It builds decoy queries from WordNet synonyms, query patterns, trending topics,
   reversed words and a modifier phrase.
4. It hides the real query among the decoys at a random position.
5. It sends every query to the search service over TOR, pausing a random and clamped
   time between consecutive queries. A query whose TOR request fails is retried once
   without TOR.

This project models that core in Dafny and proves what it promises. The modules
follow the program:

- `Text` holds the Python string operations the code relies on: `split`, `strip`,
  `join`, reversal, `lower` and `replace`.
- `Sampling` turns the outcomes of Python's `random` module into caller-supplied
  draws.
- `RateLimit` holds `check_rate_limit` and `query_tracker`. The tracker is a class
  whose map the method updates in place.
- `Decoys` holds the three strategy helpers and `generate_decoys`.
- `Dispatch` holds `perform_search` with its TOR fallback, `obfuscated_delay` and
  `anonymize_query`.
- `Search` holds `private_search`: the order of its checks, the mixing step and the
  search loop with its pauses.

Randomness, the clock, WordNet, SHA-256 and the search service are all inputs. Every
property therefore holds for every possible outcome of them. The coverage lemmas
(`ChoiceCovers`, `RandIntCovers`, `SelectCovers`, `SampleCovers`,
`EveryPositionPossible`) show that each outcome Python can produce is the outcome of
some draw.

Some of what the code does is easy to miss when reading it. The model follows the code:

- `contextual_decoys` is documented as producing "contextually similar but different
  queries", and `semantic_decoys` drops a word's own lemma name (app.py:86), but
  nothing in `generate_decoys` removes the real query from the pool. A one-word palindrome of five or more letters reverses to
  itself and becomes a candidate (`PalindromeQueryIsItsOwnCandidate`). The mixed list
  can therefore hold the real query twice. The model only claims that the entry at
  the drawn position is the real query.
- `semantic_decoys` slices its result to three entries, but it never holds more than
  two, so the slice never removes anything (`SemanticFrom`).
- `contextual_decoys` builds a third, drop-one variant for queries of three or more
  words. The final `[:2]` always cuts it off (`ContextualDecoys`).
- An empty or too-short query is rejected with status 400 only after it has consumed
  a rate-limit slot (`PrivateSearch`).

## Model

| member | source | states |
|---|---|---|
| Text.Split | app.py:77 | `str.split()` yields only non-empty tokens without whitespace, and nothing exactly when the string is all whitespace |
| Text.SplitWord | app.py:77 | a single token splits into itself |
| Text.SplitAtSpace | app.py:77 | a whitespace character separates: splitting around it is splitting each side and concatenating; with the two rows above this determines `split()` on every string |
| Text.SplitJoin | app.py:95 | splitting the space-joined tokens gives the tokens back |
| Text.Join | app.py:95 | `" ".join(parts)` is empty for no parts, else as long as the parts together plus one space between each two |
| Text.JoinAppend | app.py:95 | joining two non-empty lists of parts is joining their joins with one space |
| Text.SplitAfterWord | app.py:103 | a token followed by whitespace splits off as the first word |
| Text.Strip | app.py:235 | `strip()` is the slice after the leading whitespace that is followed only by whitespace; it is empty or starts and ends with non-whitespace, and is empty exactly when the string is all whitespace |
| Text.Reverse | app.py:143 | `word[::-1]` has the same length, and its `i`-th character is the word's `i`-th from the end |
| Text.ReverseReverse | app.py:143 | reversing twice gives the word back |
| Text.Lower | app.py:86 | `lower()` keeps the length, leaves no capital, turns each capital into the same letter in lower case and keeps every other character |
| Text.LowerLower | app.py:86 | lower-casing twice is lower-casing once |
| Text.UnderscoresToSpaces | app.py:85 | `replace("_", " ")` keeps the length and leaves no underscore; a character that changes was an underscore and is now a space; a string without underscores is unchanged |
| Text.UnderscoresToSpacesTwice | app.py:85 | replacing twice is replacing once |
| Sampling.Choice | app.py:108-109 | `random.choice` returns an element of the list |
| Sampling.ChoiceCovers | app.py:108-109 | every element of the list can be chosen |
| Sampling.RandInt | app.py:243 | `random.randint(lo, hi)` lies between both bounds inclusive |
| Sampling.RandIntCovers | app.py:243 | every integer of the range can be drawn |
| Sampling.Select | app.py:90 | successive picks without replacement: `k` picks, all from the pool, never more copies of a value than the pool holds, distinct when the pool is |
| Sampling.Sample | app.py:152 | `random.sample(pool, k)`: `k` elements of the pool, never more copies of a value than the pool holds, distinct when the pool is |
| Sampling.SampleIsSelect | app.py:152 | reading off `k` distinct sampled positions is making `k` successive picks without replacement with the same draws |
| Sampling.SelectCovers | app.py:152 | every sequence of distinct elements of a duplicate-free pool is what some draws pick |
| Sampling.SampleCovers | app.py:152 | every sequence of distinct positions is what `random.sample` can pick |
| Sampling.Distinct | app.py:150 | `list(set(xs))` holds each value of `xs` once and nothing else |
| RateLimit.Recent | app.py:50-53 | pruning keeps, with their multiplicity, exactly the timestamps less than a minute old, and never lengthens the list |
| RateLimit.RecentAppend | app.py:50-53 | pruning keeps the order: pruning a concatenation is concatenating the prunings |
| RateLimit.RecentOne | app.py:52 | a single timestamp survives exactly when it is less than a minute old |
| RateLimit.Admit | app.py:46-59 | a call admits exactly when fewer than ten timestamps survive pruning; if it admits it appends `now`, else the pruned list stays as it is; a list of at most ten stays at most ten |
| RateLimit.RateLimiter.constructor | app.py:43 | the tracker starts empty |
| RateLimit.RateLimiter.Window | app.py:50-51 | `query_tracker[identifier]` is the empty list for an identifier never seen, as with `defaultdict(list)`, and never exceeds the ceiling |
| RateLimit.RateLimiter.CheckRateLimit | app.py:46-59 | the verdict and the new list of `id` are those of `Admit`; every stored timestamp is recent; other identifiers are untouched; no list ever exceeds ten entries |
| RateLimit.RecentKeepsAll | app.py:50-53 | pruning removes nothing when every timestamp is recent |
| RateLimit.BurstVerdicts | app.py:44-59 | within one minute, the `i`-th call is admitted exactly when the stored count plus `i` is below ten |
| RateLimit.EleventhCallInAMinuteRejected | app.py:44-59 | from an empty list, ten calls within one minute are admitted and the eleventh is rejected |
| RateLimit.FinalWindowFrom | app.py:50-58 | every stored timestamp is an earlier one or one of the calls |
| RateLimit.AdmittedOnceWindowElapsed | app.py:50-58 | once every stored timestamp is a minute old, a call is admitted and the list restarts with it |
| RateLimit.AdmittedAgainAfterAMinute | app.py:50-58 | after any run of calls, a call a minute after all of them is admitted |
| Decoys.Unlike | app.py:86 | keeps exactly the lemma names that differ from the word up to case |
| Decoys.LemmaNames | app.py:84-85 | one entry per lemma name of the word, none with an underscore left; a string is an entry exactly when it is one of the word's lexicon names with its underscores replaced by spaces |
| Decoys.SynonymPool | app.py:84-86 | the candidates are exactly the lemma names that differ from the word up to case, each once |
| Decoys.WordSynonyms | app.py:81-90 | a word shorter than three adds nothing; a longer one adds `min(2, candidates)` distinct candidates of its own |
| Decoys.AddWordSynonyms | app.py:80-90 | one pass of the loop extends the collected synonyms by the current word's contribution |
| Decoys.CollectSynonymsOf | app.py:78-90 | the loop collects every word's contribution, in word order |
| Decoys.CollectedAreSynonyms | app.py:80-90 | everything collected is a candidate of a query word of at least three characters |
| Decoys.CollectedIsSynonym | app.py:80-90 | any one collected value is a candidate of one of the words visited so far that has at least three characters |
| Decoys.ShortWordsGiveNoSynonyms | app.py:81-82 | words shorter than three characters contribute nothing |
| Decoys.ShortWordsGiveNoSemanticDecoys | app.py:75-99 | a query of words shorter than three characters has no semantic decoys |
| Decoys.Phrase | app.py:95 | a phrase joins the synonyms at two different positions with a space |
| Decoys.SemanticFrom | app.py:93-99 | at most two results; two phrases of collected synonyms when at least two were collected, else the collected synonyms themselves |
| Decoys.SemanticDecoys | app.py:75-99 | `semantic_decoys` computes the collected synonyms, then the phrases or the synonyms themselves |
| Decoys.ContextualDecoys | app.py:101-115 | nothing for a blank query; else exactly two: a common pattern before a query word, then a query word before a trending topic |
| Decoys.RandomTrendingDecoys | app.py:117-122 | exactly two: a common pattern before a trending topic, then a trending topic |
| Decoys.ReversedLongWords | app.py:140-143 | at most one reversed entry per word |
| Decoys.ReversedLongWordsFrom | app.py:140-143 | the reversed entries are exactly the reversals of the words longer than four characters |
| Decoys.AppendReversedLongWords | app.py:140-143 | the loop appends the reversals of the long words, in word order |
| Decoys.WithModifier | app.py:146-147 | the whole query, a space, and one of the five modifiers |
| Decoys.Candidates | app.py:128-147 | `all_decoys` holds at least three and at most seven entries plus one per query word, with the modified query last |
| Decoys.PoolCandidates | app.py:128-147 | `all_decoys` is the semantic, contextual and trending decoys, the reversed long words and the modified query, in that order |
| Decoys.KeepLong | app.py:150 | the filter keeps exactly the candidates longer than two characters |
| Decoys.PoolOf | app.py:150 | the pool is duplicate-free and holds exactly the candidates longer than two characters |
| Decoys.SampleOf | app.py:150-152 | `min(n, pool size)` distinct decoys, each longer than two characters and each a candidate |
| Decoys.DecoysFor | app.py:124-152 | `generate_decoys(q, n)` returns `min(n, pool size)` decoys, so at most `n`; no duplicates; each longer than two characters and pooled from the strategies |
| Decoys.GenerateDecoys | app.py:124-152 | the method computes `DecoysFor`, whose properties are above |
| Decoys.PalindromeQueryIsItsOwnCandidate | app.py:139-150 | the query `level` is in its own decoy pool |
| Dispatch.TorIsConfigured | app.py:35-38 | `TOR_PROXY` is non-empty, so `use_tor and TOR_PROXY` is `use_tor` |
| Dispatch.SearchParams | app.py:168-180 | the request carries the query, the key, the result count, `google`, `us` and `en`, and the proxy exactly when TOR is in use |
| Dispatch.PerformSearch | app.py:164-193 | one or two requests, all for the query itself; the first is the one asked for; a second exactly when the first went over TOR and raised |
| Dispatch.OrganicResults | app.py:186 | `results.get("organic_results", [])`: the reply's organic results, or none when the reply has no such entry |
| Dispatch.DirectSearch | app.py:184-193 | without TOR, one request goes out without a proxy; the result is the reply's organic results, or nothing if it raised |
| Dispatch.SearchFallback | app.py:164-193 | with TOR, one or two requests go out; the second exactly when the first raised, without TOR and with ten results; two failures give nothing |
| Dispatch.ObfuscatedDelay | app.py:198-201 | the delay lies in [0.3, 2.0] seconds, equals the sample when the sample is in range, and is that bound otherwise |
| Dispatch.DelayClampIdempotentAndMonotone | app.py:201 | clamping twice is clamping once, and clamping keeps the order |
| Dispatch.AnonymizeQuery | app.py:157-159 | the fingerprint is a 16-character prefix of the digest |
| Dispatch.SameDigestPrefixSameFingerprint | app.py:229-231 | digests that agree on 16 characters give one fingerprint, hence one rate-limit bucket |
| Search.Insert | app.py:244 | `insert(k, x)` adds one element, `x` at `k`, the others keeping their order around it |
| Search.InsertThenRemove | app.py:242-244 | removing the real query's position gives the decoys back in their order |
| Search.InsertMembers | app.py:242-244 | the mixed list holds exactly the decoys and the real query |
| Search.EveryPositionPossible | app.py:243-244 | the real query can land at every position, the last one included |
| Search.ResultsUpToEntries | app.py:247-251 | `results` has an entry for each query sent, holding what searching it over TOR returns |
| Search.EventsUpToShape | app.py:250-255 | `n` queries give `2n - 1` events: searches in query order at even places, clamped pauses at odd places |
| Search.PausesUpTo | app.py:253-255 | the loop pauses exactly `n - 1` times, never after the last query, for between `0.3(n-1)` and `2(n-1)` seconds in all |
| Search.SearchAll | app.py:247-255 | the loop's results and trace are the ones above |
| Search.MixAndSearch | app.py:241-274 | the body holds the decoys, the real query at the drawn position, `len(decoys) + 1` queries, each query's result count, and the real query's own results |
| Search.ValidParameters | app.py:222-223 | the declared bounds: 3 to 10 decoys and 5 to 20 results, both inclusive |
| Search.QueryTooShort | app.py:235 | a whitespace-only query is too short; a query is too short exactly when fewer than two characters remain after stripping, so the empty-query test adds nothing |
| Search.PrivateSearch | app.py:220-274 | out-of-range parameters give 422 and leave the limiter alone; otherwise the limiter is updated first; 429 when not admitted; 400 for a short query, after the slot is used; else the response above |

## Left out

- The web framework, the CORS middleware, the `/` and `/health` endpoints and the
  server start-up: wiring. Only the validation of `num_decoys` and `num_results` is
  modelled, as the 422 outcome.
- Loading the environment and downloading NLTK data: I/O. The service key is an input
  that may be missing.
- The search service and the network: the service is a function from request
  parameters to a reply, which raises or returns a dictionary. A service whose answer
  to the same request changes over time is not modelled, so a repeated query in the
  mixed list finds the same results.
- WordNet: a lexicon maps a word to the lemma names of all its synsets.
- SHA-256 and UTF-8 encoding: the hex digest is a function supplied by the caller.
- Dispatch.AnonymizeQuery: does not assume digests are 64 characters long; it states
  the 16-character length only when the digest has at least 16.
- Text.Lower: folds only ASCII letters, not Python's full Unicode case mapping.
- `random.gauss`: the normal samples are inputs. Dispatch.ObfuscatedDelay works on
  reals, with no floating-point rounding and no NaN.
- Randomness in general: draws and samples are inputs, with no probabilities. A draw
  that is out of range selects the first candidate.
- Sampling.Distinct: keeps first occurrences. A Python set has no defined order, but
  every result is sampled next, and `SelectCovers` shows that every order of the
  sample is reachable.
- `time.time`, `time.sleep` and `datetime.now`: the rate limiter's clock is a whole
  number of seconds passed in. The elapsed time is passed in, and pauses are events
  in a trace instead of real waiting.
- Search.PrivateSearch: `total_time_seconds` is the elapsed time as given; Python's
  `round(total_time, 2)` is not modelled.
- The `print` calls in `perform_search`, including the query text they log: output
  only.
- Concurrent requests sharing `query_tracker`: the code has no locking, and the model
  runs one request at a time.
