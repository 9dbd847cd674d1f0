/** The decoy generator of app.py: the three strategy helpers `semantic_decoys`,
    `contextual_decoys` and `random_trending_decoys`, and `generate_decoys`, which
    pools their output with reversed long words and a modifier phrase, filters and
    de-duplicates the pool and samples from it. */
module Decoys {
  import opened Text
  import opened Sampling

  const TRENDING_TOPICS: seq<string> := [
    "weather", "news", "sports scores", "stock market",
    "movie reviews", "recipes", "how to", "best practices",
    "tutorial", "guide", "tips", "latest updates"
  ]

  const COMMON_QUERIES: seq<string> := [
    "what is", "how to", "best", "top 10", "review",
    "near me", "vs", "meaning", "definition", "examples"
  ]

  /** The modifiers `generate_decoys` appends to the whole query. */
  const MODIFIERS: seq<string> := ["history", "tutorial", "explained", "guide", "tips"]

  /** The lexical database: for a word, the names of the lemmas of all its WordNet
      synsets, underscores still in place. */
  type Lexicon = string -> seq<string>

  /** Raw draws of `semantic_decoys`: per word position, the draws of that word's
      synonym sample; per phrase (there are two), the draws of its pair sample. */
  datatype SemanticDraws = SemanticDraws(perWord: seq<seq<nat>>, phrases: seq<seq<nat>>)

  /** Raw draws of `contextual_decoys`, one per random call. */
  datatype ContextualDraws = ContextualDraws(pattern: nat, patternWord: nat, topicWord: nat, topic: nat, dropOne: seq<nat>)

  /** Raw draws of `random_trending_decoys`, one per random call. */
  datatype TrendingDraws = TrendingDraws(pattern: nat, topic: nat, bareTopic: nat)

  /** Every raw draw one call of `generate_decoys` consumes. */
  datatype DecoyDraws = DecoyDraws(
    semantic: SemanticDraws,
    contextual: ContextualDraws,
    trending: TrendingDraws,
    modifier: nat,
    selection: seq<nat>)

  /** The `i`-th draw stream, empty when there is none. */
  function Nth(ds: seq<seq<nat>>, i: nat): seq<nat> {
    if i < |ds| then ds[i] else []
  }

  /** `s` is `f"{x} {y}"` for some `x` of `xs` and `y` of `ys`. */
  ghost predicate IsPairOf(s: string, xs: seq<string>, ys: seq<string>) {
    exists i, j :: 0 <= i < |xs| && 0 <= j < |ys| && s == Spaced(xs[i], ys[j])
  }

  /** `p` joins the entries at two different positions of `found` with a space. */
  ghost predicate IsPhraseOf(p: string, found: seq<string>) {
    exists i, j :: 0 <= i < |found| && 0 <= j < |found| && i != j && p == Spaced(found[i], found[j])
  }

  // ---------------------------------------------------------------------------
  // semantic_decoys

  /** The lemma names of `names` that differ from `word` when both are lower-cased. */
  function Unlike(names: seq<string>, word: string): (r: seq<string>)
    ensures forall i :: 0 <= i < |r| ==> r[i] in names && Lower(r[i]) != Lower(word)
    ensures forall i :: 0 <= i < |names| && Lower(names[i]) != Lower(word) ==> names[i] in r
  {
    if names == [] then []
    else
      var rest := Unlike(names[1..], word);
      assert forall i :: 0 < i < |names| ==> names[i] == names[1..][i - 1];
      if Lower(names[0]) != Lower(word) then [names[0]] + rest else rest
  }

  /** `[l.name().replace("_", " ") for syn in synonyms for l in syn.lemmas()]`: one
      entry per lemma name of the word, none with an underscore left. */
  function LemmaNames(word: string, synonyms: Lexicon): (lemmas: seq<string>)
    ensures |lemmas| == |synonyms(word)|
    ensures forall i :: 0 <= i < |lemmas| ==> '_' !in lemmas[i]
    ensures forall x :: x in lemmas <==>
      exists i :: 0 <= i < |synonyms(word)| && x == UnderscoresToSpaces(synonyms(word)[i])
  {
    var names := synonyms(word);
    var lemmas := seq(|names|, i requires 0 <= i < |names| => UnderscoresToSpaces(names[i]));
    forall i | 0 <= i < |names|
      ensures UnderscoresToSpaces(names[i]) in lemmas
    {
      assert lemmas[i] == UnderscoresToSpaces(names[i]);
    }
    lemmas
  }

  /** The synonym candidates of one word: exactly its lemma names that differ from the
      word up to case, each once. */
  function SynonymPool(word: string, synonyms: Lexicon): (pool: seq<string>)
    ensures NoDuplicates(pool)
    ensures forall x :: x in pool <==> x in LemmaNames(word, synonyms) && Lower(x) != Lower(word)
  {
    var lemmas := LemmaNames(word, synonyms);
    var pool := Distinct(Unlike(lemmas, word));
    assert forall x :: x in lemmas && Lower(x) != Lower(word) ==> x in pool;
    pool
  }

  /** What one word adds to `decoys`: nothing for a word shorter than three characters;
      for a longer one, two of its candidates, or all of them when it has fewer, with
      no repeats. */
  function WordSynonyms(word: string, draws: seq<nat>, synonyms: Lexicon): (picked: seq<string>)
    ensures |picked| <= 2
    ensures |word| < 3 ==> picked == []
    ensures |word| >= 3 ==> |picked| == Min(2, |SynonymPool(word, synonyms)|)
    ensures forall x :: x in picked ==> x in SynonymPool(word, synonyms)
    ensures NoDuplicates(picked)
  {
    if |word| < 3 then []
    else
      var pool := SynonymPool(word, synonyms);
      if pool == [] then [] else Sample(pool, Min(2, |pool|), draws)
  }

  /** `decoys` after the loop of `semantic_decoys` has visited the first `i` words. */
  function SynonymsUpTo(words: seq<string>, i: nat, synonyms: Lexicon, perWord: seq<seq<nat>>): seq<string>
    requires i <= |words|
  {
    if i == 0 then []
    else SynonymsUpTo(words, i - 1, synonyms, perWord) + WordSynonyms(words[i - 1], Nth(perWord, i - 1), synonyms)
  }

  /** `" ".join(random.sample(decoys, 2))`. */
  function Phrase(found: seq<string>, draws: seq<nat>): (p: string)
    requires |found| >= 2
    ensures IsPhraseOf(p, found)
  {
    SampledPairIsPhrase(found, draws);
    Join(Sample(found, 2, draws))
  }

  /** Two values sampled at distinct positions, joined by a space. */
  lemma SampledPairIsPhrase(found: seq<string>, draws: seq<nat>)
    requires |found| >= 2
    ensures IsPhraseOf(Join(Sample(found, 2, draws)), found)
  {
    var idx := SampleIndices(|found|, 2, draws);
    var i, j := idx[0], idx[1];
    SampleOfTwo(found, draws);
    JoinPair(found[i], found[j]);
    assert Join(Sample(found, 2, draws)) == Spaced(found[i], found[j]);
    assert 0 <= i < |found| && 0 <= j < |found| && i != j;
  }

  /** A sample of two holds the values at two distinct positions. */
  lemma SampleOfTwo(found: seq<string>, draws: seq<nat>)
    requires |found| >= 2
    ensures var idx := SampleIndices(|found|, 2, draws);
      && Sample(found, 2, draws) == [found[idx[0]], found[idx[1]]]
      && idx[0] != idx[1]
  {
    var idx := SampleIndices(|found|, 2, draws);
    assert Sample(found, 2, draws) == Gather(found, idx);
    GatherTwo(found, idx);
  }

  /** Reading off two positions. */
  lemma GatherTwo(found: seq<string>, idx: seq<nat>)
    requires |idx| == 2 && Below(idx, |found|)
    ensures Gather(found, idx) == [found[idx[0]], found[idx[1]]]
  {
    var pair := Gather(found, idx);
    assert pair == [pair[0], pair[1]];
  }

  /** Two phrases of `found`, listed. */
  lemma BothPhrases(first: string, second: string, found: seq<string>)
    requires IsPhraseOf(first, found) && IsPhraseOf(second, found)
    ensures forall i :: 0 <= i < 2 ==> IsPhraseOf([first, second][i], found)
  {
    forall i | 0 <= i < 2 ensures IsPhraseOf([first, second][i], found) {
      if i == 0 { assert [first, second][i] == first; } else { assert [first, second][i] == second; }
    }
  }

  /** Slicing `[:n]` keeps a sequence of at most `n` elements whole. */
  lemma TakeAll<T>(s: seq<T>, n: nat)
    requires |s| <= n
    ensures s[..Min(n, |s|)] == s
  {
  }

  /** The tail of `semantic_decoys`: two phrases from the collected synonyms when there
      are at least two of them, else the collected synonyms themselves. */
  function SemanticFrom(found: seq<string>, phraseDraws: seq<seq<nat>>): (r: seq<string>)
    ensures |r| <= 2
    ensures |found| >= 2 ==> |r| == 2 && forall i :: 0 <= i < 2 ==> IsPhraseOf(r[i], found)
    ensures |found| < 2 ==> r == found
  {
    if |found| >= 2 then
      var first := Phrase(found, Nth(phraseDraws, 0));
      var second := Phrase(found, Nth(phraseDraws, 1));
      var phrases := [first, second];
      BothPhrases(first, second, found);
      TakeAll(phrases, 3);
      phrases[..Min(3, |phrases|)]
    else
      TakeAll(found, 3);
      found[..Min(3, |found|)]
  }

  /** The synonyms `semantic_decoys` collects from the words of `query`. */
  function CollectedSynonyms(query: string, synonyms: Lexicon, d: SemanticDraws): seq<string>
  {
    var words := Split(query);
    SynonymsUpTo(words, |words|, synonyms, d.perWord)
  }

  /** `semantic_decoys(query)`. */
  function SemanticDecoysOf(query: string, synonyms: Lexicon, d: SemanticDraws): seq<string>
  {
    SemanticFrom(CollectedSynonyms(query, synonyms, d), d.phrases)
  }

  /** One pass of the loop of `semantic_decoys`: the synonyms the `i`-th word adds to
      `decoys`. */
  method AddWordSynonyms(words: seq<string>, i: nat, decoys: seq<string>, synonyms: Lexicon, perWord: seq<seq<nat>>)
    returns (r: seq<string>)
    requires i < |words| && decoys == SynonymsUpTo(words, i, synonyms, perWord)
    ensures r == SynonymsUpTo(words, i + 1, synonyms, perWord)
  {
    var word := words[i];
    r := decoys;
    if |word| >= 3 {
      var lemmas := SynonymPool(word, synonyms);
      if |lemmas| > 0 {
        r := r + Sample(lemmas, Min(2, |lemmas|), Nth(perWord, i));
      }
    }
  }

  /** The loop of `semantic_decoys` over the words of the query. */
  method CollectSynonymsOf(words: seq<string>, synonyms: Lexicon, perWord: seq<seq<nat>>) returns (decoys: seq<string>)
    ensures decoys == SynonymsUpTo(words, |words|, synonyms, perWord)
  {
    decoys := [];
    var i := 0;
    while i < |words|
      invariant 0 <= i <= |words|
      invariant decoys == SynonymsUpTo(words, i, synonyms, perWord)
    {
      decoys := AddWordSynonyms(words, i, decoys, synonyms, perWord);
      i := i + 1;
    }
  }

  /** `semantic_decoys(query)`. */
  method SemanticDecoys(query: string, synonyms: Lexicon, d: SemanticDraws) returns (r: seq<string>)
    ensures r == SemanticDecoysOf(query, synonyms, d)
  {
    var words := Split(query);
    var decoys := CollectSynonymsOf(words, synonyms, d.perWord);
    r := SemanticFrom(decoys, d.phrases);
  }

  /** `x` is a synonym candidate of some word of `words` that has at least three
      characters. */
  ghost predicate SynonymOfSome(x: string, words: seq<string>, synonyms: Lexicon) {
    exists k :: 0 <= k < |words| && |words[k]| >= 3 && x in SynonymPool(words[k], synonyms)
  }

  /** Everything collected is a candidate of a word of at least three characters; in
      particular words shorter than three contribute nothing. */
  lemma CollectedAreSynonyms(words: seq<string>, i: nat, synonyms: Lexicon, perWord: seq<seq<nat>>)
    requires i <= |words|
    ensures forall x :: x in SynonymsUpTo(words, i, synonyms, perWord) ==> SynonymOfSome(x, words[..i], synonyms)
  {
    if i > 0 {
      forall x | x in SynonymsUpTo(words, i, synonyms, perWord)
        ensures SynonymOfSome(x, words[..i], synonyms)
      {
        CollectedIsSynonym(x, words, i, synonyms, perWord);
      }
    }
  }

  /** One collected value is a candidate of one of the words visited. */
  lemma {:induction false} CollectedIsSynonym(x: string, words: seq<string>, i: nat, synonyms: Lexicon, perWord: seq<seq<nat>>)
    requires 0 < i <= |words|
    requires x in SynonymsUpTo(words, i, synonyms, perWord)
    ensures SynonymOfSome(x, words[..i], synonyms)
  {
    if i > 1 && x in SynonymsUpTo(words, i - 1, synonyms, perWord) {
      CollectedIsSynonym(x, words, i - 1, synonyms, perWord);
      SynonymOfLongerPrefix(x, words, i, synonyms);
    } else {
      LastWordCandidates(words, i, synonyms, Nth(perWord, i - 1));
    }
  }

  /** What the `i`-th word adds are candidates of one of the first `i` words. */
  lemma LastWordCandidates(words: seq<string>, i: nat, synonyms: Lexicon, draws: seq<nat>)
    requires 0 < i <= |words|
    ensures forall x :: x in WordSynonyms(words[i - 1], draws, synonyms) ==> SynonymOfSome(x, words[..i], synonyms)
  {
    assert words[..i][i - 1] == words[i - 1];
  }

  /** A candidate of one of the first `i - 1` words is one of the first `i`. */
  lemma SynonymOfLongerPrefix(x: string, words: seq<string>, i: nat, synonyms: Lexicon)
    requires 0 < i <= |words|
    requires SynonymOfSome(x, words[..i - 1], synonyms)
    ensures SynonymOfSome(x, words[..i], synonyms)
  {
    var k :| 0 <= k < i - 1 && |words[..i - 1][k]| >= 3 && x in SynonymPool(words[..i - 1][k], synonyms);
    assert words[..i][k] == words[k] == words[..i - 1][k];
  }

  /** Words shorter than three characters contribute no synonyms. */
  lemma {:induction false} ShortWordsGiveNoSynonyms(words: seq<string>, i: nat, synonyms: Lexicon, perWord: seq<seq<nat>>)
    requires i <= |words|
    requires forall k :: 0 <= k < i ==> |words[k]| < 3
    ensures SynonymsUpTo(words, i, synonyms, perWord) == []
  {
    if i > 0 {
      ShortWordsGiveNoSynonyms(words, i - 1, synonyms, perWord);
    }
  }

  /** A query whose words are all shorter than three characters has no semantic
      decoys. */
  lemma ShortWordsGiveNoSemanticDecoys(query: string, synonyms: Lexicon, d: SemanticDraws)
    requires forall k :: 0 <= k < |Split(query)| ==> |Split(query)[k]| < 3
    ensures SemanticDecoysOf(query, synonyms, d) == []
  {
    var words := Split(query);
    ShortWordsGiveNoSynonyms(words, |words|, synonyms, d.perWord);
  }

  // ---------------------------------------------------------------------------
  // contextual_decoys and random_trending_decoys

  /** The list `contextual_decoys` builds before its final slice. */
  function ContextualCandidates(words: seq<string>, d: ContextualDraws): seq<string>
  {
    if |words| == 0 then []
    else
      var withPatterns := [
        Spaced(Choice(COMMON_QUERIES, d.pattern), Choice(words, d.patternWord)),
        Spaced(Choice(words, d.topicWord), Choice(TRENDING_TOPICS, d.topic))
      ];
      if |words| > 2 then withPatterns + [Join(Sample(words, |words| - 1, d.dropOne))]
      else withPatterns
  }

  /** `contextual_decoys(query)`: nothing for a blank query, else exactly two strings,
      a common pattern before a query word and a query word before a trending
      topic; the drop-one variant is always cut off. */
  function ContextualDecoys(query: string, d: ContextualDraws): (r: seq<string>)
    ensures Blank(query) ==> r == []
    ensures !Blank(query) ==>
      (|r| == 2 && IsPairOf(r[0], COMMON_QUERIES, Split(query)) && IsPairOf(r[1], Split(query), TRENDING_TOPICS))
  {
    var words := Split(query);
    var c := ContextualCandidates(words, d);
    assert words != [] ==>
      && c[0] == Spaced(COMMON_QUERIES[Index(d.pattern, |COMMON_QUERIES|)], words[Index(d.patternWord, |words|)])
      && c[1] == Spaced(words[Index(d.topicWord, |words|)], TRENDING_TOPICS[Index(d.topic, |TRENDING_TOPICS|)]);
    c[..Min(2, |c|)]
  }

  /** `random_trending_decoys()`: exactly two strings, a common pattern before a
      trending topic and a bare trending topic. */
  function RandomTrendingDecoys(d: TrendingDraws): (r: seq<string>)
    ensures |r| == 2
    ensures IsPairOf(r[0], COMMON_QUERIES, TRENDING_TOPICS)
    ensures r[1] in TRENDING_TOPICS
  {
    var i, j := Index(d.pattern, |COMMON_QUERIES|), Index(d.topic, |TRENDING_TOPICS|);
    var r := [Spaced(Choice(COMMON_QUERIES, d.pattern), Choice(TRENDING_TOPICS, d.topic)),
              Choice(TRENDING_TOPICS, d.bareTopic)];
    assert r[0] == Spaced(COMMON_QUERIES[i], TRENDING_TOPICS[j]);
    r
  }

  // ---------------------------------------------------------------------------
  // generate_decoys

  /** The reversed forms of the words longer than four characters, in word order: at
      most one per word. */
  function ReversedLongWords(words: seq<string>): (r: seq<string>)
    ensures |r| <= |words|
  {
    if words == [] then []
    else
      var last := words[|words| - 1];
      ReversedLongWords(words[..|words| - 1]) + (if |last| > 4 then [Reverse(last)] else [])
  }

  /** Each reversed entry is the reversal of a word longer than four characters, and
      each such word contributes its reversal. */
  lemma {:induction false} ReversedLongWordsFrom(words: seq<string>)
    ensures forall x :: x in ReversedLongWords(words) ==> exists k :: 0 <= k < |words| && |words[k]| > 4 && x == Reverse(words[k])
    ensures forall k :: 0 <= k < |words| && |words[k]| > 4 ==> Reverse(words[k]) in ReversedLongWords(words)
  {
    if words != [] {
      var init := words[..|words| - 1];
      ReversedLongWordsFrom(init);
      assert forall k :: 0 <= k < |init| ==> init[k] == words[k];
    }
  }

  /** `f"{user_query} {random.choice(modifiers)}"`: the whole query, a space and one
      of the modifiers. */
  function WithModifier(query: string, modifier: nat): (r: string)
    ensures IsPairOf(r, [query], MODIFIERS)
  {
    var m := Index(modifier, |MODIFIERS|);
    var r := Spaced(query, Choice(MODIFIERS, modifier));
    assert r == Spaced([query][0], MODIFIERS[m]);
    r
  }

  /** Everything `generate_decoys` pools, in the order it pools it: at least the two
      trending decoys and the modified query, at most two of each strategy, one
      reversal per word and the modified query, which comes last. */
  function Candidates(query: string, synonyms: Lexicon, d: DecoyDraws): (c: seq<string>)
    ensures 3 <= |c| <= 7 + |Split(query)|
    ensures c[|c| - 1] == WithModifier(query, d.modifier)
  {
    SemanticDecoysOf(query, synonyms, d.semantic)
    + ContextualDecoys(query, d.contextual)
    + RandomTrendingDecoys(d.trending)
    + ReversedLongWords(Split(query))
    + [WithModifier(query, d.modifier)]
  }

  /** `[d for d in xs if d and len(d) > 2]`. */
  function KeepLong(xs: seq<string>): (r: seq<string>)
    ensures forall i :: 0 <= i < |r| ==> |r[i]| > 2 && r[i] in xs
    ensures forall i :: 0 <= i < |xs| && |xs[i]| > 2 ==> xs[i] in r
  {
    if xs == [] then []
    else
      var rest := KeepLong(xs[1..]);
      assert forall i :: 0 < i < |xs| ==> xs[i] == xs[1..][i - 1];
      if xs[0] != [] && |xs[0]| > 2 then [xs[0]] + rest else rest
  }

  /** `list(set(...))` of the filtered candidates `c`: the population of the final
      sample. */
  function PoolOf(c: seq<string>): (pool: seq<string>)
    ensures NoDuplicates(pool)
    ensures forall i :: 0 <= i < |pool| ==> |pool[i]| > 2 && pool[i] in c
    ensures forall x :: x in c && |x| > 2 ==> x in pool
  {
    var kept := KeepLong(c);
    assert forall x :: x in c && |x| > 2 ==> x in kept;
    Distinct(kept)
  }

  /** The population of the final sample of `generate_decoys(query, n)`. */
  function DecoyPool(query: string, synonyms: Lexicon, d: DecoyDraws): seq<string>
  {
    PoolOf(Candidates(query, synonyms, d))
  }

  /** `random.sample(pool, min(n, len(pool)))` over the pool of the candidates `c`:
      `min(n, pool size)` distinct decoys, each longer than two characters and each
      one of the candidates. */
  function SampleOf(c: seq<string>, n: nat, selection: seq<nat>): (r: seq<string>)
    ensures |r| == Min(n, |PoolOf(c)|)
    ensures |r| <= n
    ensures NoDuplicates(r)
    ensures forall i :: 0 <= i < |r| ==> |r[i]| > 2 && r[i] in c
  {
    var pool := PoolOf(c);
    Sample(pool, Min(n, |pool|), selection)
  }

  /** `generate_decoys(query, n)`: `min(n, pool size)` decoys, so at most `n`, no
      duplicates, each longer than two characters, each one of the pooled candidates. */
  function DecoysFor(query: string, n: nat, synonyms: Lexicon, d: DecoyDraws): (r: seq<string>)
    ensures |r| == Min(n, |DecoyPool(query, synonyms, d)|)
    ensures NoDuplicates(r)
    ensures forall i :: 0 <= i < |r| ==> |r[i]| > 2 && r[i] in Candidates(query, synonyms, d)
  {
    SampleOf(Candidates(query, synonyms, d), n, d.selection)
  }

  /** The loop of `generate_decoys` that appends the reversed long words. */
  method AppendReversedLongWords(all: seq<string>, words: seq<string>) returns (r: seq<string>)
    ensures r == all + ReversedLongWords(words)
  {
    r := all;
    var i := 0;
    while i < |words|
      invariant 0 <= i <= |words|
      invariant r == all + ReversedLongWords(words[..i])
    {
      assert words[..i + 1][..i] == words[..i];
      if |words[i]| > 4 {
        r := r + [Reverse(words[i])];
      }
      i := i + 1;
    }
    assert words[..|words|] == words;
  }

  /** The list `all_decoys` that `generate_decoys` accumulates before filtering. */
  method PoolCandidates(query: string, synonyms: Lexicon, d: DecoyDraws) returns (all: seq<string>)
    ensures all == Candidates(query, synonyms, d)
  {
    all := SemanticDecoys(query, synonyms, d.semantic);
    all := all + ContextualDecoys(query, d.contextual);
    all := all + RandomTrendingDecoys(d.trending);
    all := AppendReversedLongWords(all, Split(query));
    all := all + [WithModifier(query, d.modifier)];
  }

  /** `generate_decoys(query, n)`. */
  method GenerateDecoys(query: string, n: nat, synonyms: Lexicon, d: DecoyDraws) returns (decoys: seq<string>)
    ensures decoys == DecoysFor(query, n, synonyms, d)
  {
    var all := PoolCandidates(query, synonyms, d);
    decoys := SampleOf(all, n, d.selection);
  }

  /** Nothing in `generate_decoys` removes the real query from the pool, although the
      per-word filter of `semantic_decoys` drops a word's own lemma name and
      `contextual_decoys` is documented as making "similar but different" queries: a
      one-word palindrome of five or more letters reverses to itself and lands in
      the pool. */
  lemma PalindromeQueryIsItsOwnCandidate(synonyms: Lexicon, d: DecoyDraws)
    ensures "level" in DecoyPool("level", synonyms, d)
  {
    var q := "level";
    assert IsWord(q);
    SplitAfterWord(q, []);
    assert q + [] == q;
    assert Split([]) == [];
    assert Split(q) == [q];
    assert Reverse(q) == q;
    assert ReversedLongWords([q]) == [q] by {
      assert [q][..0] == [];
    }
    assert q in Candidates(q, synonyms, d);
  }
}
