/** The outcomes of Python's `random` module, as inputs.

    Every random call of app.py becomes a caller-supplied raw draw (a `nat`, or a
    sequence of them) that names the outcome: `random.choice(xs)` with draw `r` is
    `xs[r]`, `random.randint(lo, hi)` is `lo + r`, and `random.sample(xs, k)` picks
    `k` distinct positions one after the other from the positions not yet picked; a
    draw out of range selects the first candidate. Every outcome Python can
    produce is the outcome of some draw (ChoiceCovers, RandIntCovers, SampleCovers),
    so a property proved for all draws holds for every run. */
module Sampling {

  /** No value occurs twice in `s`. */
  ghost predicate NoDuplicates<T>(s: seq<T>) {
    forall i, j :: 0 <= i < j < |s| ==> s[i] != s[j]
  }

  /** `min(a, b)`. */
  function Min(a: nat, b: nat): (m: nat)
    ensures m <= a && m <= b && (m == a || m == b)
  {
    if a <= b then a else b
  }

  /** The position a raw draw `r` selects among `n` positions: the draw itself when it
      is in range, else the first position. */
  function Index(r: nat, n: nat): (j: nat)
    requires n > 0
    ensures j < n
    ensures r < n ==> j == r
  {
    if r < n then r else 0
  }

  /** The first raw draw of a stream; a stream that ran out reads as 0. */
  function Draw(draws: seq<nat>): nat {
    if draws == [] then 0 else draws[0]
  }

  /** The stream after its first raw draw. */
  function Rest(draws: seq<nat>): seq<nat> {
    if draws == [] then [] else draws[1..]
  }

  /** `random.choice(xs)`. */
  function Choice<T>(xs: seq<T>, r: nat): (x: T)
    requires xs != []
    ensures x in xs
  {
    xs[Index(r, |xs|)]
  }

  /** `random.randint(lo, hi)`: both bounds inclusive. */
  function RandInt(lo: int, hi: int, r: nat): (n: int)
    requires lo <= hi
    ensures lo <= n <= hi
  {
    lo + Index(r, hi - lo + 1)
  }

  /** Every element can be chosen. */
  lemma ChoiceCovers<T>(xs: seq<T>, i: nat)
    requires i < |xs|
    ensures Choice(xs, i) == xs[i]
  {
  }

  /** Every integer of the range can be drawn. */
  lemma RandIntCovers(lo: int, hi: int, n: int)
    requires lo <= n <= hi
    ensures RandInt(lo, hi, (n - lo) as nat) == n
  {
  }

  /** `s` without its element at position `k`. */
  function RemoveAt<T>(s: seq<T>, k: nat): (r: seq<T>)
    requires k < |s|
    ensures |r| == |s| - 1
    ensures forall i :: 0 <= i < k ==> r[i] == s[i]
    ensures forall i :: k <= i < |r| ==> r[i] == s[i + 1]
  {
    s[..k] + s[k + 1..]
  }

  /** What removing a position keeps and drops. */
  lemma RemoveAtMembers<T>(s: seq<T>, k: nat)
    requires k < |s|
    ensures forall x :: x in RemoveAt(s, k) ==> x in s
    ensures forall x :: x in s && x != s[k] ==> x in RemoveAt(s, k)
    ensures NoDuplicates(s) ==> NoDuplicates(RemoveAt(s, k)) && s[k] !in RemoveAt(s, k)
  {
    var r := RemoveAt(s, k);
    forall x | x in s && x != s[k] ensures x in r {
      var i :| 0 <= i < |s| && s[i] == x;
      if i < k { assert r[i] == x; } else { assert r[i - 1] == x; }
    }
    if NoDuplicates(s) {
      forall i | 0 <= i < |r| ensures r[i] != s[k] {
        if i < k { assert r[i] == s[i]; } else { assert r[i] == s[i + 1]; }
      }
    }
  }

  /** `k` successive picks without replacement from `pool`, driven by `draws`. */
  function Select<T>(pool: seq<T>, k: nat, draws: seq<nat>): (picked: seq<T>)
    requires k <= |pool|
    ensures |picked| == k
    ensures forall i :: 0 <= i < k ==> picked[i] in pool
    ensures NoDuplicates(pool) ==> NoDuplicates(picked)
    ensures multiset(picked) <= multiset(pool)
    decreases k
  {
    if k == 0 then []
    else
      var j := Index(Draw(draws), |pool|);
      var rest := Select(RemoveAt(pool, j), k - 1, Rest(draws));
      RemoveAtMembers(pool, j);
      RemoveAtMultiset(pool, j);
      [pool[j]] + rest
  }

  /** Removing a position takes exactly one copy of its element out of the multiset. */
  lemma RemoveAtMultiset<T>(s: seq<T>, k: nat)
    requires k < |s|
    ensures multiset(s) == multiset{s[k]} + multiset(RemoveAt(s, k))
  {
    assert s == s[..k] + [s[k]] + s[k + 1..];
  }

  /** `[0, 1, ..., n - 1]`. */
  function Range(n: nat): (r: seq<nat>)
    ensures |r| == n
    ensures forall i :: 0 <= i < n ==> r[i] == i
  {
    seq(n, i requires 0 <= i < n => i)
  }

  /** The positions `random.sample` picks from a population of size `n`: `k` distinct
      positions, each below `n`. */
  function SampleIndices(n: nat, k: nat, draws: seq<nat>): (idx: seq<nat>)
    requires k <= n
    ensures |idx| == k
    ensures forall i :: 0 <= i < k ==> idx[i] < n
    ensures NoDuplicates(idx)
  {
    Select(Range(n), k, draws)
  }

  /** Every position of `idx` is below `n`. */
  predicate Below(idx: seq<nat>, n: nat) {
    forall i :: 0 <= i < |idx| ==> idx[i] < n
  }

  /** The elements of `pool` at the positions `idx`, in that order. */
  function Gather<T>(pool: seq<T>, idx: seq<nat>): (r: seq<T>)
    requires Below(idx, |pool|)
    ensures |r| == |idx|
    ensures forall i :: 0 <= i < |idx| ==> r[i] == pool[idx[i]]
  {
    seq(|idx|, i requires 0 <= i < |idx| => pool[idx[i]])
  }

  /** `random.sample(pool, k)`: the elements at `k` distinct positions of `pool`. The
      result holds only elements of the pool, never more copies of a value than the
      pool holds and, when the pool has no duplicates, no duplicates itself. */
  function Sample<T>(pool: seq<T>, k: nat, draws: seq<nat>): (s: seq<T>)
    requires k <= |pool|
    ensures |s| == k
    ensures forall i :: 0 <= i < k ==> s[i] in pool
    ensures multiset(s) <= multiset(pool)
    ensures NoDuplicates(pool) ==> NoDuplicates(s)
  {
    var idx := SampleIndices(|pool|, k, draws);
    SampleIsSelect(pool, k, draws);
    Gather(pool, idx)
  }

  /** Picking positions and reading them off is picking elements: the sample is the
      selection the same draws make from the pool itself. */
  lemma SampleIsSelect<T>(pool: seq<T>, k: nat, draws: seq<nat>)
    requires k <= |pool|
    ensures Gather(pool, SampleIndices(|pool|, k, draws)) == Select(pool, k, draws)
  {
    var r := Range(|pool|);
    GatherSelect(pool, r, k, draws);
    assert Gather(pool, r) == pool;
  }

  /** Selection commutes with reading positions off `pool`. */
  lemma {:induction false} GatherSelect<T>(pool: seq<T>, ps: seq<nat>, k: nat, draws: seq<nat>)
    requires Below(ps, |pool|)
    requires k <= |ps|
    ensures Gather(pool, Select(ps, k, draws)) == Select(Gather(pool, ps), k, draws)
    decreases k
  {
    if k > 0 {
      var j := Index(Draw(draws), |ps|);
      var ps' := RemoveAt(ps, j);
      RemoveAtMembers(ps, j);
      GatherSelect(pool, ps', k - 1, Rest(draws));
      SelectStep(ps, k, draws);
      SelectStep(Gather(pool, ps), k, draws);
      GatherRemoveAt(pool, ps, j);
      GatherCons(pool, ps[j], Select(ps', k - 1, Rest(draws)));
    }
  }

  /** Reading positions off `pool` and then removing one is removing it first. */
  lemma GatherRemoveAt<T>(pool: seq<T>, ps: seq<nat>, j: nat)
    requires Below(ps, |pool|)
    requires j < |ps|
    ensures Below(RemoveAt(ps, j), |pool|)
    ensures RemoveAt(Gather(pool, ps), j) == Gather(pool, RemoveAt(ps, j))
  {
    RemoveAtMembers(ps, j);
  }

  /** Reading off a position in front of others. */
  lemma GatherCons<T>(pool: seq<T>, p: nat, ps: seq<nat>)
    requires p < |pool|
    requires Below(ps, |pool|)
    ensures Gather(pool, [p] + ps) == [pool[p]] + Gather(pool, ps)
  {
  }

  /** The draws that make Select pick exactly `picked`. */
  function DrawsFor<T(==)>(pool: seq<T>, picked: seq<T>): seq<nat>
    decreases |picked|
  {
    if picked == [] || picked[0] !in pool then []
    else
      var j := IndexOf(pool, picked[0]);
      [j] + DrawsFor(RemoveAt(pool, j), picked[1..])
  }

  /** The first position of `x` in `s`. */
  function IndexOf<T(==)>(s: seq<T>, x: T): (j: nat)
    requires x in s
    ensures j < |s| && s[j] == x
  {
    if s[0] == x then 0 else 1 + IndexOf(s[1..], x)
  }

  /** Every selection of distinct elements of a duplicate-free pool is the outcome of
      some draws. */
  lemma {:induction false} SelectCovers<T>(pool: seq<T>, picked: seq<T>)
    requires NoDuplicates(pool) && NoDuplicates(picked)
    requires forall i :: 0 <= i < |picked| ==> picked[i] in pool
    requires |picked| <= |pool|
    ensures Select(pool, |picked|, DrawsFor(pool, picked)) == picked
    decreases |picked|
  {
    if picked != [] {
      var j := IndexOf(pool, picked[0]);
      var pool' := RemoveAt(pool, j);
      var tail := picked[1..];
      var rest := DrawsFor(pool', tail);
      DropFirstPick(pool, picked);
      SelectCovers(pool', tail);
      DrawsForStep(pool, picked);
      SelectFirst(pool, picked, j, rest);
    }
  }

  /** One step of DrawsFor. */
  lemma DrawsForStep<T>(pool: seq<T>, picked: seq<T>)
    requires picked != [] && picked[0] in pool
    ensures DrawsFor(pool, picked)
      == [IndexOf(pool, picked[0])] + DrawsFor(RemoveAt(pool, IndexOf(pool, picked[0])), picked[1..])
  {
  }

  /** Once the first pick is removed from the pool, the remaining picks are a
      selection from what is left. */
  lemma DropFirstPick<T>(pool: seq<T>, picked: seq<T>)
    requires NoDuplicates(pool) && NoDuplicates(picked) && picked != []
    requires forall i :: 0 <= i < |picked| ==> picked[i] in pool
    ensures var pool' := RemoveAt(pool, IndexOf(pool, picked[0]));
      && NoDuplicates(pool') && NoDuplicates(picked[1..])
      && (forall i :: 0 <= i < |picked| - 1 ==> picked[1..][i] in pool')
  {
    var pool' := RemoveAt(pool, IndexOf(pool, picked[0]));
    RemoveAtMembers(pool, IndexOf(pool, picked[0]));
    var tail := picked[1..];
    forall i | 0 <= i < |tail| ensures tail[i] in pool' {
      assert tail[i] == picked[i + 1] != picked[0];
    }
  }

  /** Drawing the position of the first pick and then draws that select the other
      picks from the rest of the pool selects all of them. */
  lemma SelectFirst<T>(pool: seq<T>, picked: seq<T>, j: nat, rest: seq<nat>)
    requires 0 < |picked| <= |pool| && j < |pool| && pool[j] == picked[0]
    requires Select(RemoveAt(pool, j), |picked[1..]|, rest) == picked[1..]
    ensures Select(pool, |picked|, [j] + rest) == picked
  {
    var draws := [j] + rest;
    assert Draw(draws) == j;
    assert Rest(draws) == rest;
    SelectStep(pool, |picked|, draws);
    assert picked == [picked[0]] + picked[1..];
  }

  /** One step of Select. */
  lemma SelectStep<T>(pool: seq<T>, k: nat, draws: seq<nat>)
    requires 0 < k <= |pool|
    ensures Select(pool, k, draws)
      == [pool[Index(Draw(draws), |pool|)]] + Select(RemoveAt(pool, Index(Draw(draws), |pool|)), k - 1, Rest(draws))
  {
  }

  /** Every `k` distinct positions of a population of size `n` are the positions
      `random.sample` can pick. */
  lemma SampleCovers(n: nat, idx: seq<nat>)
    requires NoDuplicates(idx)
    requires forall i :: 0 <= i < |idx| ==> idx[i] < n
    requires |idx| <= n
    ensures SampleIndices(n, |idx|, DrawsFor(Range(n), idx)) == idx
  {
    var r := Range(n);
    assert NoDuplicates(r);
    forall i | 0 <= i < |idx| ensures idx[i] in r {
      assert r[idx[i]] == idx[i];
    }
    SelectCovers(r, idx);
  }

  /** `list(set(xs))`: each value of `xs` once. Python's set gives no order; the model
      keeps first occurrences, which loses no outcome because app.py only ever
      samples from the result. */
  function Distinct<T(==)>(xs: seq<T>): (r: seq<T>)
    ensures NoDuplicates(r)
    ensures forall i :: 0 <= i < |r| ==> r[i] in xs
    ensures forall i :: 0 <= i < |xs| ==> xs[i] in r
    ensures |r| <= |xs|
  {
    if xs == [] then []
    else
      var init := xs[..|xs| - 1];
      var last := xs[|xs| - 1];
      var r := Distinct(init);
      assert xs == init + [last];
      if last in r then r else r + [last]
  }
}
