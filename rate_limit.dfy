/** Sliding-window admission control (app.py `check_rate_limit` and the module-level
    `query_tracker`). Timestamps are whole seconds; the window is one minute. */
module RateLimit {

  /** `MAX_QUERIES_PER_MINUTE`. */
  const MAX_QUERIES_PER_MINUTE: nat := 10

  /** `timedelta(minutes=1)`, in seconds. */
  const WINDOW: int := 60

  /** The timestamps of `window` that are still less than a minute old at `now`, in
      their original order: the list comprehension that prunes the tracker. */
  function Recent(window: seq<int>, now: int): (r: seq<int>)
    ensures |r| <= |window|
    ensures forall t :: t in r <==> t in window && now - t < WINDOW
    ensures forall t :: multiset(r)[t] == if now - t < WINDOW then multiset(window)[t] else 0
  {
    if window == [] then []
    else
      assert window == [window[0]] + window[1..];
      if now - window[0] < WINDOW then [window[0]] + Recent(window[1..], now)
      else Recent(window[1..], now)
  }

  /** Pruning keeps the order: pruning two lists one after the other is pruning each;
      with RecentOne and `Recent([], now) == []` this determines `Recent`. */
  lemma {:induction false} RecentAppend(a: seq<int>, b: seq<int>, now: int)
    ensures Recent(a + b, now) == Recent(a, now) + Recent(b, now)
    decreases |a|
  {
    if a == [] {
      assert a + b == b;
    } else {
      assert (a + b)[0] == a[0];
      assert (a + b)[1..] == a[1..] + b;
      RecentAppend(a[1..], b, now);
    }
  }

  /** A single timestamp survives pruning exactly when it is less than a minute old. */
  lemma RecentOne(t: int, now: int)
    ensures Recent([t], now) == if now - t < WINDOW then [t] else []
  {
    assert [t][1..] == [];
  }

  /** Outcome of one admission check: the verdict and the identifier's new window. */
  datatype Admission = Admission(admitted: bool, window: seq<int>)

  /** One call of `check_rate_limit` on an identifier whose stored timestamps are
      `window`: prune, then reject if the ceiling is reached, else append `now`. */
  function Admit(window: seq<int>, now: int): (a: Admission)
    ensures forall t :: t in a.window ==> now - t < WINDOW
    ensures a.admitted <==> |Recent(window, now)| < MAX_QUERIES_PER_MINUTE
    ensures a.admitted ==> a.window == Recent(window, now) + [now]
    ensures !a.admitted ==> a.window == Recent(window, now)
    ensures a.admitted ==> |a.window| <= MAX_QUERIES_PER_MINUTE
    ensures !a.admitted ==> |a.window| >= MAX_QUERIES_PER_MINUTE
    ensures |window| <= MAX_QUERIES_PER_MINUTE ==> |a.window| <= MAX_QUERIES_PER_MINUTE
  {
    var recent := Recent(window, now);
    if |recent| >= MAX_QUERIES_PER_MINUTE then Admission(false, recent)
    else Admission(true, recent + [now])
  }

  /** The verdicts of successive calls at `times`, starting from `window`. */
  function Verdicts(window: seq<int>, times: seq<int>): (v: seq<bool>)
    ensures |v| == |times|
    decreases |times|
  {
    if times == [] then []
    else
      var a := Admit(window, times[0]);
      [a.admitted] + Verdicts(a.window, times[1..])
  }

  /** The stored window after successive calls at `times`, starting from `window`. */
  function FinalWindow(window: seq<int>, times: seq<int>): seq<int>
    decreases |times|
  {
    if times == [] then window
    else FinalWindow(Admit(window, times[0]).window, times[1..])
  }

  /** Pruning keeps everything that is still recent. */
  lemma {:induction false} RecentKeepsAll(window: seq<int>, now: int)
    requires forall t :: t in window ==> now - t < WINDOW
    ensures Recent(window, now) == window
  {
    if window != [] {
      assert window == [window[0]] + window[1..];
      assert forall t :: t in window[1..] ==> t in window;
      RecentKeepsAll(window[1..], now);
      assert window[0] in window;
      assert Recent(window, now) == [window[0]] + Recent(window[1..], now);
    }
  }

  /** A burst: while every timestamp involved lies in one minute-long interval, the
      `i`-th call is admitted exactly when fewer than ten timestamps were stored
      before the burst plus the `i` calls already made. */
  lemma {:induction false} BurstVerdicts(window: seq<int>, times: seq<int>, lo: int)
    requires forall t :: t in window ==> lo <= t < lo + WINDOW
    requires forall i :: 0 <= i < |times| ==> lo <= times[i] < lo + WINDOW
    ensures forall i :: 0 <= i < |times| ==> Verdicts(window, times)[i] == (|window| + i < MAX_QUERIES_PER_MINUTE)
    decreases |times|
  {
    if times != [] {
      RecentKeepsAll(window, times[0]);
      var a := Admit(window, times[0]);
      assert forall t :: t in a.window ==> lo <= t < lo + WINDOW;
      BurstVerdicts(a.window, times[1..], lo);
      var v := Verdicts(window, times);
      assert v == [a.admitted] + Verdicts(a.window, times[1..]);
      forall i | 0 < i < |times|
        ensures v[i] == (|window| + i < MAX_QUERIES_PER_MINUTE)
      {
        assert v[i] == Verdicts(a.window, times[1..])[i - 1];
        assert times[1..][i - 1] == times[i];
      }
    }
  }

  /** Ten calls within one minute are admitted and the eleventh is rejected. */
  lemma EleventhCallInAMinuteRejected(times: seq<int>, lo: int)
    requires |times| == MAX_QUERIES_PER_MINUTE + 1
    requires forall i :: 0 <= i < |times| ==> lo <= times[i] < lo + WINDOW
    ensures forall i :: 0 <= i < MAX_QUERIES_PER_MINUTE ==> Verdicts([], times)[i]
    ensures !Verdicts([], times)[MAX_QUERIES_PER_MINUTE]
  {
    BurstVerdicts([], times, lo);
  }

  /** Every stored timestamp is an earlier one or one of the calls. */
  lemma {:induction false} FinalWindowFrom(window: seq<int>, times: seq<int>)
    ensures forall t :: t in FinalWindow(window, times) ==> t in window || t in times
    decreases |times|
  {
    if times != [] {
      var a := Admit(window, times[0]);
      FinalWindowFrom(a.window, times[1..]);
    }
  }

  /** Once every stored timestamp is a minute old, a call is admitted again and the
      window restarts with it alone. */
  lemma {:induction false} AdmittedOnceWindowElapsed(window: seq<int>, now: int)
    requires forall t :: t in window ==> now - t >= WINDOW
    ensures Admit(window, now) == Admission(true, [now])
  {
    assert Recent(window, now) == [] by {
      if Recent(window, now) != [] {
        assert Recent(window, now)[0] in Recent(window, now);
      }
    }
  }

  /** After any run of calls, a call made a minute or more after all of them (and
      after anything stored before them) is admitted. */
  lemma AdmittedAgainAfterAMinute(window: seq<int>, times: seq<int>, now: int)
    requires forall t :: t in window ==> now - t >= WINDOW
    requires forall i :: 0 <= i < |times| ==> now - times[i] >= WINDOW
    ensures Admit(FinalWindow(window, times), now) == Admission(true, [now])
  {
    FinalWindowFrom(window, times);
    AdmittedOnceWindowElapsed(FinalWindow(window, times), now);
  }

  /** The process-wide `query_tracker`: identifier to admission timestamps. A missing
      identifier reads as the empty list, as with `defaultdict(list)`. */
  class RateLimiter {
    var tracker: map<string, seq<int>>

    /** No identifier ever holds more than the ceiling. */
    ghost predicate Valid()
      reads this
    {
      forall id :: id in tracker ==> |tracker[id]| <= MAX_QUERIES_PER_MINUTE
    }

    constructor ()
      ensures Valid() && tracker == map[]
    {
      tracker := map[];
    }

    /** `query_tracker[identifier]`: the empty list for an identifier never seen, as
        with `defaultdict(list)`; never more than the ceiling. */
    function Window(id: string): (w: seq<int>)
      reads this
      ensures id !in tracker ==> w == []
      ensures Valid() ==> |w| <= MAX_QUERIES_PER_MINUTE
    {
      if id in tracker then tracker[id] else []
    }

    /** `check_rate_limit(identifier)` at time `now`. */
    method CheckRateLimit(id: string, now: int) returns (admitted: bool)
      modifies this
      ensures admitted == Admit(old(Window(id)), now).admitted
      ensures tracker == old(tracker)[id := Admit(old(Window(id)), now).window]
      ensures admitted <==> |Recent(old(Window(id)), now)| < MAX_QUERIES_PER_MINUTE
      ensures forall t :: t in tracker[id] ==> now - t < WINDOW
      ensures forall other :: other != id ==> Window(other) == old(Window(other))
      ensures old(Valid()) ==> Valid()
    {
      tracker := tracker[id := Recent(Window(id), now)];
      if |tracker[id]| >= MAX_QUERIES_PER_MINUTE {
        return false;
      }
      tracker := tracker[id := tracker[id] + [now]];
      return true;
    }
  }
}
