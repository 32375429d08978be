/** Which connections make way for a fresh one, and how seldom, over every run of the scheduler. */
module Replacing {
  import opened Basics
  import opened Sorting
  import opened Chunks
  import opened ChunkInvariants
  import opened Protocol
  import opened Safety
  import opened Runs
  import opened Stealing

  // ---------------------------------------------------------------- the middle of some speeds

  function AtLeast(speed: real): real -> bool {
    r => r >= speed
  }

  function NoMoreThan(speed: real): real -> bool {
    r => r <= speed
  }

  function AnySpeed(): real -> bool {
    r => true
  }

  function Count(rates: seq<real>, keep: real -> bool): nat {
    if rates == [] then 0
    else Count(rates[..|rates| - 1], keep) + if keep(rates[|rates| - 1]) then 1 else 0
  }

  lemma WithoutOne(rates: seq<real>, k: nat)
    requires k < |rates|
    ensures multiset(rates) == multiset(rates[..k] + rates[k + 1..]) + multiset{rates[k]}
  {
    assert rates == rates[..k] + [rates[k]] + rates[k + 1..];
  }

  lemma WithoutSame(rates: seq<real>, sorted: seq<real>, k: nat)
    requires rates != [] && k < |sorted| && sorted[k] == rates[|rates| - 1]
    requires multiset(rates) == multiset(sorted)
    ensures multiset(rates[..|rates| - 1]) == multiset(sorted[..k] + sorted[k + 1..])
  {
    var n := |rates| - 1;
    WithoutOne(rates, n);
    WithoutOne(sorted, k);
    assert rates[..n] + rates[n + 1..] == rates[..n];
    assert multiset(rates[..n]) == multiset(rates) - multiset{rates[n]};
    assert multiset(sorted[..k] + sorted[k + 1..]) == multiset(sorted) - multiset{rates[n]};
  }

  lemma {:induction false} CountIsOrderFree(rates: seq<real>, sorted: seq<real>, keep: real -> bool)
    requires multiset(rates) == multiset(sorted)
    ensures Count(rates, keep) == Count(sorted, keep)
    decreases |rates|
  {
    assert |multiset(rates)| == |rates| && |multiset(sorted)| == |sorted|;
    if rates != [] {
      var n := |rates| - 1;
      assert rates[n] in multiset(sorted);
      var k :| 0 <= k < |sorted| && sorted[k] == rates[n];
      WithoutSame(rates, sorted, k);
      CountIsOrderFree(rates[..n], sorted[..k] + sorted[k + 1..], keep);
      CountAround(sorted, k, keep);
    }
  }

  lemma {:induction false} CountAround(rates: seq<real>, k: nat, keep: real -> bool)
    requires k < |rates|
    ensures Count(rates, keep) == Count(rates[..k] + rates[k + 1..], keep) + if keep(rates[k]) then 1 else 0
    decreases |rates|
  {
    var n := |rates| - 1;
    if k == n {
      assert rates[..k] + rates[k + 1..] == rates[..n];
    } else {
      CountAround(rates[..n], k, keep);
      var rest := rates[..k] + rates[k + 1..];
      assert rest[..|rest| - 1] == rates[..n][..k] + rates[..n][k + 1..];
      assert rest[|rest| - 1] == rates[n];
    }
  }

  lemma {:induction false} CountSorted(sorted: seq<real>, k: nat, speed: real)
    requires SortedBy(sorted, AtMost) && k < |sorted|
    ensures speed <= sorted[k] ==> Count(sorted, AtLeast(speed)) >= |sorted| - k
    ensures speed >= sorted[k] ==> Count(sorted, NoMoreThan(speed)) >= k + 1
    decreases |sorted|
  {
    var n := |sorted| - 1;
    assert AtMost(sorted[k], sorted[n]);
    if k < n {
      CountSorted(sorted[..n], k, speed);
    } else if k > 0 {
      assert AtMost(sorted[k - 1], sorted[k]);
      CountSorted(sorted[..n], k - 1, speed);
    }
  }

  // ---------------------------------------------------------------- laggards only

  /** Another chunk in flight on `mirror`, whose speed is measured. */
  predicate IsMeasuredPeer(st: State, i: nat, chunk: nat, mirror: nat, now: real)
    requires HandlesInRange(st) && i < |st.chunks|
  {
    && i != chunk && st.chunks[i].status.Assigned? && st.chunks[i].status.mirror == mirror
    && (AttemptOf(st, i).windowRate.Some? || IsMeasured(st, i, now))
  }

  /** The speed of its last window, before there is one that since its answer. */
  function SpeedOf(st: State, i: nat, now: real): real
    requires HandlesInRange(st) && i < |st.chunks| && (AttemptOf(st, i).windowRate.Some? || IsMeasured(st, i, now))
  {
    if AttemptOf(st, i).windowRate.Some? then
      AttemptOf(st, i).windowRate.value
    else
      var (at, from) := AttemptOf(st, i).answered.value;
      (OffsetsOf(st, i).cur - from) as real / (now - at)
  }

  /** The measured peers among the first `n` chunks whose speed is one of those to `keep`. */
  ghost function Peers(st: State, n: nat, chunk: nat, mirror: nat, now: real, keep: real -> bool): set<nat>
    requires HandlesInRange(st) && n <= |st.chunks|
  {
    set i: nat | i < n && IsMeasuredPeer(st, i, chunk, mirror, now) && keep(SpeedOf(st, i, now))
  }

  /** Half of the measured peers, rounded up, go at `speed` or more, and more than half of them, rounded down, at no more. */
  ghost predicate IsMedian(st: State, chunk: nat, mirror: nat, now: real, speed: real)
    requires HandlesInRange(st)
  {
    var n := |Peers(st, |st.chunks|, chunk, mirror, now, AnySpeed())|;
    && |Peers(st, |st.chunks|, chunk, mirror, now, AtLeast(speed))| >= n - n / 2
    && |Peers(st, |st.chunks|, chunk, mirror, now, NoMoreThan(speed))| >= n / 2 + 1
  }

  /**
   No connection was replaced for a window; at least three peers are measured; `rate` is under 0.3 of
   their median, and at that the chunk lacks a window of work or more.
   */
  ghost predicate IsDue(st: State, chunk: nat, mirror: nat, rate: real, now: real)
    requires HandlesInRange(st)
  {
    && (st.replacedAt.Some? ==> now - st.replacedAt.value >= 5.0)
    && |Peers(st, |st.chunks|, chunk, mirror, now, AnySpeed())| >= 3
    && exists median :: IsMedian(st, chunk, mirror, now, median)
                        && rate < 0.3 * median
                        && (if chunk < |st.chunks| then RestOf(st, chunk) else 0) as real >= 5.0 * median
  }

  lemma {:induction false} PeersAreCounted(st: State, n: nat, chunk: nat, mirror: nat, now: real, keep: real -> bool)
    requires HandlesInRange(st) && n <= |st.chunks|
    ensures |Peers(st, n, chunk, mirror, now, keep)| == Count(PeerRates(st, n, chunk, mirror, now), keep)
  {
    if n > 0 {
      PeersAreCounted(st, n - 1, chunk, mirror, now, keep);
      var before := PeerRates(st, n - 1, chunk, mirror, now);
      var peers := Peers(st, n - 1, chunk, mirror, now, keep);
      SpeedIsPeerRate(st, n - 1, chunk, mirror, now);
      if IsMeasuredPeer(st, n - 1, chunk, mirror, now) {
        assert (before + [SpeedOf(st, n - 1, now)])[..|before|] == before;
        assert Peers(st, n, chunk, mirror, now, keep) == if keep(SpeedOf(st, n - 1, now)) then peers + {n - 1} else peers;
      } else {
        assert Peers(st, n, chunk, mirror, now, keep) == peers;
      }
    }
  }

  lemma SpeedIsPeerRate(st: State, i: nat, chunk: nat, mirror: nat, now: real)
    requires HandlesInRange(st) && i < |st.chunks|
    ensures IsMeasuredPeer(st, i, chunk, mirror, now) <==> IsPeer(st, i, chunk, mirror) && PeerRate(st, i, now).Some?
    ensures IsMeasuredPeer(st, i, chunk, mirror, now) ==> PeerRate(st, i, now) == Some(SpeedOf(st, i, now))
  {
  }

  lemma {:induction false} CountAny(rates: seq<real>)
    ensures Count(rates, AnySpeed()) == |rates|
  {
    if rates != [] {
      CountAny(rates[..|rates| - 1]);
    }
  }

  lemma MedianIsMedian(st: State, chunk: nat, mirror: nat, now: real)
    requires HandlesInRange(st)
    ensures var rates := PeerRates(st, |st.chunks|, chunk, mirror, now);
            && |Peers(st, |st.chunks|, chunk, mirror, now, AnySpeed())| == |rates|
            && (rates != [] ==> IsMedian(st, chunk, mirror, now, Median(rates)))
  {
    hide PeerRates, Peers, Count;
    var rates := PeerRates(st, |st.chunks|, chunk, mirror, now);
    PeersAreCounted(st, |st.chunks|, chunk, mirror, now, AnySpeed());
    CountAny(rates);
    if rates != [] {
      var m := Median(rates);
      PeersAreCounted(st, |st.chunks|, chunk, mirror, now, AtLeast(m));
      PeersAreCounted(st, |st.chunks|, chunk, mirror, now, NoMoreThan(m));
      MiddleCounts(rates);
    }
  }

  lemma MiddleCounts(rates: seq<real>)
    requires rates != []
    ensures Count(rates, AtLeast(Median(rates))) >= |rates| - |rates| / 2
    ensures Count(rates, NoMoreThan(Median(rates))) >= |rates| / 2 + 1
  {
    var sorted := Sort(rates, AtMost);
    SortSorts(rates, AtMost);
    CountSorted(sorted, |rates| / 2, Median(rates));
    CountIsOrderFree(rates, sorted, AtLeast(Median(rates)));
    CountIsOrderFree(rates, sorted, NoMoreThan(Median(rates)));
  }

  lemma MedianIsOne(st: State, chunk: nat, mirror: nat, now: real, m: real, m': real)
    requires HandlesInRange(st) && IsMedian(st, chunk, mirror, now, m) && IsMedian(st, chunk, mirror, now, m')
    ensures m >= m'
  {
    if m < m' {
      var all := Peers(st, |st.chunks|, chunk, mirror, now, AnySpeed());
      var fast := Peers(st, |st.chunks|, chunk, mirror, now, AtLeast(m'));
      var slow := Peers(st, |st.chunks|, chunk, mirror, now, NoMoreThan(m));
      assert fast !! slow && fast + slow <= all;
      SubsetCount(fast + slow, all);
      assert false;
    }
  }

  lemma {:induction false} SubsetCount(part: set<nat>, whole: set<nat>)
    requires part <= whole
    ensures |part| <= |whole|
  {
    assert part + (whole - part) == whole;
  }

  /** A connection is replaced exactly when that is due, and nothing but the time of that is noted. */
  lemma ReplacesExactlyWhenDue(st: State, chunk: nat, mirror: nat, rate: real, now: real)
    requires HandlesInRange(st)
    ensures Replaces(st, chunk, mirror, rate, now).1 <==> IsDue(st, chunk, mirror, rate, now)
    ensures Replaces(st, chunk, mirror, rate, now).0
         == if IsDue(st, chunk, mirror, rate, now) then st.(replacedAt := Some(now)) else st
  {
    hide PeerRates, Peers, IsMedian, Median;
    MedianIsMedian(st, chunk, mirror, now);
    var rates := PeerRates(st, |st.chunks|, chunk, mirror, now);
    if rates != [] {
      forall m | IsMedian(st, chunk, mirror, now, m)
        ensures m == Median(rates)
      {
        MedianIsOne(st, chunk, mirror, now, m, Median(rates));
        MedianIsOne(st, chunk, mirror, now, Median(rates), m);
      }
    }
    assert chunk < |st.chunks| ==> UnreceivedOf(st, chunk) == RestOf(st, chunk);
  }

  // ---------------------------------------------------------------- once per window

  /** The state a legal run is in before its step `i`. */
  ghost function StateAt(s: Sys, steps: seq<Step>, i: nat): (mid: Sys)
    requires Inv(s) && Legal(s, steps) && i <= |steps|
    ensures Inv(mid) && (i < |steps| ==> Enabled(mid, steps[i]))
    decreases i
  {
    if i == 0 then s else
    StepKeeps(s, steps[0]);
    StateAt(Apply(s, steps[0]), steps[1..], i - 1)
  }

  lemma {:induction false} StatesFollow(s: Sys, steps: seq<Step>, i: nat)
    requires Inv(s) && Legal(s, steps) && i < |steps|
    ensures StateAt(s, steps, i + 1) == Apply(StateAt(s, steps, i), steps[i])
    decreases i
  {
    StepKeeps(s, steps[0]);
    if i > 0 {
      StatesFollow(Apply(s, steps[0]), steps[1..], i - 1);
    }
  }

  /** Step `i` of the run is a worker's question that is answered with yes. */
  ghost predicate ReplacesAt(s: Sys, steps: seq<Step>, i: nat)
    requires Inv(s) && Legal(s, steps) && i < |steps|
  {
    steps[i].Ask? && Granted(StateAt(s, steps, i), steps[i])
  }

  ghost predicate Granted(s: Sys, ask: Step)
    requires Inv(s) && ask.Ask? && Enabled(s, ask)
  {
    SoundHandles(s.st);
    Replaces(s.st, s.workers[ask.w].chunk, ask.mirror, ask.rate, ask.now).1
  }

  /** A connection was replaced at `t` or later. */
  predicate ReplacedSince(st: State, t: real) {
    st.replacedAt.Some? && st.replacedAt.value >= t
  }

  /** Only a granted question moves the time of the last replacement, and only forward. */
  lemma ReplacedStaysStep(s: Sys, step: Step, t: real)
    requires Inv(s) && Enabled(s, step)
    ensures ReplacedSince(s.st, t) ==> ReplacedSince(Apply(s, step).st, t)
    ensures step.Ask? && Granted(s, step) ==> ReplacedSince(Apply(s, step).st, step.now)
    ensures step.Ask? && Granted(s, step) && ReplacedSince(s.st, t) ==> step.now - t >= LAG_WINDOW
  {
    SoundHandles(s.st);
    hide PeerRates, Median, Sound, HandlesInRange, UnreceivedOf;
    if step.GetWork? || step.GetAt? || step.TakeChunk? || step.Steal? {
      HandOutKeepsRest(s, step);
    }
  }

  lemma {:induction false} ReplacedStays(s: Sys, steps: seq<Step>, i: nat, j: nat, t: real)
    requires Inv(s) && Legal(s, steps) && i <= j <= |steps| && ReplacedSince(StateAt(s, steps, i).st, t)
    ensures ReplacedSince(StateAt(s, steps, j).st, t)
    decreases j - i
  {
    hide Inv, Enabled, Apply, StateAt, Legal;
    if i < j {
      ReplacedStays(s, steps, i, j - 1, t);
      StatesFollow(s, steps, j - 1);
      ReplacedStaysStep(StateAt(s, steps, j - 1), steps[j - 1], t);
    }
  }

  /**
   In every run, whatever hand-outs, publishes, settlements and news come between: two replaced
   connections are at least a window apart.
   */
  lemma ReplacementsAreApart(s: Sys, steps: seq<Step>, i: nat, j: nat)
    requires Inv(s) && Legal(s, steps) && i < j < |steps|
    requires ReplacesAt(s, steps, i) && ReplacesAt(s, steps, j)
    ensures steps[j].now - steps[i].now >= LAG_WINDOW
  {
    hide Inv, Enabled, Apply, StateAt, Legal, Granted, ReplacedSince;
    var t := steps[i].now;
    ReplacedStaysStep(StateAt(s, steps, i), steps[i], t);
    StatesFollow(s, steps, i);
    ReplacedStays(s, steps, i + 1, j, t);
    ReplacedStaysStep(StateAt(s, steps, j), steps[j], t);
  }

  /** At every moment of a run: an asking worker's connection is replaced exactly when that is due. */
  lemma ReplacedWereLaggards(s: Sys, steps: seq<Step>, i: nat)
    requires Inv(s) && Legal(s, steps) && i < |steps| && steps[i].Ask?
    ensures var mid := StateAt(s, steps, i);
            && HandlesInRange(mid.st) && steps[i].w < |mid.workers|
            && (ReplacesAt(s, steps, i) <==>
                  IsDue(mid.st, mid.workers[steps[i].w].chunk, steps[i].mirror, steps[i].rate, steps[i].now))
  {
    hide Legal, StateAt, HandlesInRange, IsDue, Replaces;
    var mid := StateAt(s, steps, i);
    SoundHandles(mid.st);
    ReplacesExactlyWhenDue(mid.st, mid.workers[steps[i].w].chunk, steps[i].mirror, steps[i].rate, steps[i].now);
  }
}
