/** What a steal and a take-over do to the chunk they pick, how well a steal splits it, and what if it does so late. */
module Stealing {
  import opened Basics
  import opened Ranges
  import opened Sorting
  import opened Chunks
  import opened ChunkInvariants
  import opened Conservation
  import opened Protocol
  import opened Safety
  import opened Runs

  // ---------------------------------------------------------------- the steps they take

  /** Where the unreceived rest of chunk `i` begins. */
  function NextByte(st: State, i: nat): nat
    requires HandlesInRange(st) && i < |st.chunks|
  {
    Max(Max(OffsetsOf(st, i).cur, st.chunks[i].range.start), AttemptOf(st, i).received)
  }

  lemma {:induction false} LastFinishesLast(st: State, n: nat, rule: StealRule, now: real)
    requires HandlesInRange(st) && n <= |st.chunks|
    ensures forall i | 0 <= i < n && Stealable(st, i, rule) ::
              && LastToFinish(st, n, rule, now).Some?
              && var victim := LastToFinish(st, n, rule, now).value;
              && NoSooner(st, i, victim, rule, now)
              && (EtaOf(st, i, rule, now) == EtaOf(st, victim, rule, now) && UnreceivedOf(st, i) == UnreceivedOf(st, victim) ==>
                    i <= victim)
  {
    if n > 0 {
      LastFinishesLast(st, n - 1, rule, now);
    }
  }

  /**
   Chunk `victim` may be stolen from, and of the chunks that may it is expected to finish last: its
   time is none, which is never, or each has a time and it is no later. Of those as late none has
   more bytes left, and of those with as many it is the one furthest down the list.
   */
  ghost predicate LastOfAll(st: State, victim: nat, rule: StealRule, now: real)
    requires HandlesInRange(st)
  {
    && victim < |st.chunks| && MayBeStolenFrom(st, victim, rule)
    && forall i | 0 <= i < |st.chunks| && MayBeStolenFrom(st, i, rule) ::
         && (EtaOf(st, victim, rule, now).Some? ==>
               EtaOf(st, i, rule, now).Some? && EtaOf(st, i, rule, now).value <= EtaOf(st, victim, rule, now).value)
         && (EtaOf(st, i, rule, now) == EtaOf(st, victim, rule, now) ==>
               RestOf(st, i) < RestOf(st, victim) || (RestOf(st, i) == RestOf(st, victim) && i <= victim))
  }

  /** What chunk `i` has yet to receive. */
  function RestOf(st: State, i: nat): nat
    requires HandlesInRange(st) && i < |st.chunks|
  {
    Max(0, OffsetsOf(st, i).end + 1 - NextByte(st, i))
  }

  /** Chunk `i` is in flight and lacks more than the least a thief takes, which is a byte at least. */
  predicate MayBeStolenFrom(st: State, i: nat, rule: StealRule)
    requires HandlesInRange(st) && i < |st.chunks|
  {
    st.chunks[i].status.Assigned? && RestOf(st, i) > rule.minBytes && RestOf(st, i) > 1
  }

  /** Chunk `i` has bytes on disk that came since the answer, and some time has passed since then. */
  predicate IsMeasured(st: State, i: nat, now: real)
    requires HandlesInRange(st) && i < |st.chunks|
  {
    var answered := AttemptOf(st, i).answered;
    answered.Some? && now > answered.value.0 && OffsetsOf(st, i).cur > answered.value.1
  }

  /** What `mirror` is expected to cost, if that was given and it is expected to move. */
  predicate IsExpected(rule: StealRule, mirror: nat) {
    rule.timing.Some? && mirror < |rule.timing.value| && rule.timing.value[mirror].rate > 0.0
  }

  /** The speed measured since the answer, at once; before there is one, its mirror's rate once the rest of its startup is over. */
  lemma PaceIsKnown(st: State, i: nat, rule: StealRule, now: real)
    requires HandlesInRange(st) && i < |st.chunks| && st.chunks[i].status.Assigned?
    ensures var (c, a) := (st.chunks[i], AttemptOf(st, i));
            PaceOf(st, i, rule, now) ==
              if IsMeasured(st, i, now) then
                Some((0.0, (OffsetsOf(st, i).cur - a.answered.value.1) as real / (now - a.answered.value.0)))
              else if IsExpected(rule, c.status.mirror) then
                var expected := rule.timing.value[c.status.mirror];
                var waited := if c.assignedAt.Some? && now > c.assignedAt.value then now - c.assignedAt.value else 0.0;
                Some((if waited < expected.startup then expected.startup - waited else 0.0, expected.rate))
              else
                None
  {
  }

  /** When a chunk in flight will be done: it waits, and then gets what it lacks at its pace; without one, never. */
  lemma EtaIsTheTime(st: State, i: nat, rule: StealRule, now: real)
    requires HandlesInRange(st) && i < |st.chunks| && st.chunks[i].status.Assigned?
    ensures EtaOf(st, i, rule, now) == match PaceOf(st, i, rule, now)
                                       case Some((wait, rate)) => Some(wait + RestOf(st, i) as real / rate)
                                       case None => None
  {
  }

  lemma {:induction false} LongestIsLongest(st: State, n: nat, now: real, minSilence: nat -> real)
    requires HandlesInRange(st) && n <= |st.chunks|
    ensures var id := LongestSilent(st, n, now, minSilence);
            forall i | 0 <= i < n && Takeable(st, i, now, minSilence) ::
              id.Some? && Silence(AttemptOf(st, i), now) <= Silence(AttemptOf(st, id.value), now)
  {
    if n > 0 {
      LongestIsLongest(st, n - 1, now, minSilence);
    }
  }

  /**
   A steal that returns nothing changed nothing. Any other is a `Steal` step of the protocol: its
   victim is expected to finish last, the cut lies strictly after every byte the victim has
   received, and the thief gets no less than the rule's minimum.
   */
  lemma StealIsAStep(s: Sys, worker: nat, mirror: nat, rule: StealRule)
    requires Inv(s) && HandlesInRange(s.st)
    ensures var (st', given) := StealWork(s.st, worker, mirror, rule, s.clock);
            match given
            case None => st' == s.st
            case Some((victim, id)) =>
              && id == |s.st.chunks| && id < |st'.chunks|
              && var split := st'.chunks[id].range.start;
              && Enabled(s, Steal(victim, split, worker, mirror))
              && Apply(s, Steal(victim, split, worker, mirror)).st == st'
              && NextByte(s.st, victim) < split
              && st'.chunks[id].range == ByteRange(split, s.st.chunks[victim].range.end)
              && st'.chunks[id].range.Len() >= MinSteal(rule)
              && LastOfAll(s.st, victim, rule, s.clock)
              && HandlesInRange(st') && CompletedRanges(st') == CompletedRanges(s.st)
  {
    hide LastOfAll, Worthwhile, StealWork, CompletedRanges;
    StealPicksTheLast(s.st, worker, mirror, rule, s.clock);
    var (st', given) := StealWork(s.st, worker, mirror, rule, s.clock);
    if given.Some? {
      var victim := given.value.0;
      StolenSplit(s.st, worker, mirror, rule, s.clock);
      assert RowOk(s.st, victim);
      var split := st'.chunks[|s.st.chunks|].range.start;
      SplitConserves(s.st, victim, split, worker, mirror, s.clock);
    }
  }

  lemma StolenSplit(st: State, worker: nat, mirror: nat, rule: StealRule, now: real)
    requires Sound(st) && HandlesInRange(st) && StealWork(st, worker, mirror, rule, now).1.Some?
    ensures var (st', given) := StealWork(st, worker, mirror, rule, now);
            var victim := given.value.0;
            && st.fatal.None? && victim < |st.chunks| && st.chunks[victim].status.Assigned?
            && given.value.1 == |st.chunks| < |st'.chunks|
            && var split := st'.chunks[|st.chunks|].range.start;
            && NextByte(st, victim) < split
            && st.chunks[victim].range.start < split <= st.chunks[victim].range.end
            && st' == SplitForThief(st, victim, split, worker, mirror, now)
            && st'.chunks[|st.chunks|].range == ByteRange(split, st.chunks[victim].range.end)
            && st.chunks[victim].range.end + 1 - split >= MinSteal(rule)
  {
    var victim := StealWork(st, worker, mirror, rule, now).1.value.0;
    assert RowOk(st, victim) && RangesOf(st)[victim] == st.chunks[victim].range;
  }

  lemma SplitConserves(st: State, victim: nat, split: nat, worker: nat, mirror: nat, now: real)
    requires Sound(st) && HandlesInRange(st) && victim < |st.chunks| && st.chunks[victim].status.Assigned?
    requires st.chunks[victim].range.start < split <= st.chunks[victim].range.end && OffsetsOf(st, victim).cur <= split
    ensures HandlesInRange(SplitForThief(st, victim, split, worker, mirror, now))
    ensures CompletedRanges(SplitForThief(st, victim, split, worker, mirror, now)) == CompletedRanges(st)
  {
    SplitForThiefIsSound(st, victim, split, worker, mirror, now);
    SplitRecord(st, victim, split, worker, mirror, now);
    SameRecordSameReport(st, SplitForThief(st, victim, split, worker, mirror, now));
  }

  /** How long the worker of chunk `i` has waited for the server's next bytes. */
  function SilentFor(st: State, i: nat, now: real): real
    requires HandlesInRange(st) && i < |st.chunks|
  {
    var since := AttemptOf(st, i).waiting;
    if since.Some? && now > since.value then now - since.value else 0.0
  }

  /** Chunk `i` is in flight, not all on disk, and has been silent for as long as its mirror may be. */
  predicate MayBeTaken(st: State, i: nat, now: real, minSilence: nat -> real)
    requires HandlesInRange(st) && i < |st.chunks|
  {
    && st.chunks[i].status.Assigned?
    && OffsetsOf(st, i).cur <= OffsetsOf(st, i).end && st.chunks[i].range.start <= OffsetsOf(st, i).end
    && SilentFor(st, i, now) >= minSilence(st.chunks[i].status.mirror)
  }

  /**
   A take-over changes nothing exactly when the download failed or no chunk may be taken. Any other
   is a `TakeChunk` step, of the chunk silent longest.
   */
  lemma TakeOverIsAStep(s: Sys, worker: nat, mirror: nat, minSilence: nat -> real)
    requires Inv(s) && HandlesInRange(s.st)
    ensures var (st', given) := TakeOverSilent(s.st, worker, mirror, minSilence, s.clock);
            match given
            case None =>
              st' == s.st && (s.st.fatal.Some? || forall i | 0 <= i < |s.st.chunks| :: !MayBeTaken(s.st, i, s.clock, minSilence))
            case Some(id) =>
              && Enabled(s, TakeChunk(id, worker, mirror))
              && Apply(s, TakeChunk(id, worker, mirror)).st == st'
              && MayBeTaken(s.st, id, s.clock, minSilence)
              && (forall i | 0 <= i < |s.st.chunks| && MayBeTaken(s.st, i, s.clock, minSilence) ::
                    SilentFor(s.st, i, s.clock) <= SilentFor(s.st, id, s.clock))
  {
    LongestIsLongest(s.st, |s.st.chunks|, s.clock, minSilence);
    assert forall i | 0 <= i < |s.st.chunks| ::
        Takeable(s.st, i, s.clock, minSilence) == MayBeTaken(s.st, i, s.clock, minSilence)
        && Silence(AttemptOf(s.st, i), s.clock) == SilentFor(s.st, i, s.clock);
    match LongestSilent(s.st, |s.st.chunks|, s.clock, minSilence) {
      case None =>
      case Some(id) => assert RowOk(s.st, id);
    }
  }

  /** Once its answer came, a silent worker has waited since then at the latest; before, it is never taken. */
  lemma UnansweredIsNeverTaken(st: State, i: nat, now: real, minSilence: nat -> real)
    requires HandlesInRange(st) && i < |st.chunks|
    requires AttemptOf(st, i).waiting.None? && st.chunks[i].status.Assigned?
    requires minSilence(st.chunks[i].status.mirror) > 0.0
    ensures !Takeable(st, i, now, minSilence)
  {
  }

  // ---------------------------------------------------------------- the timed split

  /** When the later of both sides is done, in seconds, if the victim keeps `keep` of `left` bytes. */
  function LaterFinish(keep: real, left: real, wait: real, rate: real, thief: StealTiming): real
    requires rate > 0.0 && thief.rate > 0.0
  {
    MaxReal(wait + keep / rate, thief.startup + (left - keep) / thief.rate)
  }

  lemma QuotientIsMonotone(x: real, y: real, d: real)
    requires x <= y && d > 0.0
    ensures x / d <= y / d
  {
    assert (y - x) / d >= 0.0;
    assert y / d == x / d + (y - x) / d;
  }

  lemma ScaleBoth(a: real, b: real, d: real)
    requires d > 0.0 && a * d <= b * d
    ensures a <= b
  {
    if a > b {
      assert false;
    }
  }

  lemma ClearQuotient(x: real, d: real)
    requires d > 0.0
    ensures (x / d) * d == x
  {
  }

  /** Up to the even share the victim is done first, from there on the thief. */
  lemma EvenShareMeets(keep: real, left: real, wait: real, rate: real, thief: StealTiming)
    requires rate > 0.0 && thief.rate > 0.0
    ensures keep <= EvenShare(left, wait, rate, thief) ==>
              wait + keep / rate <= thief.startup + (left - keep) / thief.rate
    ensures keep >= EvenShare(left, wait, rate, thief) ==>
              wait + keep / rate >= thief.startup + (left - keep) / thief.rate
  {
    var t, startup := thief.rate, thief.startup;
    var even := EvenShare(left, wait, rate, thief);
    var a, b := wait + keep / rate, startup + (left - keep) / t;
    var d := rate * t;
    ClearQuotient(((startup - wait) * t + left) * rate, rate + t);
    assert even * (rate + t) == ((startup - wait) * t + left) * rate;
    ClearQuotient(keep, rate);
    ClearQuotient(left - keep, t);
    assert a * d == wait * d + keep * t by {
      assert (keep / rate) * d == ((keep / rate) * rate) * t;
    }
    assert b * d == startup * d + (left - keep) * rate by {
      assert ((left - keep) / t) * d == (((left - keep) / t) * t) * rate;
    }
    assert b * d - a * d == even * (rate + t) - keep * (rate + t);
    assert b * d - a * d == (even - keep) * (rate + t);
    if keep <= even {
      assert (even - keep) * (rate + t) >= 0.0;
      ScaleBoth(a, b, d);
    }
    if keep >= even {
      assert (even - keep) * (rate + t) <= 0.0;
      ScaleBoth(b, a, d);
    }
  }

  /** What the victim is left with in whole bytes: the even share rounded down, and at least one byte. */
  function WholeKeep(left: real, wait: real, rate: real, thief: StealTiming): nat
    requires rate > 0.0 && thief.rate > 0.0
  {
    Max(AsUnsigned(EvenShare(left, wait, rate, thief)), 1)
  }

  /** The victim's side finishes no earlier with more to do, the thief's no later. */
  lemma SidesAreMonotone(x: real, y: real, left: real, wait: real, rate: real, thief: StealTiming)
    requires rate > 0.0 && thief.rate > 0.0 && x <= y
    ensures wait + x / rate <= wait + y / rate
    ensures thief.startup + (left - y) / thief.rate <= thief.startup + (left - x) / thief.rate
  {
    QuotientIsMonotone(x, y, rate);
    QuotientIsMonotone(left - y, left - x, thief.rate);
  }

  /** A byte less for the victim costs the thief one byte of its time. */
  lemma ByteMore(x: real, left: real, thief: StealTiming)
    requires thief.rate > 0.0
    ensures thief.startup + (left - (x - 1.0)) / thief.rate == thief.startup + (left - x) / thief.rate + 1.0 / thief.rate
  {
    assert (left - (x - 1.0)) / thief.rate == (left - x) / thief.rate + 1.0 / thief.rate;
  }

  /**
   No split that leaves the victim a byte, whole or not, finishes more than one byte of thief time
   earlier than the one a timed steal makes.
   */
  lemma TimedSplitIsNearBest(left: real, wait: real, rate: real, thief: StealTiming, other: real)
    requires rate > 0.0 && thief.rate > 0.0 && other >= 1.0
    ensures LaterFinish(WholeKeep(left, wait, rate, thief) as real, left, wait, rate, thief)
         <= LaterFinish(other, left, wait, rate, thief) + 1.0 / thief.rate
  {
    var even := EvenShare(left, wait, rate, thief);
    var keep := WholeKeep(left, wait, rate, thief) as real;
    PositiveQuotient(1.0, thief.rate);
    KeepIsNearEven(left, wait, rate, thief);
    if keep > even {
      // The victim is left its one byte, and any other split leaves it no less.
      EvenShareMeets(keep, left, wait, rate, thief);
      SidesAreMonotone(keep, other, left, wait, rate, thief);
    } else {
      EvenShareMeets(keep, left, wait, rate, thief);
      SidesAreMonotone(even - 1.0, keep, left, wait, rate, thief);
      ByteMore(even, left, thief);
      if other <= even {
        SidesAreMonotone(other, even, left, wait, rate, thief);
      } else {
        EvenShareMeets(even, left, wait, rate, thief);
        SidesAreMonotone(even, other, left, wait, rate, thief);
      }
    }
  }

  lemma KeepIsNearEven(left: real, wait: real, rate: real, thief: StealTiming)
    requires rate > 0.0 && thief.rate > 0.0
    ensures var even, keep := EvenShare(left, wait, rate, thief), WholeKeep(left, wait, rate, thief) as real;
            if keep > even then keep == 1.0 else even - 1.0 <= keep
  {
  }

  /** A timed steal that is made splits there, and only a chunk its worker needs more than two startups for. */
  lemma TimedStealSplitsThere(remaining: nat, minBytes: nat, thief: StealTiming, wait: real, rate: real)
    requires thief.rate > 0.0 && rate > 0.0 && minBytes >= 1
    ensures var stolen := Stolen(remaining, minBytes, Some(thief), Some((wait, rate)));
            stolen.Some? <==>
              && wait + remaining as real / rate > STEAL_MIN_STARTUPS * thief.startup
              && remaining >= WholeKeep(remaining as real, wait, rate, thief) + minBytes
    ensures var stolen := Stolen(remaining, minBytes, Some(thief), Some((wait, rate)));
            stolen.Some? ==> remaining - stolen.value == WholeKeep(remaining as real, wait, rate, thief)
  {
  }

  /** How many bytes the victim of a steal is left with, of those that have not reached it. */
  function KeptBytes(st: State, victim: nat, split: nat): int
    requires HandlesInRange(st) && victim < |st.chunks|
  {
    split - NextByte(st, victim)
  }

  /**
   The split a timed steal makes is within one byte of thief time of the best there is for the
   state it finds; without timings the victim keeps half.
   */
  lemma StealIsNearBest(st: State, worker: nat, mirror: nat, rule: StealRule, now: real, other: real)
    requires HandlesInRange(st) && StealWork(st, worker, mirror, rule, now).1.Some? && other >= 1.0
    ensures var (st', given) := StealWork(st, worker, mirror, rule, now);
            var victim := given.value.0;
            && victim < |st.chunks| < |st'.chunks|
            && var left, kept := RestOf(st, victim), KeptBytes(st, victim, st'.chunks[|st.chunks|].range.start);
            var pace := PaceOf(st, victim, rule, now);
            if IsExpected(rule, mirror) && pace.Some? then
              var thief := rule.timing.value[mirror];
              && kept == WholeKeep(left as real, pace.value.0, pace.value.1, thief)
              && LaterFinish(kept as real, left as real, pace.value.0, pace.value.1, thief)
                 <= LaterFinish(other, left as real, pace.value.0, pace.value.1, thief) + 1.0 / thief.rate
            else
              kept == Max(left / 2, 1)
  {
    var victim := LastToFinish(st, |st.chunks|, rule, now).value;
    var left := RestOf(st, victim);
    assert left == UnreceivedOf(st, victim);
    var thief, pace := ExpectedThief(rule, mirror), PaceOf(st, victim, rule, now);
    KeptIsTheRest(st, victim, worker, mirror, rule, now);
    hide LastToFinish, UnreceivedOf, PaceOf, NextByte, LaterFinish, WholeKeep, StealFrom, Stolen;
    if thief.Some? && pace.Some? {
      TimedStealSplitsThere(left, MinSteal(rule), thief.value, pace.value.0, pace.value.1);
      TimedSplitIsNearBest(left as real, pace.value.0, pace.value.1, thief.value, other);
    } else {
      UntimedKeepsHalf(left, MinSteal(rule), thief, pace);
    }
  }

  lemma KeptIsTheRest(st: State, victim: nat, worker: nat, mirror: nat, rule: StealRule, now: real)
    requires HandlesInRange(st) && victim < |st.chunks| && StealFrom(st, victim, worker, mirror, rule, now).1.Some?
    ensures var (st', given) := StealFrom(st, victim, worker, mirror, rule, now);
            var left := UnreceivedOf(st, victim);
            var stolen := Stolen(left, MinSteal(rule), ExpectedThief(rule, mirror), PaceOf(st, victim, rule, now));
            && given.value.0 == victim && |st'.chunks| == |st.chunks| + 1 && stolen.Some?
            && KeptBytes(st, victim, st'.chunks[|st.chunks|].range.start) == left - stolen.value
  {
    hide PaceOf, ExpectedThief, Stolen, HandlesInRange;
  }

  lemma UntimedKeepsHalf(left: nat, minBytes: nat, thief: Option<StealTiming>, pace: Option<(real, real)>)
    requires (thief.Some? ==> thief.value.rate > 0.0) && (pace.Some? ==> pace.value.1 > 0.0)
    requires !(thief.Some? && pace.Some?) && minBytes >= 1
    ensures var stolen := Stolen(left, minBytes, thief, pace);
            && (stolen.Some? <==> left >= Max(left / 2, 1) + minBytes)
            && (stolen.Some? ==> left - stolen.value == Max(left / 2, 1))
  {
  }

  /**
   Splitting `victim` pays: with both paces known, it needs more than two of the thief's startups,
   and beside the share that evens them out there is the least a thief takes; else half is that much.
   */
  predicate Worthwhile(st: State, victim: nat, mirror: nat, rule: StealRule, now: real)
    requires HandlesInRange(st) && victim < |st.chunks|
  {
    var left, least := RestOf(st, victim), Max(rule.minBytes, 1);
    var pace := PaceOf(st, victim, rule, now);
    if IsExpected(rule, mirror) && pace.Some? then
      var thief := rule.timing.value[mirror];
      && pace.value.0 + left as real / pace.value.1 > 2.0 * thief.startup
      && left >= WholeKeep(left as real, pace.value.0, pace.value.1, thief) + least
    else
      left >= Max(left / 2, 1) + least
  }

  lemma StolenExactly(st: State, victim: nat, mirror: nat, rule: StealRule, now: real)
    requires HandlesInRange(st) && victim < |st.chunks|
    ensures Stolen(UnreceivedOf(st, victim), MinSteal(rule), ExpectedThief(rule, mirror), PaceOf(st, victim, rule, now)).Some?
       <==> Worthwhile(st, victim, mirror, rule, now)
  {
    hide PaceOf, WholeKeep, Stolen;
    var thief, pace := ExpectedThief(rule, mirror), PaceOf(st, victim, rule, now);
    assert UnreceivedOf(st, victim) == RestOf(st, victim);
    if thief.Some? && pace.Some? {
      TimedStealSplitsThere(RestOf(st, victim), MinSteal(rule), thief.value, pace.value.0, pace.value.1);
    } else {
      UntimedKeepsHalf(RestOf(st, victim), MinSteal(rule), thief, pace);
    }
  }

  /**
   A steal is made exactly when the download has not failed, some chunk may be stolen from, and it
   pays to split the one of them expected to finish last; and then that is the one it splits.
   */
  lemma StealPicksTheLast(st: State, worker: nat, mirror: nat, rule: StealRule, now: real)
    requires HandlesInRange(st)
    ensures var (st', given) := StealWork(st, worker, mirror, rule, now);
            match given
            case None => st' == st && (st.fatal.None? ==>
                           forall v: nat | LastOfAll(st, v, rule, now) :: !Worthwhile(st, v, mirror, rule, now))
            case Some((victim, _)) =>
              st.fatal.None? && LastOfAll(st, victim, rule, now) && Worthwhile(st, victim, mirror, rule, now)
  {
    hide Stolen, Worthwhile, EtaOf, LastOfAll, LastToFinish, SplitForThief;
    VictimIsLastOfAll(st, rule, now);
    var last := LastToFinish(st, |st.chunks|, rule, now);
    if last.Some? {
      StolenExactly(st, last.value, mirror, rule, now);
    }
  }

  lemma VictimIsLastOfAll(st: State, rule: StealRule, now: real)
    requires HandlesInRange(st)
    ensures forall v: nat :: LastOfAll(st, v, rule, now) <==> LastToFinish(st, |st.chunks|, rule, now) == Some(v)
  {
    hide EtaOf, LastToFinish;
    LastFinishesLast(st, |st.chunks|, rule, now);
    assert forall i | 0 <= i < |st.chunks| :: Stealable(st, i, rule) == MayBeStolenFrom(st, i, rule);
    assert forall i | 0 <= i < |st.chunks| :: UnreceivedOf(st, i) == RestOf(st, i);
  }

  // ---------------------------------------------------------------- a split that comes too late

  lemma ReadEndDoes(s: Sys, w: nat, to: nat)
    requires Inv(s) && Enabled(s, ReadEnd(w, to))
    ensures var s' := Apply(s, ReadEnd(w, to));
            s' == s.(workers := s'.workers) && |s'.workers| == |s.workers| && s'.workers[w] == s.workers[w].(phase := Writing(to))
  {
  }

  lemma WriteOutDoes(s: Sys, w: nat)
    requires Inv(s) && Enabled(s, WriteOut(w))
    ensures var s' := Apply(s, WriteOut(w));
            && s' == s.(workers := s'.workers, disk := s'.disk) && |s'.workers| == |s.workers|
            && s'.workers[w] == s.workers[w].(phase := Wrote(s.workers[w].phase.to))
  {
  }

  lemma PublishDoes(s: Sys, w: nat)
    requires Inv(s) && Enabled(s, Publish(w))
    ensures var (s', h) := (Apply(s, Publish(w)), s.workers[w]);
            && s'.clock == s.clock && h.offsets < |s.st.offsets|
            && s'.st == SetOffsets(s.st, h.offsets, s.st.offsets[h.offsets].(cur := h.phase.to))
  {
    assert WorkerOk(s, w);
  }

  lemma TellDoes(s: Sys, w: nat, told: Attempt)
    requires Inv(s) && Enabled(s, Tell(w, told))
    ensures var s' := Apply(s, Tell(w, told));
            && s' == s.(st := s.st.(attempts := s'.st.attempts)) && |s'.st.attempts| == |s.st.attempts|
            && s.workers[w].attempt < |s.st.attempts| && s'.st.attempts == s.st.attempts[s.workers[w].attempt := told]
  {
    assert WorkerOk(s, w);
  }

  /** A worker receives all up to its chunk's end, tells so, writes it and publishes it. */
  lemma WholeBatchRuns(s: Sys, w: nat) returns (batch: seq<Step>, late: Sys)
    requires Inv(s) && w < |s.workers| && s.workers[w].phase.Streaming?
    requires s.workers[w].offsets < |s.st.offsets| && s.workers[w].attempt < |s.st.attempts|
    requires s.workers[w].pos <= s.st.offsets[s.workers[w].offsets].end
    ensures Leads(s, batch, late) && Inv(late)
    ensures var (to, told) := (s.st.offsets[s.workers[w].offsets].end + 1, s.st.attempts[s.workers[w].attempt]);
            batch == [Tell(w, told.(received := to)), ReadEnd(w, to), WriteOut(w), Publish(w)]
    ensures var (h, o) := (s.workers[w].offsets, s.st.offsets[s.workers[w].offsets]);
            late.st == s.st.(offsets := s.st.offsets[h := o.(cur := o.end + 1)], attempts := late.st.attempts)
  {
    hide Inv, Apply, Leads;
    var to := s.st.offsets[s.workers[w].offsets].end + 1;
    var told := s.st.attempts[s.workers[w].attempt].(received := to);
    NoStepsLead(s);
    RunGoesOn(s, [], s, Tell(w, told));
    TellDoes(s, w, told);
    var s0 := Apply(s, Tell(w, told));
    RunGoesOn(s, [] + [Tell(w, told)], s0, ReadEnd(w, to));
    ReadEndDoes(s0, w, to);
    var s1 := Apply(s0, ReadEnd(w, to));
    RunGoesOn(s, [] + [Tell(w, told)] + [ReadEnd(w, to)], s1, WriteOut(w));
    WriteOutDoes(s1, w);
    var s2 := Apply(s1, WriteOut(w));
    RunGoesOn(s, [] + [Tell(w, told)] + [ReadEnd(w, to)] + [WriteOut(w)], s2, Publish(w));
    PublishDoes(s2, w);
    batch := [] + [Tell(w, told)] + [ReadEnd(w, to)] + [WriteOut(w)] + [Publish(w)];
    late := Apply(s2, Publish(w));
  }

  /** The steal of `s`, if it made one, as a step. */
  predicate Picks(s: Sys, rule: StealRule, steal: Step)
    requires HandlesInRange(s.st)
  {
    && steal.Steal?
    && var (st', given) := StealWork(s.st, steal.worker, steal.mirror, rule, s.clock);
    && given.Some? && given.value.0 == steal.victim
    && |s.st.chunks| < |st'.chunks| && st'.chunks[|s.st.chunks|].range.start == steal.split
  }

  /** A split the manager can make and after which it reports fewer bytes than before. */
  ghost predicate TakesBack(s: Sys, steal: Step)
    requires Inv(s)
  {
    && steal.Steal? && Enabled(s, steal) && (StepKeeps(s, steal); true)
    && RecordWithin(Apply(s, steal).st, s.st)
    && CompletedRanges(Apply(s, steal).st) != CompletedRanges(s.st)
  }

  /**
   Whenever a steal would pick a chunk whose worker streams, a run exists in which it takes back
   bytes that were reported: the steal picks its split, the worker receives and writes all to its end
   and publishes it, and only then the split is made.
   */
  lemma ALateSplitTakesBack(s: Sys, rule: StealRule, steal: Step, w: nat) returns (batch: seq<Step>, late: Sys)
    requires Inv(s) && HandlesInRange(s.st) && Picks(s, rule, steal)
    requires w < |s.workers| && Live(s, w) && s.workers[w].phase.Streaming? && s.workers[w].chunk == steal.victim
    ensures s.workers[w].offsets < |s.st.offsets| && s.workers[w].attempt < |s.st.attempts|
    ensures var (to, told) := (s.st.offsets[s.workers[w].offsets].end + 1, s.st.attempts[s.workers[w].attempt]);
            batch == [Tell(w, told.(received := to)), ReadEnd(w, to), WriteOut(w), Publish(w)]
    ensures Leads(s, batch, late) && Inv(late) && TakesBack(late, steal)
  {
    assert WorkerOk(s, w);
    StolenSplit(s.st, steal.worker, steal.mirror, rule, s.clock);
    assert RowOk(s.st, steal.victim);
    assert s.workers[w].pos <= s.st.offsets[s.workers[w].offsets].end;
    hide Leads, StealWork, Inv;
    batch, late := WholeBatchRuns(s, w);
    SplitTooLate(late, steal);
  }

  lemma SplitTooLate(s: Sys, steal: Step)
    requires Inv(s) && steal.Steal? && Enabled(s, steal)
    requires s.st.chunks[steal.victim].offsets < |s.st.offsets|
    requires s.st.offsets[s.st.chunks[steal.victim].offsets].cur > steal.split
    ensures TakesBack(s, steal)
  {
    ManagerStepConserves(s, steal);
    LateWithin(s, steal.victim, steal.split, steal.worker, steal.mirror);
    hide Inv, Apply, CompletedRanges;
  }

  lemma LateWithin(s: Sys, victim: nat, split: nat, worker: nat, mirror: nat)
    requires Inv(s) && Enabled(s, Steal(victim, split, worker, mirror))
    ensures RecordWithin(Apply(s, Steal(victim, split, worker, mirror)).st, s.st)
  {
    SoundHandles(s.st);
    SplitRecord(s.st, victim, split, worker, mirror, s.clock);
  }

  /** An attempt whose answer came at once, and which waits for its first byte. */
  const ANSWERED: Attempt := Attempt(Some((0.0, 0)), Some(0.0), 0, None)

  /** Such a state is reached by the first hand-out of a file of eight bytes, once its answer came. */
  lemma ALateSplitExists() returns (given: Sys, batch: seq<Step>, late: Sys)
    ensures Leads(Begin(8, 0, [], DEFAULT_RETRIES, {}, 0.0), [GetWork(0, 0), Tell(0, ANSWERED)], given) && Inv(given)
    ensures HandlesInRange(given.st) && Picks(given, StealRule(1, None), Steal(0, 4, 1, 0))
    ensures batch == [Tell(0, ANSWERED.(received := 8)), ReadEnd(0, 8), WriteOut(0), Publish(0)]
    ensures Leads(given, batch, late) && Inv(late) && TakesBack(late, Steal(0, 4, 1, 0))
  {
    hide Leads, TakesBack, Picks;
    given := OneChunkGiven();
    batch, late := ALateSplitTakesBack(given, StealRule(1, None), Steal(0, 4, 1, 0), 0);
  }

  lemma OneChunkGiven() returns (s: Sys)
    ensures Leads(Begin(8, 0, [], DEFAULT_RETRIES, {}, 0.0), [GetWork(0, 0), Tell(0, ANSWERED)], s) && Inv(s)
    ensures HandlesInRange(s.st) && Picks(s, StealRule(1, None), Steal(0, 4, 1, 0))
    ensures |s.workers| == 1 && Live(s, 0) && s.workers[0].phase.Streaming? && s.workers[0].chunk == 0
    ensures s.workers[0].offsets < |s.st.offsets| && s.st.offsets[s.workers[0].offsets].end == 7
    ensures s.workers[0].attempt < |s.st.attempts| && s.st.attempts[s.workers[0].attempt] == ANSWERED
  {
    hide Inv, Leads, Begin, Start, Apply;
    var s0 := Begin(8, 0, [], DEFAULT_RETRIES, {}, 0.0);
    OneChunkBegin();
    OneChunkSteal(s0.st, StealRule(1, None));
    GetWorkDoes(s0, 0, 0);
    var mid := Apply(s0, GetWork(0, 0));
    NoStepsLead(s0);
    RunGoesOn(s0, [], s0, GetWork(0, 0));
    TellDoes(mid, 0, ANSWERED);
    RunGoesOn(s0, [] + [GetWork(0, 0)], mid, Tell(0, ANSWERED));
    s := Apply(mid, Tell(0, ANSWERED));
    assert [] + [GetWork(0, 0)] + [Tell(0, ANSWERED)] == [GetWork(0, 0), Tell(0, ANSWERED)];
  }

  lemma OneChunkBegin()
    ensures var s := Begin(8, 0, [], DEFAULT_RETRIES, {}, 0.0);
            && s.workers == [] && s.clock == 0.0
            && s.st == State(8, MIN_BASE, [Chunk(0, ByteRange(0, 7), Unassigned, 0, 0, 0, None, None)], 0, 0, [], DEFAULT_RETRIES,
                             None, None, [Offsets(0, 7, false)], [NEW_ATTEMPT])
  {
    OneChunkStart();
  }

  lemma GetWorkDoes(s: Sys, worker: nat, mirror: nat)
    requires Inv(s)
    ensures var s' := Apply(s, GetWork(worker, mirror));
            && HandlesInRange(s'.st) && QueueInRange(s.st)
            && var (st, id) := GetNextWork(s.st, worker, mirror, s.clock);
            && s'.st == st && s'.clock == s.clock
            && (id.Some? ==> id.value < |st.chunks|
                             && s'.workers == s.workers + [Worker(id.value, st.chunks[id.value].offsets,
                                                                  st.chunks[id.value].attempt, OffsetsOf(st, id.value).cur, Streaming)])
  {
    StepKeeps(s, GetWork(worker, mirror));
    SoundHandles(s.st);
    SoundHandles(Apply(s, GetWork(worker, mirror)).st);
    hide Inv, GetNextWork;
  }

  lemma OneChunkStart()
    ensures Start(8, 0, [], DEFAULT_RETRIES)
         == State(8, MIN_BASE, [Chunk(0, ByteRange(0, 7), Unassigned, 0, 0, 0, None, None)], 0, 0, [], DEFAULT_RETRIES,
                  None, None, [Offsets(0, 7, false)], [NEW_ATTEMPT])
  {
    assert DoneRanges(8, []) == [];
    assert Gaps(8, []) == [ByteRange(0, 7)];
    assert Pieces(8, 7, MIN_BASE) == [] && Pieces(0, 7, MIN_BASE) == [ByteRange(0, 7)];
    assert PiecesOf([ByteRange(0, 7)], MIN_BASE) == [ByteRange(0, 7)];
    var slots := Tagged([], true) + Tagged([ByteRange(0, 7)], false);
    assert slots == [Slot(ByteRange(0, 7), false)];
    assert Sort(slots[1..], SlotByStart) == [];
    assert Layout(8, MIN_BASE, []) == slots;
  }

  /** The one chunk in flight is stolen from, once its answer came. */
  lemma OneChunkSteal(st: State, rule: StealRule)
    requires st == State(8, MIN_BASE, [Chunk(0, ByteRange(0, 7), Unassigned, 0, 0, 0, None, None)], 0, 0, [], DEFAULT_RETRIES,
                         None, None, [Offsets(0, 7, false)], [NEW_ATTEMPT])
    requires rule == StealRule(1, None)
    ensures var (given, id) := GetNextWork(st, 0, 0, 0.0);
            && id == Some(0) && |given.chunks| == 1 && given.chunks[0].status.Assigned?
            && given.chunks[0].offsets == 0 && given.chunks[0].attempt == 1 && |given.attempts| == 2
            && given.offsets == [Offsets(0, 7, false)]
            && var st' := given.(attempts := given.attempts[1 := ANSWERED]);
            && HandlesInRange(st')
            && var (stolen, both) := StealWork(st', 1, 0, rule, 0.0);
            && both.Some? && both.value.0 == 0 && |stolen.chunks| == 2 && stolen.chunks[1].range.start == 4
  {
    var given := GetNextWork(st, 0, 0, 0.0).0;
    var st' := given.(attempts := given.attempts[1 := ANSWERED]);
    assert UnreceivedOf(st', 0) == 8;
    assert LastToFinish(st', 0, rule, 0.0) == None;
    assert LastToFinish(st', 1, rule, 0.0) == Some(0);
    assert PaceOf(st', 0, rule, 0.0) == None;
  }
}
