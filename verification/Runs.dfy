/** What holds over whole runs of the scheduler and its workers, however they interleave. */
module Runs {
  import opened Basics
  import opened Ranges
  import opened Sorting
  import opened Chunks
  import opened ChunkInvariants
  import opened Conservation
  import opened Resume
  import opened Protocol
  import opened Safety

  /** A new download, whose resumed ranges are on disk: no worker has a chunk yet. */
  ghost function Begin(total: nat, base: nat, rs: seq<ByteRange>, maxRetries: nat, disk: set<nat>, clock: real): (s: Sys)
    requires AllValid(rs) && forall b: nat | b < total && Covers(rs, b) :: b in disk
    ensures Inv(s)
  {
    BeginsWithInv(total, base, rs, maxRetries, disk, clock);
    Sys(Start(total, base, rs, maxRetries), [], disk, clock)
  }

  lemma BeginsWithInv(total: nat, base: nat, rs: seq<ByteRange>, maxRetries: nat, disk: set<nat>, clock: real)
    requires AllValid(rs) && forall b: nat | b < total && Covers(rs, b) :: b in disk
    ensures Inv(Sys(Start(total, base, rs, maxRetries), [], disk, clock))
  {
    var s := Sys(Start(total, base, rs, maxRetries), [], disk, clock);
    StartIsSound(total, base, rs, maxRetries);
    StartRecord(total, base, rs, maxRetries);
    EndsStartInFile(s.st, total, base, rs, maxRetries);
    assert forall i: nat | i < |s.st.chunks| :: !s.st.chunks[i].status.Assigned?;
  }

  lemma EndsStartInFile(st: State, total: nat, base: nat, rs: seq<ByteRange>, maxRetries: nat)
    requires st == Start(total, base, rs, maxRetries) && Sound(st)
    ensures EndsInFile(st)
  {
    forall h | 0 <= h < |st.offsets|
      ensures st.offsets[h].end < st.total
    {
      assert RangesOf(st)[h] == st.chunks[h].range;
    }
  }

  // ---------------------------------------------------------------- runs

  ghost predicate Legal(s: Sys, steps: seq<Step>)
    requires Inv(s)
    decreases |steps|
  {
    steps == []
    || (Enabled(s, steps[0]) && (StepKeeps(s, steps[0]); Legal(Apply(s, steps[0]), steps[1..])))
  }

  /** The state a legal run ends in. */
  ghost function After(s: Sys, steps: seq<Step>): (s': Sys)
    requires Inv(s) && Legal(s, steps)
    ensures Inv(s')
    decreases |steps|
  {
    if steps == [] then s else
    StepKeeps(s, steps[0]);
    After(Apply(s, steps[0]), steps[1..])
  }

  /** The steps are a legal run from `s`, which ends in `s'`. */
  ghost predicate Leads(s: Sys, steps: seq<Step>, s': Sys)
    requires Inv(s)
  {
    Legal(s, steps) && After(s, steps) == s'
  }

  lemma NoStepsLead(s: Sys)
    requires Inv(s)
    ensures Leads(s, [], s)
  {
  }

  /** A legal run may go on with any step enabled where it ends. */
  lemma {:induction false} RunGoesOn(s: Sys, steps: seq<Step>, mid: Sys, step: Step)
    requires Inv(s) && Inv(mid) && Leads(s, steps, mid) && Enabled(mid, step)
    ensures Leads(s, steps + [step], Apply(mid, step)) && Inv(Apply(mid, step))
    decreases |steps|
  {
    hide Inv, Enabled, Apply;
    StepKeeps(mid, step);
    if steps == [] {
      assert ([step])[1..] == [];
      NoStepsLead(Apply(s, step));
      assert steps + [step] == [step];
      assert Legal(s, [step]) && After(s, [step]) == After(Apply(s, step), []);
    } else {
      StepKeeps(s, steps[0]);
      RunGoesOn(Apply(s, steps[0]), steps[1..], mid, step);
      assert (steps + [step])[0] == steps[0] && (steps + [step])[1..] == steps[1..] + [step];
    }
  }

  /**
   Whatever the interleaving: the chunks tile the file, every byte the manager reports as done is
   on disk, and a manager that is all completed has the whole file on disk.
   */
  lemma EveryRunIsSafe(total: nat, base: nat, rs: seq<ByteRange>, maxRetries: nat, disk: set<nat>, clock: real, steps: seq<Step>)
    requires AllValid(rs) && forall b: nat | b < total && Covers(rs, b) :: b in disk
    requires Legal(Begin(total, base, rs, maxRetries, disk, clock), steps)
    ensures var s := After(Begin(total, base, rs, maxRetries, disk, clock), steps);
            && Tiles(RangesOf(s.st), total)
            && HandlesInRange(s.st)
            && (forall b: nat | Covers(CompletedRanges(s.st), b) :: b in s.disk)
            && (IsAllCompleted(s.st) ==> Span(0, total) <= s.disk)
  {
    var s0 := Begin(total, base, rs, maxRetries, disk, clock);
    var s := After(s0, steps);
    TotalStays(s0, steps);
    CompletedRangesAreTheRecord(s.st);
    if IsAllCompleted(s.st) {
      forall b | b in Span(0, total)
        ensures b in s.disk
      {
        AllCompletedIsRecorded(s.st, b);
      }
    }
  }

  lemma {:induction false} TotalStays(s: Sys, steps: seq<Step>)
    requires Inv(s) && Legal(s, steps)
    ensures After(s, steps).st.total == s.st.total && After(s, steps).st.maxRetries == s.st.maxRetries
    decreases |steps|
  {
    if steps != [] {
      StepKeeps(s, steps[0]);
      TotalStays(Apply(s, steps[0]), steps[1..]);
      StepKeepsTotal(s, steps[0]);
    }
  }

  lemma StepKeepsTotal(s: Sys, step: Step)
    requires Inv(s) && Enabled(s, step)
    ensures Apply(s, step).st.total == s.st.total && Apply(s, step).st.maxRetries == s.st.maxRetries
  {
    if step.GetWork? || step.GetAt? || step.TakeChunk? || step.Steal? {
      HandOutKeepsRest(s, step);
    } else {
      OthersKeepTotal(s, step);
    }
  }

  lemma OthersKeepTotal(s: Sys, step: Step)
    requires Inv(s) && Enabled(s, step) && !(step.GetWork? || step.GetAt? || step.TakeChunk? || step.Steal?)
    ensures Apply(s, step).st.total == s.st.total && Apply(s, step).st.maxRetries == s.st.maxRetries
  {
    hide HandedOut, AfterHandOut, RowsSound, QueueOk, OnDisk, WorkersOk, OneEach, Attended, BackoffDelay, PeerRates, Median;
  }

  lemma AllCompletedIsRecorded(st: State, b: nat)
    requires Sound(st) && HandlesInRange(st) && IsAllCompleted(st) && b < st.total
    ensures Recorded(st, b)
  {
    assert Covers(RangesOf(st), b);
    var r :| r in RangesOf(st) && r.Contains(b);
    var i: nat :| i < |st.chunks| && RangesOf(st)[i] == r;
    FullFlags(CompletedFlags(st), i);
    assert InPrefix(st, i, b);
  }

  lemma {:induction false} FullFlags(flags: seq<nat>, i: nat)
    requires forall k | 0 <= k < |flags| :: flags[k] <= 1
    requires Sum(flags) == |flags| && i < |flags|
    ensures flags[i] == 1
    decreases |flags|
  {
    var n := |flags| - 1;
    AtMostLength(flags[..n]);
    if i < n {
      FullFlags(flags[..n], i);
    }
  }

  lemma {:induction false} AtMostLength(flags: seq<nat>)
    requires forall k | 0 <= k < |flags| :: flags[k] <= 1
    ensures Sum(flags) <= |flags|
    decreases |flags|
  {
    if flags != [] {
      AtMostLength(flags[..|flags| - 1]);
    }
  }

  // ---------------------------------------------------------------- one attempt each

  /**
   Until the download failed, each chunk in flight has exactly one attempt that is neither settled
   nor revoked.
   */
  lemma OneLiveAttemptEach(s: Sys)
    requires Inv(s) && s.st.fatal.None?
    ensures forall i: nat | i < |s.st.chunks| && s.st.chunks[i].status.Assigned? ::
              exists w: nat :: w < |s.workers| && Live(s, w) && s.workers[w].chunk == i
                && forall v: nat | v < |s.workers| && Live(s, v) && s.workers[v].chunk == i :: v == w
  {
    forall i: nat | i < |s.st.chunks| && s.st.chunks[i].status.Assigned?
      ensures exists w: nat :: w < |s.workers| && Live(s, w) && s.workers[w].chunk == i
                && forall v: nat | v < |s.workers| && Live(s, v) && s.workers[v].chunk == i :: v == w
    {
      assert HasWorker(s, i);
      var w: nat :| w < |s.workers| && Live(s, w) && s.workers[w].chunk == i;
      forall v: nat | v < |s.workers| && Live(s, v) && s.workers[v].chunk == i
        ensures v == w
      {
        LiveChunksDiffer(s, v, w);
      }
    }
  }

  /** Whether or not the download failed, no byte is left to fetch to two attempts neither settled nor revoked. */
  lemma LiveBytesAreApart(s: Sys)
    requires Inv(s)
    ensures forall v: nat, w: nat, b: nat | v < |s.workers| && w < |s.workers| && v != w && Live(s, v) && Live(s, w) ::
              !(LeftTo(s, v, b) && LeftTo(s, w, b))
  {
    forall v: nat, w: nat, b: nat | v < |s.workers| && w < |s.workers| && v != w && Live(s, v) && Live(s, w)
      ensures !(LeftTo(s, v, b) && LeftTo(s, w, b))
    {
      LiveChunksDiffer(s, v, w);
      assert WorkerOk(s, v) && WorkerOk(s, w);
      var i, j := s.workers[v].chunk, s.workers[w].chunk;
      assert RowOk(s.st, i) && RowOk(s.st, j);
      assert !RangesOf(s.st)[Min(i, j)].Intersects(RangesOf(s.st)[Max(i, j)]);
    }
  }

  lemma LiveChunksDiffer(s: Sys, v: nat, w: nat)
    requires OneEach(s) && v < |s.workers| && w < |s.workers| && Live(s, v) && Live(s, w)
    ensures v != w ==> s.workers[v].chunk != s.workers[w].chunk
  {
    if v != w {
      assert s.workers[Min(v, w)].chunk != s.workers[Max(v, w)].chunk;
    }
  }

  /** Byte `b` lies between the offset and the end worker `w` goes by. */
  predicate LeftTo(s: Sys, w: nat, b: nat)
    requires w < |s.workers|
  {
    s.workers[w].offsets < |s.st.offsets|
    && s.st.offsets[s.workers[w].offsets].cur <= b <= s.st.offsets[s.workers[w].offsets].end
  }

  // ---------------------------------------------------------------- conservation

  predicate IsManagerStep(step: Step) {
    step.GetWork? || step.GetAt? || step.TakeChunk? || step.Steal? || step.SettleOk? || step.SettleFailed? || step.SettleFatal?
  }

  /**
   No operation of the manager changes what is reported as done: hand-outs, take-overs, failures
   and completions never, and a split exactly when its victim had not written past it.
   */
  lemma ManagerStepConserves(s: Sys, step: Step)
    requires Inv(s) && Enabled(s, step) && IsManagerStep(step)
    ensures Inv(Apply(s, step)) && HandlesInRange(s.st) && HandlesInRange(Apply(s, step).st)
    ensures (step.Steal? ==> OffsetsOf(s.st, step.victim).cur <= step.split) ==>
              && CompletedRanges(Apply(s, step).st) == CompletedRanges(s.st)
              && TotalDownloaded(Apply(s, step).st) == TotalDownloaded(s.st)
    ensures step.Steal? && OffsetsOf(s.st, step.victim).cur > step.split ==>
              CompletedRanges(Apply(s, step).st) != CompletedRanges(s.st)
  {
    StepKeeps(s, step);
    SoundHandles(s.st);
    var st' := Apply(s, step).st;
    SoundHandles(st');
    ManagerStepRecord(s, step);
    StepKeepsTotal(s, step);
    if SameRecord(s.st, st') {
      SameRecordSameReport(s.st, st');
    } else {
      CompletedRangesAreTheRecord(s.st);
      CompletedRangesAreTheRecord(st');
      var b: nat :| !(Recorded(st', b) <==> Recorded(s.st, b));
      assert !(Covers(CompletedRanges(st'), b) <==> Covers(CompletedRanges(s.st), b));
    }
  }

  lemma ManagerStepRecord(s: Sys, step: Step)
    requires Inv(s) && Enabled(s, step) && IsManagerStep(step) && HandlesInRange(s.st)
    ensures SameRecord(s.st, Apply(s, step).st) <==> (step.Steal? ==> OffsetsOf(s.st, step.victim).cur <= step.split)
  {
    match step
    case GetWork(worker, mirror) => GetNextWorkConserves(s.st, worker, mirror, s.clock);
    case GetAt(worker, mirror, start, end) => AssignAtConserves(s.st, worker, mirror, start, end, s.clock);
    case TakeChunk(id, worker, mirror) => TakeOverConserves(s.st, id, worker, mirror, s.clock);
    case Steal(victim, split, worker, mirror) => SplitRecord(s.st, victim, split, worker, mirror, s.clock);
    case SettleOk(w) =>
      assert WorkerOk(s, w);
      if !Revoked(s, w) {
        MarkCompletedConserves(s.st, s.workers[w].chunk);
      }
    case SettleFailed(w, reason, minDelay, counts, fraction) =>
      assert WorkerOk(s, w);
      if !Revoked(s, w) {
        MarkFailedConserves(s.st, s.workers[w].chunk, reason, minDelay, counts, s.clock, fraction);
      }
    case SettleFatal(w, reason) =>
      SamePrefixes(s.st, Abort(s.st, s.workers[w].chunk, reason));
  }

  /** Publishing only adds to what is reported, and bytes of the publishing worker's batch only. */
  lemma PublishOnlyAdds(s: Sys, w: nat)
    requires Inv(s) && Enabled(s, Publish(w))
    ensures HandlesInRange(s.st) && HandlesInRange(Apply(s, Publish(w)).st)
    ensures forall b: nat | Recorded(s.st, b) :: Recorded(Apply(s, Publish(w)).st, b)
    ensures forall b: nat | Recorded(Apply(s, Publish(w)).st, b) && !Recorded(s.st, b) ::
              Live(s, w) && s.workers[w].pos <= b < s.workers[w].phase.to
  {
    assert WorkerOk(s, w);
    SoundHandles(s.st);
    PublishIsSound(s, w);
    var st' := Apply(s, Publish(w)).st;
    SoundHandles(st');
    forall i: nat, b: nat | i < |s.st.chunks|
      ensures InPrefix(s.st, i, b) ==> InPrefix(st', i, b)
      ensures InPrefix(st', i, b) && !InPrefix(s.st, i, b) ==> Live(s, w) && s.workers[w].pos <= b < s.workers[w].phase.to
    {
      if s.st.chunks[i].offsets == s.workers[w].offsets {
        ChunksAtOffsets(s, w, i);
      }
    }
    forall b: nat | Recorded(s.st, b)
      ensures Recorded(st', b)
    {
      var i: nat :| i < |s.st.chunks| && InPrefix(s.st, i, b);
      assert InPrefix(st', i, b);
    }
    forall b: nat | Recorded(st', b) && !Recorded(s.st, b)
      ensures Live(s, w) && s.workers[w].pos <= b < s.workers[w].phase.to
    {
      var i: nat :| i < |st'.chunks| && InPrefix(st', i, b);
      assert !InPrefix(s.st, i, b);
    }
  }
}
