/** What a worker whose chunk was taken over can still change: nothing, but for a disk error. */
module Revocation {
  import opened Basics
  import opened Ranges
  import opened Chunks
  import opened ChunkInvariants
  import opened Conservation
  import opened Protocol
  import opened Safety
  import opened Runs
  import opened Progress
  import opened Stealing

  // ---------------------------------------------------------------- records of one's own

  /** A worker that writes into the record of a chunk in flight goes by that chunk's offsets, too. */
  ghost predicate OwnRecord(s: Sys, w: nat, i: nat)
    requires w < |s.workers| && i < |s.st.chunks|
  {
    s.st.chunks[i].status.Assigned? && s.st.chunks[i].attempt == s.workers[w].attempt
    ==> s.st.chunks[i].offsets == s.workers[w].offsets
  }

  ghost predicate OwnRecords(s: Sys) {
    forall w: nat, i: nat | w < |s.workers| && i < |s.st.chunks| :: OwnRecord(s, w, i)
  }

  /** Chunks in flight besides `but` were in flight before, under the same handles. */
  ghost predicate SameHandles(st: State, st': State, but: nat) {
    forall i: nat | i < |st'.chunks| && i != but && st'.chunks[i].status.Assigned? ::
      && i < |st.chunks| && st.chunks[i].status.Assigned?
      && st'.chunks[i].offsets == st.chunks[i].offsets
      && st'.chunks[i].attempt == st.chunks[i].attempt
  }

  lemma UndisturbedKeepHandles(st: State, st': State, but: nat)
    requires OthersUndisturbed(st, st', but) && NoneStarted(st, st', but)
    ensures SameHandles(st, st', but)
  {
    forall i: nat | i < |st'.chunks| && i != but && st'.chunks[i].status.Assigned?
      ensures i < |st.chunks| && st.chunks[i].status.Assigned?
      ensures st'.chunks[i].offsets == st.chunks[i].offsets && st'.chunks[i].attempt == st.chunks[i].attempt
    {
      assert Undisturbed(st, st', i);
    }
  }

  /** Nothing was handed out, and every worker kept its handles. */
  lemma NoneGivenKeepsOwn(s: Sys, s': Sys, but: nat)
    requires OwnRecords(s) && |s'.workers| == |s.workers|
    requires forall w | 0 <= w < |s.workers| ::
               s'.workers[w].attempt == s.workers[w].attempt && s'.workers[w].offsets == s.workers[w].offsets
    requires SameHandles(s.st, s'.st, but)
    requires but < |s'.st.chunks| ==> !s'.st.chunks[but].status.Assigned?
    ensures OwnRecords(s')
  {
    forall w: nat, i: nat | w < |s'.workers| && i < |s'.st.chunks|
      ensures OwnRecord(s', w, i)
    {
      if i < |s.st.chunks| {
        assert OwnRecord(s, w, i);
      }
    }
  }

  /** A hand-out installs a record that no worker has had. */
  lemma HandOutKeepsOwn(s: Sys, st': State, id: nat)
    requires Inv(s) && OwnRecords(s) && HandlesInRange(s.st) && HandlesInRange(st')
    requires SameHandles(s.st, st', id)
    requires id < |st'.chunks| && st'.chunks[id].attempt >= |s.st.attempts|
    ensures OwnRecords(HandOut(s, st', Some(id)))
  {
    var s' := HandOut(s, st', Some(id));
    forall w: nat, i: nat | w < |s'.workers| && i < |s'.st.chunks|
      ensures OwnRecord(s', w, i)
    {
      if w < |s.workers| {
        assert WorkerOk(s, w);
        if i < |s.st.chunks| {
          assert OwnRecord(s, w, i);
        }
      }
    }
  }

  lemma NextGetsNewRecord(st: State, worker: nat, mirror: nat, now: real)
    requires QueueInRange(st)
    ensures var (st', id) := GetNextWork(st, worker, mirror, now);
            && |st'.chunks| == |st.chunks|
            && (id.Some? ==> id.value < |st.chunks| && st'.chunks[id.value].attempt == |st.attempts|)
  {
  }

  lemma GetWorkKeepsOwn(s: Sys, worker: nat, mirror: nat)
    requires Inv(s) && OwnRecords(s) && Inv(Apply(s, GetWork(worker, mirror)))
    ensures OwnRecords(Apply(s, GetWork(worker, mirror)))
  {
    hide OthersUndisturbed, NoneStarted, OnDisk, OneEach, Attended, OwnRecords, WorkersOk, GetNextWork, SameHandles;
    SoundHandles(s.st);
    GetNextLeavesOthers(s.st, worker, mirror, s.clock);
    NextGetsNewRecord(s.st, worker, mirror, s.clock);
    var (st, id) := GetNextWork(s.st, worker, mirror, s.clock);
    SoundHandles(st);
    match id {
      case Some(i) =>
        UndisturbedKeepHandles(s.st, st, i);
        HandOutKeepsOwn(s, st, i);
      case None =>
        UndisturbedKeepHandles(s.st, st, |s.st.chunks|);
        NoneGivenKeepsOwn(s, s.(st := st), |s.st.chunks|);
    }
  }

  lemma GetAtKeepsOwn(s: Sys, worker: nat, mirror: nat, start: nat, end: nat)
    requires Inv(s) && OwnRecords(s) && Inv(Apply(s, GetAt(worker, mirror, start, end)))
    ensures OwnRecords(Apply(s, GetAt(worker, mirror, start, end)))
  {
    SoundHandles(s.st);
    var (st, id) := AssignAt(s.st, worker, mirror, start, end, s.clock);
    SoundHandles(st);
    match id {
      case Some(i) =>
        var cut := s.st;
        if s.st.chunks[i].range.end > end {
          TruncateLeavesOthers(s.st, i, end);
          cut := Push(Truncate(s.st, i, end), ByteRange(end + 1, s.st.chunks[i].range.end), Unassigned);
        } else {
          NothingChanged(s.st);
        }
        assert st == Assign(cut, i, worker, mirror, s.clock);
        AssignLeavesOthers(s.st, cut, i, worker, mirror, s.clock);
        UndisturbedKeepHandles(s.st, st, i);
        HandOutKeepsOwn(s, st, i);
      case None =>
    }
  }

  lemma StealKeepsOwn(s: Sys, victim: nat, split: nat, worker: nat, mirror: nat)
    requires Inv(s) && OwnRecords(s) && Enabled(s, Steal(victim, split, worker, mirror))
    requires Inv(Apply(s, Steal(victim, split, worker, mirror)))
    ensures OwnRecords(Apply(s, Steal(victim, split, worker, mirror)))
  {
    SoundHandles(s.st);
    SplitLeavesOthers(s.st, victim, split, worker, mirror, s.clock);
    var st := SplitForThief(s.st, victim, split, worker, mirror, s.clock);
    SoundHandles(st);
    UndisturbedKeepHandles(s.st, st, |s.st.chunks|);
    HandOutKeepsOwn(s, st, |s.st.chunks|);
  }

  lemma TakeChunkKeepsOwn(s: Sys, id: nat, worker: nat, mirror: nat)
    requires Inv(s) && OwnRecords(s) && Enabled(s, TakeChunk(id, worker, mirror))
    requires Inv(Apply(s, TakeChunk(id, worker, mirror)))
    ensures OwnRecords(Apply(s, TakeChunk(id, worker, mirror)))
  {
    hide OthersUndisturbed, NoneStarted, OnDisk, OneEach, Attended, OwnRecords, WorkersOk;
    SoundHandles(s.st);
    TakeOverLeavesOthers(s.st, id, worker, mirror, s.clock);
    var (st, given) := TakeOver(s.st, id, worker, mirror, s.clock);
    SoundHandles(st);
    UndisturbedKeepHandles(s.st, st, id);
    match given {
      case Some(i) => HandOutKeepsOwn(s, st, id);
      case None => NoneGivenKeepsOwn(s, s.(st := st), id);
    }
  }

  lemma SettleKeepsOwn(s: Sys, step: Step)
    requires Inv(s) && OwnRecords(s) && Enabled(s, step) && (step.SettleOk? || step.SettleFailed? || step.SettleFatal?)
    ensures OwnRecords(Apply(s, step))
  {
    hide MarkFailed, OthersUndisturbed, NoneStarted, OnDisk, OneEach, Attended, OwnRecords, RowsSound, QueueOk;
    var s' := Apply(s, step);
    WorkerIsOk(s, step.w);
    var id := s.workers[step.w].chunk;
    if step.SettleFailed? && Live(s, step.w) {
      MarkFailedLeavesOthers(s, id, step.reason, step.minDelay, step.counts, step.fraction);
      UndisturbedKeepHandles(s.st, s'.st, id);
      NoneGivenKeepsOwn(s, s', id);
    } else {
      NoneGivenKeepsOwn(s, s', |s'.st.chunks|);
    }
  }

  /** Steps that change no row of the manager and no worker's handles. */
  lemma OtherStepKeepsOwn(s: Sys, step: Step)
    requires Inv(s) && OwnRecords(s) && Enabled(s, step)
    requires step.Tick? || step.ReadEnd? || step.WriteOut? || step.Publish? || step.Tell? || step.Ask? || step.Finish?
    ensures OwnRecords(Apply(s, step))
  {
    hide RowsSound, QueueOk, OnDisk, OneEach, Attended, OwnRecords, PeerRates, Median;
    NoneGivenKeepsOwn(s, Apply(s, step), |s.st.chunks|);
  }

  lemma StepKeepsOwn(s: Sys, step: Step)
    requires Inv(s) && OwnRecords(s) && Enabled(s, step)
    ensures Inv(Apply(s, step)) && OwnRecords(Apply(s, step))
  {
    StepKeeps(s, step);
    hide Apply, Enabled, Inv, OwnRecords;
    match step
    case GetWork(worker, mirror) => GetWorkKeepsOwn(s, worker, mirror);
    case GetAt(worker, mirror, start, end) => GetAtKeepsOwn(s, worker, mirror, start, end);
    case TakeChunk(id, worker, mirror) => TakeChunkKeepsOwn(s, id, worker, mirror);
    case Steal(victim, split, worker, mirror) => StealKeepsOwn(s, victim, split, worker, mirror);
    case SettleOk(_) => SettleKeepsOwn(s, step);
    case SettleFailed(_, _, _, _, _) => SettleKeepsOwn(s, step);
    case SettleFatal(_, _) => SettleKeepsOwn(s, step);
    case _ => OtherStepKeepsOwn(s, step);
  }

  /** Over every run, from a start without workers on. */
  lemma {:induction false} RunKeepsOwn(s: Sys, steps: seq<Step>)
    requires Inv(s) && OwnRecords(s) && Legal(s, steps)
    ensures OwnRecords(After(s, steps))
    decreases |steps|
  {
    if steps != [] {
      StepKeepsOwn(s, steps[0]);
      RunKeepsOwn(Apply(s, steps[0]), steps[1..]);
    }
  }

  // ---------------------------------------------------------------- harmless

  /** The worker a step is of; none for the passing of time and the manager's hand-outs. */
  function Actor(step: Step): Option<nat> {
    match step
    case Tick(_) => None
    case GetWork(_, _) => None
    case GetAt(_, _, _, _) => None
    case TakeChunk(_, _, _) => None
    case Steal(_, _, _, _) => None
    case ReadEnd(w, _) => Some(w)
    case WriteOut(w) => Some(w)
    case Publish(w) => Some(w)
    case Tell(w, _) => Some(w)
    case Ask(w, _, _, _) => Some(w)
    case Finish(w) => Some(w)
    case SettleOk(w) => Some(w)
    case SettleFailed(w, _, _, _, _) => Some(w)
    case SettleFatal(w, _) => Some(w)
  }

  /**
   What the manager reports and hands out by is the same: its chunks, counters, queue and failure,
   what is left of each chunk, and what is known of each attempt in flight.
   */
  ghost predicate SameManager(st: State, st': State) {
    && st' == st.(offsets := st'.offsets, attempts := st'.attempts, replacedAt := st'.replacedAt)
    && HandlesInRange(st) && HandlesInRange(st')
    && (forall i | 0 <= i < |st.chunks| && !st.chunks[i].status.Completed? :: OffsetsOf(st', i) == OffsetsOf(st, i))
    && (forall i | 0 <= i < |st.chunks| && st.chunks[i].status.Assigned? :: AttemptOf(st', i) == AttemptOf(st, i))
    && CompletedRanges(st') == CompletedRanges(st)
    && TotalDownloaded(st') == TotalDownloaded(st)
  }

  /** Chunks that go by a revoked worker's offsets are completed, and reported whole. */
  lemma PublishSameRecord(s: Sys, w: nat, i: nat)
    requires Inv(s) && Enabled(s, Publish(w)) && !Live(s, w) && i < |s.st.chunks|
    requires HandlesInRange(s.st) && HandlesInRange(Apply(s, Publish(w)).st)
    ensures !s.st.chunks[i].status.Completed? ==> OffsetsOf(Apply(s, Publish(w)).st, i) == OffsetsOf(s.st, i)
    ensures forall b: nat :: InPrefix(Apply(s, Publish(w)).st, i, b) <==> InPrefix(s.st, i, b)
  {
    WorkerIsOk(s, w);
    if s.st.chunks[i].offsets == s.workers[w].offsets {
      ChunksAtOffsets(s, w, i);
    }
    hide Inv, HandlesInRange, Live;
  }

  lemma PublishIsHarmless(s: Sys, w: nat)
    requires Inv(s) && Enabled(s, Publish(w)) && !Live(s, w)
    ensures SameManager(s.st, Apply(s, Publish(w)).st)
  {
    hide OneEach, Attended, OnDisk, EndsInFile, QueueOk, CompletedRanges, TotalDownloaded, InPrefix;
    WorkerIsOk(s, w);
    SoundHandles(s.st);
    PublishIsSound(s, w);
    var st' := Apply(s, Publish(w)).st;
    SoundHandles(st');
    forall i: nat | i < |s.st.chunks|
      ensures !s.st.chunks[i].status.Completed? ==> OffsetsOf(st', i) == OffsetsOf(s.st, i)
    {
      PublishSameRecord(s, w, i);
    }
    forall i: nat, b: nat | i < |s.st.chunks|
      ensures InPrefix(st', i, b) <==> InPrefix(s.st, i, b)
    {
      PublishSameRecord(s, w, i);
    }
    SamePrefixes(s.st, st');
    SameRecordSameReport(s.st, st');
  }

  lemma RecordsAloneReport(st: State, st': State)
    requires Sound(st) && Sound(st') && HandlesInRange(st) && HandlesInRange(st')
    requires st' == st.(attempts := st'.attempts, replacedAt := st'.replacedAt)
    ensures CompletedRanges(st') == CompletedRanges(st) && TotalDownloaded(st') == TotalDownloaded(st)
  {
    SamePrefixes(st, st');
    SameRecordSameReport(st, st');
  }

  /** The record a revoked worker writes into is no longer that of a chunk in flight. */
  lemma TellIsHarmless(s: Sys, w: nat, told: Attempt)
    requires Inv(s) && OwnRecords(s) && Enabled(s, Tell(w, told)) && !Live(s, w)
    ensures SameManager(s.st, Apply(s, Tell(w, told)).st)
  {
    hide OneEach, Attended, OnDisk, EndsInFile, QueueOk, CompletedRanges, TotalDownloaded;
    WorkerIsOk(s, w);
    SoundHandles(s.st);
    TellKeeps(s, w, told);
    var st' := Apply(s, Tell(w, told)).st;
    SoundHandles(st');
    RecordsAloneReport(s.st, st');
    forall i: nat | i < |s.st.chunks| && s.st.chunks[i].status.Assigned?
      ensures AttemptOf(st', i) == AttemptOf(s.st, i)
    {
      assert OwnRecord(s, w, i);
      if s.st.chunks[i].offsets == s.workers[w].offsets {
        ChunksAtOffsets(s, w, i);
      }
    }
  }

  lemma AskIsHarmless(s: Sys, w: nat, mirror: nat, rate: real, now: real)
    requires Inv(s) && Enabled(s, Ask(w, mirror, rate, now))
    ensures SameManager(s.st, Apply(s, Ask(w, mirror, rate, now)).st)
  {
    SoundHandles(s.st);
    var st' := Apply(s, Ask(w, mirror, rate, now)).st;
    AskKeeps(s, w, mirror, rate, now);
    SoundHandles(st');
    RecordsAloneReport(s.st, st');
    hide Inv, CompletedRanges, TotalDownloaded, PeerRates, Median;
  }

  lemma SameAsBefore(s: Sys)
    requires Inv(s)
    ensures SameManager(s.st, s.st)
  {
    SoundHandles(s.st);
  }

  /** Reading, writing and leaving do nothing to the manager. */
  lemma QuietStep(s: Sys, step: Step)
    requires Inv(s) && Enabled(s, step) && Actor(step).Some?
    requires Actor(step).value < |s.workers| && !Live(s, Actor(step).value)
    requires !step.Publish? && !step.Tell? && !step.Ask? && !step.SettleFatal?
    ensures Apply(s, step).st == s.st && SameManager(s.st, s.st)
  {
    SameAsBefore(s);
    WorkerIsOk(s, Actor(step).value);
    hide SameManager, Sound, OnDisk, OneEach, Attended;
  }

  lemma FatalIsAll(s: Sys, w: nat, reason: string)
    requires Inv(s) && Enabled(s, SettleFatal(w, reason))
    ensures SameManager(s.st, Apply(s, SettleFatal(w, reason)).st) <==> s.st.fatal.Some?
    ensures Apply(s, SettleFatal(w, reason)).st
         == if s.st.fatal.None? then s.st.(fatal := Some((s.workers[w].chunk, reason))) else s.st
  {
    SameAsBefore(s);
    hide Inv;
  }

  /**
   A step of a worker that is revoked leaves the manager as it was, except for the first disk error
   of a download, which ends it. Asking to replace its connection may moreover count as the
   replacement of this window.
   */
  lemma RevokedStep(s: Sys, step: Step)
    requires Inv(s) && OwnRecords(s) && Enabled(s, step) && Actor(step).Some?
    requires Actor(step).value < |s.workers| && !Live(s, Actor(step).value)
    ensures SameManager(s.st, Apply(s, step).st) <==> !(step.SettleFatal? && s.st.fatal.None?)
    ensures step.SettleFatal? && s.st.fatal.None? ==>
              Apply(s, step).st == s.st.(fatal := Some((s.workers[step.w].chunk, step.reason)))
    ensures !step.Ask? ==> Apply(s, step).st.replacedAt == s.st.replacedAt
  {
    hide SameManager, Inv, OwnRecords, Live;
    match step {
      case Publish(w) => PublishIsHarmless(s, w);
      case Tell(w, told) => TellIsHarmless(s, w, told);
      case Ask(w, mirror, rate, now) => AskIsHarmless(s, w, mirror, rate, now);
      case SettleFatal(w, reason) => FatalIsAll(s, w, reason);
      case _ => QuietStep(s, step);
    }
  }

  /** So it is in every run of every download. */
  lemma RevokedIsHarmless(total: nat, base: nat, rs: seq<ByteRange>, maxRetries: nat, disk: set<nat>, clock: real,
                          steps: seq<Step>, step: Step)
    requires AllValid(rs) && forall b: nat | b < total && Covers(rs, b) :: b in disk
    requires Legal(Begin(total, base, rs, maxRetries, disk, clock), steps)
    requires var s := After(Begin(total, base, rs, maxRetries, disk, clock), steps);
             && Enabled(s, step) && Actor(step).Some?
             && Actor(step).value < |s.workers| && !Live(s, Actor(step).value)
    ensures var s := After(Begin(total, base, rs, maxRetries, disk, clock), steps);
            && (SameManager(s.st, Apply(s, step).st) <==> !(step.SettleFatal? && s.st.fatal.None?))
            && (step.SettleFatal? && s.st.fatal.None? ==>
                  Apply(s, step).st == s.st.(fatal := Some((s.workers[step.w].chunk, step.reason))))
            && (!step.Ask? ==> Apply(s, step).st.replacedAt == s.st.replacedAt)
  {
    var s0 := Begin(total, base, rs, maxRetries, disk, clock);
    assert OwnRecords(s0);
    RunKeepsOwn(s0, steps);
    RevokedStep(After(s0, steps), step);
  }

  /** A worker that has its answer and its first byte, at `pos`, and has waited for more since. */
  function Waiting(since: real, pos: nat): Attempt {
    Attempt(Some((since, pos)), Some(since), pos + 1, None)
  }

  /**
   Every download with something left to fetch has a run in which a worker that no longer owns its
   chunk ends it. It is handed a chunk and gets an answer, and then waits for as long as `minSilence`
   asks, so that a take-over picks it. The worker turns to writing what it has; the chunk
   is taken over; and the write fails.
   */
  lemma ARevokedWorkerCanEndIt(total: nat, base: nat, rs: seq<ByteRange>, maxRetries: nat, disk: set<nat>, clock: real,
                               minSilence: nat -> real, reason: string)
    returns (i: nat, pos: nat, now: real, picking: Sys, s: Sys)
    requires AllValid(rs) && forall b: nat | b < total && Covers(rs, b) :: b in disk
    requires !IsAllCompleted(Start(total, base, rs, maxRetries))
    ensures Leads(Begin(total, base, rs, maxRetries, disk, clock),
                  [GetWork(0, 0), Tell(0, Waiting(clock, pos)), Tick(now)], picking)
    ensures Inv(picking) && HandlesInRange(picking.st)
    ensures TakeOverSilent(picking.st, 1, 0, minSilence, picking.clock).1 == Some(i)
    ensures Leads(picking, [Tell(0, Waiting(clock, pos).(waiting := None)), ReadEnd(0, pos + 1), TakeChunk(i, 1, 0)], s)
    ensures Inv(s) && |s.workers| > 0 && !Live(s, 0) && Enabled(s, SettleFatal(0, reason))
    ensures s.st.fatal.None? && Apply(s, SettleFatal(0, reason)).st.fatal.Some?
  {
    i, pos, now, picking, s := EndedByRevoked(Begin(total, base, rs, maxRetries, disk, clock), minSilence, reason);
  }

  lemma EndedByRevoked(s: Sys, minSilence: nat -> real, reason: string)
    returns (i: nat, pos: nat, now: real, picking: Sys, s': Sys)
    requires Inv(s) && s.workers == [] && s.st.fatal.None? && !IsAllCompleted(s.st)
    requires forall i: nat | i < |s.st.chunks| :: !s.st.chunks[i].status.Assigned? && !s.st.chunks[i].status.Failed?
    ensures Leads(s, [GetWork(0, 0), Tell(0, Waiting(s.clock, pos)), Tick(now)], picking)
    ensures Inv(picking) && HandlesInRange(picking.st)
    ensures TakeOverSilent(picking.st, 1, 0, minSilence, picking.clock).1 == Some(i)
    ensures Leads(picking, [Tell(0, Waiting(s.clock, pos).(waiting := None)), ReadEnd(0, pos + 1), TakeChunk(i, 1, 0)], s')
    ensures Inv(s') && |s'.workers| > 0 && !Live(s', 0) && Enabled(s', SettleFatal(0, reason))
    ensures s'.st.fatal.None? && Apply(s', SettleFatal(0, reason)).st.fatal.Some?
  {
    hide Inv, Apply, Live, Leads, IsAllCompleted, TakeOverSilent, HandlesInRange;
    i := FirstHandOut(s);
    NoStepsLead(s);
    RunGoesOn(s, [], s, GetWork(0, 0));
    var given := Apply(s, GetWork(0, 0));
    pos := given.workers[0].pos;
    now := s.clock + MaxReal(minSilence(0), 0.0);
    picking := FallsSilent(s, given, pos, now);
    StillOnlyInFlight(given, picking, i, pos);
    PickedOnceSilent(picking, i, s.clock, pos, minSilence);
    s' := TakenWhileWriting(picking, i, pos, Waiting(s.clock, pos).(waiting := None), reason);
    FatalIsAll(s', 0, reason);
  }

  /** One chunk is in flight, with all of it to write, and with worker 0, which streams. */
  ghost predicate OnlyInFlight(s: Sys, i: nat, pos: nat) {
    && s.st.fatal.None? && HandlesInRange(s.st) && i < |s.st.chunks|
    && s.st.chunks[i].status == Assigned(0, 0) && s.st.chunks[i].range.start == pos <= OffsetsOf(s.st, i).end
    && OffsetsOf(s.st, i).cur == pos && !OffsetsOf(s.st, i).revoked
    && (forall j: nat | j < |s.st.chunks| && j != i :: !s.st.chunks[j].status.Assigned?)
    && s.workers == [Worker(i, s.st.chunks[i].offsets, s.st.chunks[i].attempt, pos, Streaming)]
  }

  lemma StillOnlyInFlight(s: Sys, s': Sys, i: nat, pos: nat)
    requires OnlyInFlight(s, i, pos) && s'.workers == s.workers
    requires s'.st == s.st.(attempts := s'.st.attempts) && |s'.st.attempts| == |s.st.attempts|
    ensures OnlyInFlight(s', i, pos) && s.st.chunks[i].attempt == s.workers[0].attempt
  {
  }

  lemma FirstHandOut(s: Sys) returns (i: nat)
    requires Inv(s) && s.workers == [] && s.st.fatal.None? && !IsAllCompleted(s.st)
    requires forall i: nat | i < |s.st.chunks| :: !s.st.chunks[i].status.Assigned? && !s.st.chunks[i].status.Failed?
    ensures Enabled(s, GetWork(0, 0)) && Inv(Apply(s, GetWork(0, 0)))
    ensures var s' := Apply(s, GetWork(0, 0));
            s'.clock == s.clock && |s'.workers| == 1 && OnlyInFlight(s', i, s'.workers[0].pos)
  {
    var open := SomeChunkIsOpen(s.st);
    SoundHandles(s.st);
    WorkIsFound(s.st, open, s.clock);
    StepKeeps(s, GetWork(0, 0));
    GetWorkDoes(s, 0, 0);
    i := GetNextWork(s.st, 0, 0, s.clock).1.value;
    FreshRow(s, i);
    HandedOutRow(s.st, s.clock, i);
    hide Inv, Apply, GetNextWork, IsAllCompleted;
  }

  lemma FreshRow(s: Sys, i: nat)
    requires Inv(s) && HandlesInRange(s.st) && i < |s.st.chunks| && s.st.chunks[i].status.Unassigned?
    ensures var (c, o) := (s.st.chunks[i], OffsetsOf(s.st, i));
            o.cur == c.range.start <= o.end && !o.revoked
  {
    assert RowOk(s.st, i) && RangesOf(s.st)[i] == s.st.chunks[i].range;
  }

  lemma HandedOutRow(st: State, now: real, i: nat)
    requires HandlesInRange(st) && QueueInRange(st) && GetNextWork(st, 0, 0, now).1 == Some(i)
    requires forall j: nat | j < |st.chunks| :: !st.chunks[j].status.Assigned? && !st.chunks[j].status.Failed?
    requires forall k | 0 <= k < |st.retryQueue| :: st.chunks[st.retryQueue[k]].status.Failed?
    ensures var st' := GetNextWork(st, 0, 0, now).0;
            && i < |st.chunks| == |st'.chunks| && st.chunks[i].status.Unassigned? && HandlesInRange(st')
            && st'.fatal == st.fatal && st'.chunks[i].status == Assigned(0, 0) && st'.chunks[i].range == st.chunks[i].range
            && OffsetsOf(st', i) == OffsetsOf(st, i)
            && forall j: nat | j < |st.chunks| && j != i :: !st'.chunks[j].status.Assigned?
  {
  }

  /** The answer comes, a byte arrives, and then nothing until `now`. */
  lemma FallsSilent(s: Sys, given: Sys, pos: nat, now: real) returns (picking: Sys)
    requires Inv(s) && Inv(given) && Leads(s, [] + [GetWork(0, 0)], given)
    requires given.clock <= now && |given.workers| == 1 && given.workers[0].phase.Streaming?
    ensures Inv(picking) && Leads(s, [GetWork(0, 0), Tell(0, Waiting(given.clock, pos)), Tick(now)], picking)
    ensures given.workers[0].attempt < |given.st.attempts|
    ensures picking == given.(st := given.st.(attempts := given.st.attempts[given.workers[0].attempt := Waiting(given.clock, pos)]),
                              clock := now)
  {
    hide Inv, Apply, Leads;
    var told := Waiting(given.clock, pos);
    TellDoes(given, 0, told);
    RunGoesOn(s, [] + [GetWork(0, 0)], given, Tell(0, told));
    var silent := Apply(given, Tell(0, told));
    RunGoesOn(s, [] + [GetWork(0, 0)] + [Tell(0, told)], silent, Tick(now));
    TickDoes(silent, now);
    picking := Apply(silent, Tick(now));
    assert [] + [GetWork(0, 0)] + [Tell(0, told)] + [Tick(now)] == [GetWork(0, 0), Tell(0, told), Tick(now)];
  }

  lemma TickDoes(s: Sys, now: real)
    requires Inv(s) && Enabled(s, Tick(now))
    ensures Apply(s, Tick(now)) == s.(clock := now)
  {
  }

  lemma PickedOnceSilent(s: Sys, i: nat, since: real, pos: nat, minSilence: nat -> real)
    requires OnlyInFlight(s, i, pos) && AttemptOf(s.st, i) == Waiting(since, pos)
    requires s.clock == since + MaxReal(minSilence(0), 0.0)
    ensures TakeOverSilent(s.st, 1, 0, minSilence, s.clock).1 == Some(i)
  {
    assert Takeable(s.st, i, s.clock, minSilence);
    LongestIsLongest(s.st, |s.st.chunks|, s.clock, minSilence);
  }

  /** The worker turns to the byte it has, and meanwhile its chunk is taken over. */
  lemma TakenWhileWriting(s: Sys, i: nat, pos: nat, busy: Attempt, reason: string) returns (s': Sys)
    requires Inv(s) && OnlyInFlight(s, i, pos)
    ensures Inv(s') && Leads(s, [Tell(0, busy), ReadEnd(0, pos + 1), TakeChunk(i, 1, 0)], s')
    ensures |s'.workers| > 0 && !Live(s', 0) && Enabled(s', SettleFatal(0, reason)) && s'.st.fatal.None?
  {
    hide Inv, Apply, Leads, Live;
    TellDoes(s, 0, busy);
    NoStepsLead(s);
    RunGoesOn(s, [], s, Tell(0, busy));
    var s1 := Apply(s, Tell(0, busy));
    StillOnlyInFlight(s, s1, i, pos);
    ReadEndDoes(s1, 0, pos + 1);
    RunGoesOn(s, [] + [Tell(0, busy)], s1, ReadEnd(0, pos + 1));
    var s2 := Apply(s1, ReadEnd(0, pos + 1));
    TakenFromItsWorker(s2, i, reason);
    RunGoesOn(s, [] + [Tell(0, busy)] + [ReadEnd(0, pos + 1)], s2, TakeChunk(i, 1, 0));
    s' := Apply(s2, TakeChunk(i, 1, 0));
    assert [] + [Tell(0, busy)] + [ReadEnd(0, pos + 1)] + [TakeChunk(i, 1, 0)]
        == [Tell(0, busy), ReadEnd(0, pos + 1), TakeChunk(i, 1, 0)];
  }

  lemma TakenFromItsWorker(s: Sys, i: nat, reason: string)
    requires Inv(s) && s.st.fatal.None? && i < |s.st.chunks| && s.st.chunks[i].status.Assigned?
    requires |s.workers| == 1 && !s.workers[0].phase.Settled? && s.workers[0].chunk == i
    ensures Enabled(s, TakeChunk(i, 1, 0)) && Inv(Apply(s, TakeChunk(i, 1, 0)))
    ensures var s' := Apply(s, TakeChunk(i, 1, 0));
            |s'.workers| > 0 && !Live(s', 0) && Enabled(s', SettleFatal(0, reason)) && s'.st.fatal.None?
  {
    StepKeeps(s, TakeChunk(i, 1, 0));
    SoundHandles(s.st);
    TakeOverGrows(s.st, i, 1, 0, s.clock);
    assert HasWorker(s, i);
    assert WorkerOk(s, 0);
  }
}
