/**
 The scheduler with its workers, freely interleaved. Manager operations are single steps, as they
 run under a lock; a worker reads its end, writes, and publishes its offset in steps of their own
 (crates/hyperfetch-core/src/worker.rs, `flush` and `settle`), so it may act on an end a thief has
 lowered since. What a steal or a take-over read while picking may be out of date by the time it
 acts, so their steps allow any in-flight chunk and any split of it: more than either ever does.
 */
module Protocol {
  import opened Basics
  import opened Chunks
  import opened ChunkInvariants
  import opened Conservation

  /** Where a worker is in its batch: nothing under way, writing up to `to`, that write on disk. */
  datatype Phase = Streaming | Writing(to: nat) | Wrote(to: nat) | Finished | Settled

  /** An attempt at a chunk: the handles it was given, and the next byte it will write. */
  datatype Worker = Worker(chunk: nat, offsets: nat, attempt: nat, pos: nat, phase: Phase)

  /** `disk` is the set of bytes of the file that are on disk and right. */
  datatype Sys = Sys(st: State, workers: seq<Worker>, disk: set<nat>, clock: real)

  /**
   A worker may at any time tell how its attempt goes, and ask whether to go on over a new
   connection; `now` is when it asked, which may be a moment ago.
   */
  datatype Step =
    | Tick(now: real)
    | GetWork(worker: nat, mirror: nat)
    | GetAt(worker: nat, mirror: nat, start: nat, end: nat)
    | TakeChunk(id: nat, worker: nat, mirror: nat)
    | Steal(victim: nat, split: nat, worker: nat, mirror: nat)
    | ReadEnd(w: nat, to: nat)
    | WriteOut(w: nat)
    | Publish(w: nat)
    | Tell(w: nat, told: Attempt)
    | Ask(w: nat, mirror: nat, rate: real, now: real)
    | Finish(w: nat)
    | SettleOk(w: nat)
    | SettleFailed(w: nat, reason: string, minDelay: real, counts: bool, fraction: real)
    | SettleFatal(w: nat, reason: string)

  // ---------------------------------------------------------------- what is kept

  /** Worker `w` has yet to settle and its attempt was not revoked. */
  predicate Live(s: Sys, w: nat)
    requires w < |s.workers|
  {
    && !s.workers[w].phase.Settled?
    && s.workers[w].offsets < |s.st.offsets|
    && !s.st.offsets[s.workers[w].offsets].revoked
  }

  /** What a live worker holds is what its chunk has, and only it moves the offset. */
  ghost predicate Holds(s: Sys, w: nat)
    requires w < |s.workers| && s.workers[w].offsets < |s.st.offsets|
  {
    var h := s.workers[w];
    && h.chunk < |s.st.chunks|
    && s.st.chunks[h.chunk].status.Assigned?
    && s.st.chunks[h.chunk].offsets == h.offsets
    && s.st.chunks[h.chunk].attempt == h.attempt
    && s.st.offsets[h.offsets].cur == h.pos
    && (h.phase.Finished? ==> s.st.offsets[h.offsets].end < h.pos)
  }

  ghost predicate WorkerOk(s: Sys, w: nat)
    requires w < |s.workers|
  {
    var h := s.workers[w];
    && h.offsets < |s.st.offsets| && h.attempt < |s.st.attempts|
    && (h.phase.Writing? || h.phase.Wrote? ==> h.pos < h.phase.to <= s.st.total)
    && (h.phase.Wrote? ==> forall b: nat | h.pos <= b < h.phase.to :: b in s.disk)
    && (Live(s, w) ==> Holds(s, w))
  }

  ghost predicate WorkersOk(s: Sys) {
    forall w: nat | w < |s.workers| :: WorkerOk(s, w)
  }

  /** No two live workers have the same chunk. */
  ghost predicate OneEach(s: Sys) {
    forall v: nat, w: nat | v < w < |s.workers| && Live(s, v) && Live(s, w) :: s.workers[v].chunk != s.workers[w].chunk
  }

  ghost predicate HasWorker(s: Sys, i: nat) {
    exists w: nat :: w < |s.workers| && Live(s, w) && s.workers[w].chunk == i
  }

  /** Until the download failed, every chunk in flight has a live worker. */
  ghost predicate Attended(s: Sys) {
    s.st.fatal.None? ==> forall i: nat | i < |s.st.chunks| && s.st.chunks[i].status.Assigned? :: HasWorker(s, i)
  }

  /** Every byte the manager reports as done is on disk. */
  ghost predicate OnDisk(s: Sys) {
    HandlesInRange(s.st) && forall b: nat | Recorded(s.st, b) :: b in s.disk
  }

  ghost predicate EndsInFile(st: State) {
    forall h | 0 <= h < |st.offsets| :: st.offsets[h].end < st.total
  }

  ghost predicate Inv(s: Sys) {
    && Sound(s.st)
    && OnDisk(s)
    && EndsInFile(s.st)
    && WorkersOk(s)
    && OneEach(s)
    && Attended(s)
  }

  // ---------------------------------------------------------------- steps

  ghost predicate Enabled(s: Sys, step: Step) {
    match step
    case Tick(now) => now >= s.clock
    case GetWork(_, _) => true
    case GetAt(_, _, _, _) => true
    case TakeChunk(id, _, _) => s.st.fatal.None? && id < |s.st.chunks| && s.st.chunks[id].status.Assigned?
    case Steal(victim, split, _, _) =>
      && s.st.fatal.None? && victim < |s.st.chunks| && s.st.chunks[victim].status.Assigned?
      && s.st.chunks[victim].range.start < split <= s.st.chunks[victim].range.end
    case ReadEnd(w, to) =>
      && InPhase(s, w, Streaming) && s.workers[w].pos < to <= s.st.offsets[s.workers[w].offsets].end + 1
    case WriteOut(w) => w < |s.workers| && s.workers[w].phase.Writing?
    case Publish(w) => w < |s.workers| && s.workers[w].phase.Wrote?
    case Tell(w, _) => w < |s.workers| && !s.workers[w].phase.Settled?
    case Ask(w, _, _, now) => w < |s.workers| && !s.workers[w].phase.Settled? && now <= s.clock
    case Finish(w) => InPhase(s, w, Streaming) && s.st.offsets[s.workers[w].offsets].end < s.workers[w].pos
    case SettleOk(w) => InPhase(s, w, Finished)
    case SettleFailed(w, _, _, _, _) => InPhase(s, w, Streaming)
    case SettleFatal(w, _) => w < |s.workers| && !s.workers[w].phase.Settled?
  }

  ghost predicate InPhase(s: Sys, w: nat, phase: Phase) {
    w < |s.workers| && s.workers[w].phase == phase && s.workers[w].offsets < |s.st.offsets|
  }

  /** The state after the manager gave chunk `id` (if any) to a new worker. */
  function HandOut(s: Sys, st: State, id: Option<nat>): Sys
    requires HandlesInRange(st) && (id.Some? ==> id.value < |st.chunks|)
  {
    match id
    case Some(i) =>
      s.(st := st,
         workers := s.workers + [Worker(i, st.chunks[i].offsets, st.chunks[i].attempt, OffsetsOf(st, i).cur, Streaming)])
    case None => s.(st := st)
  }

  function SetPhase(s: Sys, w: nat, phase: Phase): Sys
    requires w < |s.workers|
  {
    s.(workers := s.workers[w := s.workers[w].(phase := phase)])
  }

  function Revoked(s: Sys, w: nat): bool
    requires w < |s.workers| && s.workers[w].offsets < |s.st.offsets|
  {
    s.st.offsets[s.workers[w].offsets].revoked
  }

  ghost function Apply(s: Sys, step: Step): Sys
    requires Inv(s) && Enabled(s, step)
  {
    match step
    case Tick(now) => s.(clock := now)
    case GetWork(worker, mirror) => AfterHandOut(s, step)
    case GetAt(worker, mirror, start, end) => AfterHandOut(s, step)
    case TakeChunk(id, worker, mirror) => AfterHandOut(s, step)
    case Steal(victim, split, worker, mirror) => AfterHandOut(s, step)
    case ReadEnd(w, to) => SetPhase(s, w, Writing(to))
    case WriteOut(w) =>
      var h := s.workers[w];
      SetPhase(s, w, Wrote(h.phase.to)).(disk := s.disk + Span(h.pos, Max(h.phase.to - h.pos, 0)))
    case Publish(w) =>
      assert WorkerOk(s, w);
      var h := s.workers[w];
      s.(st := SetOffsets(s.st, h.offsets, s.st.offsets[h.offsets].(cur := h.phase.to)),
         workers := s.workers[w := h.(pos := h.phase.to, phase := Streaming)])
    case Tell(w, told) =>
      assert WorkerOk(s, w);
      s.(st := s.st.(attempts := s.st.attempts[s.workers[w].attempt := told]))
    case Ask(w, mirror, rate, now) =>
      SoundHandles(s.st);
      s.(st := Replaces(s.st, s.workers[w].chunk, mirror, rate, now).0)
    case Finish(w) => SetPhase(s, w, Finished)
    case SettleOk(w) =>
      var settled := SetPhase(s, w, Settled);
      if Revoked(s, w) then settled else settled.(st := MarkCompleted(s.st, s.workers[w].chunk).0)
    case SettleFailed(w, reason, minDelay, counts, fraction) =>
      SoundHandles(s.st);
      var settled := SetPhase(s, w, Settled);
      if Revoked(s, w) then settled
      else settled.(st := MarkFailed(s.st, s.workers[w].chunk, reason, minDelay, counts, s.clock, fraction).0)
    case SettleFatal(w, reason) =>
      SetPhase(s, w, Settled).(st := Abort(s.st, s.workers[w].chunk, reason))
  }

  ghost function AfterHandOut(s: Sys, step: Step): Sys
    requires Inv(s) && Enabled(s, step) && (step.GetWork? || step.GetAt? || step.TakeChunk? || step.Steal?)
  {
    HandedOutIsSound(s, step);
    var (st, id) := HandedOut(s, step);
    HandOut(s, st, id)
  }

  /** What the manager does in a hand-out step, and the chunk it gives away. */
  ghost function HandedOut(s: Sys, step: Step): (State, Option<nat>)
    requires Inv(s) && Enabled(s, step) && (step.GetWork? || step.GetAt? || step.TakeChunk? || step.Steal?)
  {
    SoundHandles(s.st);
    match step
    case GetWork(worker, mirror) => GetNextWork(s.st, worker, mirror, s.clock)
    case GetAt(worker, mirror, start, end) => AssignAt(s.st, worker, mirror, start, end, s.clock)
    case TakeChunk(id, worker, mirror) => TakeOver(s.st, id, worker, mirror, s.clock)
    case Steal(victim, split, worker, mirror) =>
      (SplitForThief(s.st, victim, split, worker, mirror, s.clock), Some(|s.st.chunks|))
  }

  lemma HandedOutKeepsRows(s: Sys, step: Step)
    requires Inv(s) && Enabled(s, step) && (step.GetWork? || step.GetAt? || step.TakeChunk? || step.Steal?)
    ensures Sound(HandedOut(s, step).0)
  {
    match step
    case GetWork(worker, mirror) => GetNextWorkIsSound(s.st, worker, mirror, s.clock);
    case GetAt(worker, mirror, start, end) => AssignAtIsSound(s.st, worker, mirror, start, end, s.clock);
    case TakeChunk(id, worker, mirror) => TakeOverIsSound(s.st, id, worker, mirror, s.clock);
    case Steal(victim, split, worker, mirror) => SplitForThiefIsSound(s.st, victim, split, worker, mirror, s.clock);
  }

  lemma HandedOutExists(s: Sys, step: Step)
    requires Inv(s) && Enabled(s, step) && (step.GetWork? || step.GetAt? || step.TakeChunk? || step.Steal?)
    ensures var (st, id) := HandedOut(s, step); id.Some? ==> id.value < |st.chunks|
  {
  }

  lemma HandedOutIsSound(s: Sys, step: Step)
    requires Inv(s) && Enabled(s, step) && (step.GetWork? || step.GetAt? || step.TakeChunk? || step.Steal?)
    ensures var (st, id) := HandedOut(s, step);
            Sound(st) && HandlesInRange(st) && (id.Some? ==> id.value < |st.chunks|)
  {
    HandedOutKeepsRows(s, step);
    HandedOutExists(s, step);
    SoundHandles(HandedOut(s, step).0);
  }
}
