/** The scheduler's runs come to an end, never stop short of one, and give up only as they should. */
module Progress {
  import opened Basics
  import opened Ranges
  import opened Sorting
  import opened Chunks
  import opened ChunkInvariants
  import opened Protocol
  import opened Safety
  import opened Runs

  // ---------------------------------------------------------------- the measure

  function OpenBytes(c: ChunkRow): nat {
    if c.status.Completed? then 0 else Size(c.range)
  }

  function Chances(c: ChunkRow, maxRetries: nat): nat {
    if c.status.Completed? then 0 else Max(0, maxRetries + 1 - c.retries)
  }

  function Waits(c: ChunkRow): nat {
    if c.status.Completed? || c.status.Assigned? then 0 else 1
  }

  /** Steps worker `h` can still take in a file of `total` bytes. */
  function Effort(h: Worker, total: nat): nat {
    var left := Max(0, total - h.pos);
    match h.phase
    case Streaming => 3 * left + 2
    case Writing(_) => 3 * left + 1
    case Wrote(_) => 3 * left
    case Finished => 1
    case Settled => 0
  }

  function OpenList(chunks: seq<ChunkRow>): seq<nat> {
    seq(|chunks|, i requires 0 <= i < |chunks| => OpenBytes(chunks[i]))
  }

  function ChanceList(chunks: seq<ChunkRow>, maxRetries: nat): seq<nat> {
    seq(|chunks|, i requires 0 <= i < |chunks| => Chances(chunks[i], maxRetries))
  }

  function WaitList(chunks: seq<ChunkRow>): seq<nat> {
    seq(|chunks|, i requires 0 <= i < |chunks| => Waits(chunks[i]))
  }

  function EffortList(workers: seq<Worker>, total: nat): seq<nat> {
    seq(|workers|, w requires 0 <= w < |workers| => Effort(workers[w], total))
  }

  /** Bytes outside completed chunks, room for more chunks, retries left, chunks not in flight, worker steps left. */
  datatype Measure = Measure(open: nat, room: nat, chances: nat, waiting: nat, effort: nat)

  function MeasureOf(s: Sys): Measure {
    Measure(
      Sum(OpenList(s.st.chunks)),
      Max(0, s.st.total - |s.st.chunks|),
      Sum(ChanceList(s.st.chunks, s.st.maxRetries)),
      Sum(WaitList(s.st.chunks)),
      Sum(EffortList(s.workers, s.st.total)))
  }

  /** The lexicographic order. */
  predicate Below(m: Measure, n: Measure) {
    || m.open < n.open
    || (m.open == n.open && m.room < n.room)
    || (m.open == n.open && m.room == n.room && m.chances < n.chances)
    || (m.open == n.open && m.room == n.room && m.chances == n.chances && m.waiting < n.waiting)
    || (m.open == n.open && m.room == n.room && m.chances == n.chances && m.waiting == n.waiting && m.effort < n.effort)
  }

  // ---------------------------------------------------------------- productive steps

  /** Whether the attempt at chunk `i` wrote anything since it was handed out. */
  ghost predicate HasWritten(st: State, i: nat)
    requires HandlesInRange(st) && i < |st.chunks|
  {
    st.chunks[i].range.start < OffsetsOf(st, i).cur
  }

  /**
   Steps that get something done: hand-outs that hand something out, take-overs of attempts that
   wrote something, and failures that count unless the attempt wrote something.
   */
  ghost predicate Productive(s: Sys, step: Step)
    requires Inv(s) && Enabled(s, step)
  {
    SoundHandles(s.st);
    match step
    case Tick(_) => false
    case Tell(_, _) => false
    case Ask(_, _, _, _) => false
    case GetWork(worker, mirror) => GetNextWork(s.st, worker, mirror, s.clock).1.Some?
    case GetAt(worker, mirror, start, end) => AssignAt(s.st, worker, mirror, start, end, s.clock).1.Some?
    case TakeChunk(id, _, _) => HasWritten(s.st, id)
    case SettleFailed(w, _, _, counts, _) =>
      WorkerIsOk(s, w);
      counts || !Live(s, w) || HasWritten(s.st, s.workers[w].chunk)
    case _ => true
  }

  /** Steps that do nothing but let time pass, tell how an attempt goes, ask about it, or find no work. */
  ghost predicate Idle(s: Sys, step: Step)
    requires Inv(s) && Enabled(s, step)
  {
    SoundHandles(s.st);
    match step
    case Tick(_) => true
    case Tell(_, _) => true
    case Ask(_, _, _, _) => true
    case GetWork(worker, mirror) => GetNextWork(s.st, worker, mirror, s.clock).1.None?
    case GetAt(worker, mirror, start, end) => AssignAt(s.st, worker, mirror, start, end, s.clock).1.None?
    case _ => false
  }

  lemma WorkerIsOk(s: Sys, w: nat)
    requires Inv(s) && w < |s.workers|
    ensures WorkerOk(s, w)
    ensures Live(s, w) ==> s.workers[w].chunk < |s.st.chunks| && HandlesInRange(s.st)
  {
    SoundHandles(s.st);
    assert WorkerOk(s, w);
  }

  lemma IdleKeepsMeasure(s: Sys, step: Step)
    requires Inv(s) && Enabled(s, step) && Idle(s, step)
    ensures MeasureOf(Apply(s, step)) == MeasureOf(s)
  {
  }

  // ---------------------------------------------------------------- sums under changes

  /** One row replaced. */
  lemma RowMeasure(chunks: seq<ChunkRow>, i: nat, c: ChunkRow, maxRetries: nat)
    requires i < |chunks|
    ensures Sum(OpenList(chunks[i := c])) + OpenBytes(chunks[i]) == Sum(OpenList(chunks)) + OpenBytes(c)
    ensures Sum(ChanceList(chunks[i := c], maxRetries)) + Chances(chunks[i], maxRetries)
         == Sum(ChanceList(chunks, maxRetries)) + Chances(c, maxRetries)
    ensures Sum(WaitList(chunks[i := c])) + Waits(chunks[i]) == Sum(WaitList(chunks)) + Waits(c)
  {
    assert OpenList(chunks[i := c]) == OpenList(chunks)[i := OpenBytes(c)];
    assert ChanceList(chunks[i := c], maxRetries) == ChanceList(chunks, maxRetries)[i := Chances(c, maxRetries)];
    assert WaitList(chunks[i := c]) == WaitList(chunks)[i := Waits(c)];
    SumUpdate(OpenList(chunks), i, OpenBytes(c));
    SumUpdate(ChanceList(chunks, maxRetries), i, Chances(c, maxRetries));
    SumUpdate(WaitList(chunks), i, Waits(c));
  }

  lemma OpenAppend(chunks: seq<ChunkRow>, c: ChunkRow)
    ensures Sum(OpenList(chunks + [c])) == Sum(OpenList(chunks)) + OpenBytes(c)
  {
    assert OpenList(chunks + [c]) == OpenList(chunks) + [OpenBytes(c)];
    SumAppend(OpenList(chunks), OpenBytes(c));
  }

  /** Disjoint non-empty chunks are no more than bytes. */
  lemma ChunksFit(st: State)
    requires Sound(st)
    ensures |st.chunks| <= st.total
  {
    var rs := RangesOf(st);
    SumIsMonotone(seq(|rs|, i => 1), Sizes(rs));
    SumOfOnes(|rs|);
  }

  lemma {:induction false} SumOfOnes(n: nat)
    ensures Sum(seq(n, i => 1)) == n
  {
    if n > 0 {
      SumOfOnes(n - 1);
      assert seq(n, i => 1)[..n - 1] == seq(n - 1, i => 1);
    }
  }

  // ---------------------------------------------------------------- each productive step

  lemma AssignLowers(s: Sys, s': Sys, cut: seq<ChunkRow>, id: nat, c: ChunkRow)
    requires Inv(s) && Inv(s') && s'.st.total == s.st.total && s'.st.maxRetries == s.st.maxRetries
    requires id < |cut| && s'.st.chunks == cut[id := c]
    requires c == cut[id].(status := c.status, notBefore := c.notBefore, assignedAt := c.assignedAt, attempt := c.attempt)
    requires c.status.Assigned? && !cut[id].status.Completed?
    requires Sum(OpenList(cut)) == Sum(OpenList(s.st.chunks))
    requires (cut == s.st.chunks && !cut[id].status.Assigned?) || |cut| == |s.st.chunks| + 1
    ensures Below(MeasureOf(s'), MeasureOf(s))
  {
    RowMeasure(cut, id, c, s.st.maxRetries);
    ChunksFit(s'.st);
  }

  lemma GetWorkLowers(s: Sys, worker: nat, mirror: nat)
    requires Inv(s) && Productive(s, GetWork(worker, mirror))
    ensures Below(MeasureOf(Apply(s, GetWork(worker, mirror))), MeasureOf(s))
  {
    var s' := Apply(s, GetWork(worker, mirror));
    StepKeeps(s, GetWork(worker, mirror));
    SoundHandles(s.st);
    var id := GetNextWork(s.st, worker, mirror, s.clock).1.value;
    AssignLowers(s, s', s.st.chunks, id, s'.st.chunks[id]);
  }

  /** The row list after the tail of chunk `id` was cut off as a chunk of its own. */
  lemma CutOpen(st: State, id: nat, end: nat)
    requires Sound(st) && HandlesInRange(st) && id < |st.chunks| && !st.chunks[id].status.Completed?
    requires st.chunks[id].range.start <= end < st.chunks[id].range.end
    ensures Sum(OpenList(Push(Truncate(st, id, end), ByteRange(end + 1, st.chunks[id].range.end), Unassigned).chunks))
         == Sum(OpenList(st.chunks))
  {
    var c := st.chunks[id].(range := ByteRange(st.chunks[id].range.start, end));
    RowMeasure(st.chunks, id, c, 0);
    var cut := Push(Truncate(st, id, end), ByteRange(end + 1, st.chunks[id].range.end), Unassigned);
    OpenAppend(st.chunks[id := c], cut.chunks[|st.chunks|]);
  }

  lemma GetAtLowers(s: Sys, worker: nat, mirror: nat, start: nat, end: nat)
    requires Inv(s) && Productive(s, GetAt(worker, mirror, start, end))
    ensures Below(MeasureOf(Apply(s, GetAt(worker, mirror, start, end))), MeasureOf(s))
  {
    var s' := Apply(s, GetAt(worker, mirror, start, end));
    StepKeeps(s, GetAt(worker, mirror, start, end));
    SoundHandles(s.st);
    var id := FreshAt(s.st, 0, start).value;
    var cut := s.st;
    assert RowOk(s.st, id) && RangesOf(s.st)[id] == s.st.chunks[id].range;
    if s.st.chunks[id].range.end > end {
      CutOpen(s.st, id, end);
      cut := Push(Truncate(s.st, id, end), ByteRange(end + 1, s.st.chunks[id].range.end), Unassigned);
    }
    assert s'.st == Assign(cut, id, worker, mirror, s.clock);
    AssignLowers(s, s', cut.chunks, id, s'.st.chunks[id]);
  }

  lemma StealLowers(s: Sys, victim: nat, split: nat, worker: nat, mirror: nat)
    requires Inv(s) && Enabled(s, Steal(victim, split, worker, mirror))
    ensures Below(MeasureOf(Apply(s, Steal(victim, split, worker, mirror))), MeasureOf(s))
  {
    var s' := Apply(s, Steal(victim, split, worker, mirror));
    StepKeeps(s, Steal(victim, split, worker, mirror));
    SoundHandles(s.st);
    SplitOpen(s.st, victim, split, worker, mirror, s.clock);
    assert s'.st == SplitForThief(s.st, victim, split, worker, mirror, s.clock);
    ChunksFit(s'.st);
  }

  lemma SplitOpen(st: State, victim: nat, split: nat, worker: nat, mirror: nat, now: real)
    requires Sound(st) && HandlesInRange(st) && victim < |st.chunks| && st.chunks[victim].status.Assigned?
    requires st.chunks[victim].range.start < split <= st.chunks[victim].range.end
    ensures var st' := SplitForThief(st, victim, split, worker, mirror, now);
            && Sum(OpenList(st'.chunks)) == Sum(OpenList(st.chunks))
            && |st'.chunks| == |st.chunks| + 1 && st'.total == st.total
  {
    assert RowOk(st, victim);
    CutOpen(st, victim, split - 1);
    var cut := Push(Truncate(st, victim, split - 1), ByteRange(split, st.chunks[victim].range.end), Unassigned);
    var st' := Assign(cut, |st.chunks|, worker, mirror, now);
    assert SplitForThief(st, victim, split, worker, mirror, now) == st';
    RowMeasure(cut.chunks, |st.chunks|, st'.chunks[|st.chunks|], 0);
  }

  /** Splitting a written prefix off, or completing a chunk, leaves fewer bytes open. */
  lemma FewerOpen(s: Sys, s': Sys, id: nat, c: ChunkRow)
    requires id < |s.st.chunks| && OpenBytes(c) < OpenBytes(s.st.chunks[id])
    requires s'.st.chunks == s.st.chunks[id := c]
          || (|s'.st.chunks| == |s.st.chunks| + 1 && s'.st.chunks[|s.st.chunks|].status.Completed?
              && s'.st.chunks[..|s.st.chunks|] == s.st.chunks[id := c])
    ensures Below(MeasureOf(s'), MeasureOf(s))
  {
    RowMeasure(s.st.chunks, id, c, 0);
    if s'.st.chunks != s.st.chunks[id := c] {
      var last := s'.st.chunks[|s.st.chunks|];
      assert s'.st.chunks == s.st.chunks[id := c] + [last];
      OpenAppend(s.st.chunks[id := c], last);
    }
  }

  lemma TakeChunkLowers(s: Sys, id: nat, worker: nat, mirror: nat)
    requires Inv(s) && Enabled(s, TakeChunk(id, worker, mirror)) && Productive(s, TakeChunk(id, worker, mirror))
    ensures Below(MeasureOf(Apply(s, TakeChunk(id, worker, mirror))), MeasureOf(s))
  {
    var s' := Apply(s, TakeChunk(id, worker, mirror));
    SoundHandles(s.st);
    assert RowOk(s.st, id) && RangesOf(s.st)[id] == s.st.chunks[id].range;
    FewerOpen(s, s', id, s'.st.chunks[id]);
  }

  lemma SettleFailedLowers(s: Sys, w: nat, reason: string, minDelay: real, counts: bool, fraction: real)
    requires Inv(s) && Enabled(s, SettleFailed(w, reason, minDelay, counts, fraction))
    requires s.st.fatal.None? && Productive(s, SettleFailed(w, reason, minDelay, counts, fraction)) && Live(s, w)
    ensures Below(MeasureOf(Apply(s, SettleFailed(w, reason, minDelay, counts, fraction))), MeasureOf(s))
  {
    hide OneEach, Attended, OnDisk, QueueOk, OwnHandles, BackoffDelay, EndsInFile;
    var s' := Apply(s, SettleFailed(w, reason, minDelay, counts, fraction));
    assert WorkerOk(s, w);
    SoundHandles(s.st);
    var id := s.workers[w].chunk;
    assert RowOk(s.st, id) && RangesOf(s.st)[id] == s.st.chunks[id].range;
    if HasWritten(s.st, id) {
      FewerOpen(s, s', id, s'.st.chunks[id]);
    } else {
      RowMeasure(s.st.chunks, id, s'.st.chunks[id], s.st.maxRetries);
    }
  }

  lemma SettleOkLowers(s: Sys, w: nat)
    requires Inv(s) && Enabled(s, SettleOk(w)) && Live(s, w)
    ensures Below(MeasureOf(Apply(s, SettleOk(w))), MeasureOf(s))
  {
    var s' := Apply(s, SettleOk(w));
    assert WorkerOk(s, w);
    var id := s.workers[w].chunk;
    assert RowOk(s.st, id) && RangesOf(s.st)[id] == s.st.chunks[id].range;
    FewerOpen(s, s', id, s'.st.chunks[id]);
  }

  /** A step that changes nothing but one worker, which has less left to do. */
  lemma EffortLowers(s: Sys, s': Sys, w: nat)
    requires w < |s.workers| && |s'.workers| == |s.workers| && s'.workers == s.workers[w := s'.workers[w]]
    requires s'.st.chunks == s.st.chunks && s'.st.total == s.st.total && s'.st.maxRetries == s.st.maxRetries
    requires Effort(s'.workers[w], s.st.total) < Effort(s.workers[w], s.st.total)
    ensures Below(MeasureOf(s'), MeasureOf(s))
  {
    assert EffortList(s'.workers, s.st.total)
        == EffortList(s.workers, s.st.total)[w := Effort(s'.workers[w], s.st.total)];
    SumUpdate(EffortList(s.workers, s.st.total), w, Effort(s'.workers[w], s.st.total));
  }

  lemma WorkerStepLowers(s: Sys, step: Step)
    requires Inv(s) && Enabled(s, step)
    requires step.ReadEnd? || step.WriteOut? || step.Publish? || step.Finish? || step.SettleFatal?
          || ((step.SettleOk? || step.SettleFailed?) && !Live(s, step.w))
    ensures Below(MeasureOf(Apply(s, step)), MeasureOf(s))
  {
    assert WorkerOk(s, step.w);
    hide RowsSound, QueueOk, OnDisk, OneEach, Attended, EndsInFile, MeasureOf, Below;
    EffortLowers(s, Apply(s, step), step.w);
  }

  /** Every productive step of a download that has not failed lowers the measure. */
  lemma ProductiveLowers(s: Sys, step: Step)
    requires Inv(s) && s.st.fatal.None? && Enabled(s, step) && Productive(s, step)
    ensures Below(MeasureOf(Apply(s, step)), MeasureOf(s))
  {
    match step
    case Tick(_) =>
    case Tell(_, _) =>
    case Ask(_, _, _, _) =>
    case GetWork(worker, mirror) => GetWorkLowers(s, worker, mirror);
    case GetAt(worker, mirror, start, end) => GetAtLowers(s, worker, mirror, start, end);
    case TakeChunk(id, worker, mirror) => TakeChunkLowers(s, id, worker, mirror);
    case Steal(victim, split, worker, mirror) => StealLowers(s, victim, split, worker, mirror);
    case SettleOk(w) =>
      if Live(s, w) {
        SettleOkLowers(s, w);
      } else {
        WorkerStepLowers(s, step);
      }
    case SettleFailed(w, reason, minDelay, counts, fraction) =>
      if Live(s, w) {
        SettleFailedLowers(s, w, reason, minDelay, counts, fraction);
      } else {
        WorkerStepLowers(s, step);
      }
    case _ => WorkerStepLowers(s, step);
  }

  // ---------------------------------------------------------------- runs end

  /** An endless run of a download that does not fail, each step productive or idle. */
  ghost predicate Endless(states: nat -> Sys, steps: nat -> Step) {
    && Inv(states(0))
    && forall n: nat :: Continues(states, steps, n)
  }

  ghost predicate Continues(states: nat -> Sys, steps: nat -> Step, n: nat) {
    Inv(states(n)) ==>
      && states(n).st.fatal.None?
      && Enabled(states(n), steps(n))
      && (Productive(states(n), steps(n)) || Idle(states(n), steps(n)))
      && states(n + 1) == Apply(states(n), steps(n))
  }

  ghost predicate ProductiveAt(states: nat -> Sys, steps: nat -> Step, n: nat) {
    Inv(states(n)) && Enabled(states(n), steps(n)) && Productive(states(n), steps(n))
  }

  lemma {:induction false} EndlessInv(states: nat -> Sys, steps: nat -> Step, n: nat)
    requires Endless(states, steps)
    ensures Inv(states(n))
  {
    if n > 0 {
      EndlessInv(states, steps, n - 1);
      assert Continues(states, steps, n - 1);
      StepKeeps(states(n - 1), steps(n - 1));
    }
  }

  lemma {:induction false} NeverRises(states: nat -> Sys, steps: nat -> Step, n: nat, m: nat)
    requires Endless(states, steps) && n <= m
    ensures MeasureOf(states(m)) == MeasureOf(states(n)) || Below(MeasureOf(states(m)), MeasureOf(states(n)))
    decreases m - n
  {
    hide MeasureOf, Enabled, Apply, Productive, Idle;
    if n < m {
      NeverRises(states, steps, n, m - 1);
      EndlessInv(states, steps, m - 1);
      assert Continues(states, steps, m - 1);
      if Productive(states(m - 1), steps(m - 1)) {
        ProductiveLowers(states(m - 1), steps(m - 1));
      } else {
        IdleKeepsMeasure(states(m - 1), steps(m - 1));
      }
    }
  }

  /** The measure is lower once more has been done. */
  lemma LowerAfter(states: nat -> Sys, steps: nat -> Step, n: nat, m: nat)
    requires Endless(states, steps) && n <= m && ProductiveAt(states, steps, m)
    ensures Below(MeasureOf(states(m + 1)), MeasureOf(states(n)))
  {
    NeverRises(states, steps, n, m);
    assert Continues(states, steps, m);
    ProductiveLowers(states(m), steps(m));
  }

  /**
   No run goes on getting things done for ever without failing: from some step on, every step of
   an endless one is idle.
   */
  lemma {:induction false} RunsEnd(states: nat -> Sys, steps: nat -> Step, n: nat, measure: Measure) returns (quiet: nat)
    requires Endless(states, steps) && measure == MeasureOf(states(n))
    ensures n <= quiet && forall m: nat | quiet <= m :: !ProductiveAt(states, steps, m)
    decreases measure.open, measure.room, measure.chances, measure.waiting, measure.effort
  {
    if m: nat :| n <= m && ProductiveAt(states, steps, m) {
      LowerAfter(states, steps, n, m);
      quiet := RunsEnd(states, steps, m + 1, MeasureOf(states(m + 1)));
    } else {
      quiet := n;
    }
  }

  // ---------------------------------------------------------------- runs never get stuck

  lemma AllCompletedCount(st: State)
    requires forall i: nat | i < |st.chunks| :: st.chunks[i].status.Completed?
    ensures Sum(CompletedFlags(st)) == |st.chunks|
  {
    SumOfOnes(|st.chunks|);
    assert CompletedFlags(st) == seq(|st.chunks|, i => 1);
  }

  lemma SomeChunkIsOpen(st: State) returns (i: nat)
    requires Sound(st) && !IsAllCompleted(st)
    ensures i < |st.chunks| && !st.chunks[i].status.Completed?
  {
    if forall i: nat | i < |st.chunks| :: st.chunks[i].status.Completed? {
      AllCompletedCount(st);
      assert false;
    }
    i :| i < |st.chunks| && !st.chunks[i].status.Completed?;
  }

  /**
   A download that has neither failed nor finished can always go on, at the latest once a backoff
   has passed: with time `now`, some productive step is enabled.
   */
  lemma NeverStuck(s: Sys) returns (now: real, step: Step)
    requires Inv(s) && s.st.fatal.None? && !IsAllCompleted(s.st)
    ensures Enabled(s, Tick(now)) && Inv(Apply(s, Tick(now)))
    ensures Enabled(Apply(s, Tick(now)), step) && Productive(Apply(s, Tick(now)), step)
  {
    now := s.clock;
    var i := SomeChunkIsOpen(s.st);
    assert RowOk(s.st, i);
    if s.st.chunks[i].status.Assigned? {
      PhasesAlone(s, now);
      assert Apply(s, Tick(now)) == s;
      step := WorkerGoesOn(s, i);
    } else {
      if s.st.chunks[i].status.Failed? {
        now := MaxReal(now, s.st.chunks[i].notBefore.value);
      }
      PhasesAlone(s, now);
      step := GetWork(0, 0);
      WorkIsFound(s.st, i, now);
    }
  }

  lemma WorkIsFound(st: State, i: nat, now: real)
    requires Sound(st) && st.fatal.None? && i < |st.chunks| && QueueInRange(st)
    requires st.chunks[i].status.Unassigned? || (st.chunks[i].status.Failed? && Ready(st.chunks[i], now))
    ensures GetNextWork(st, 0, 0, now).1.Some?
  {
    if st.chunks[i].status.Failed? {
      assert i in st.retryQueue;
      var k :| 0 <= k < |st.retryQueue| && st.retryQueue[k] == i;
      assert Ready(st.chunks[st.retryQueue[k]], now);
    }
  }

  lemma WorkerGoesOn(s: Sys, i: nat) returns (step: Step)
    requires Inv(s) && s.st.fatal.None? && i < |s.st.chunks| && s.st.chunks[i].status.Assigned?
    ensures Enabled(s, step) && Productive(s, step)
  {
    assert HasWorker(s, i);
    var w: nat :| w < |s.workers| && Live(s, w) && s.workers[w].chunk == i;
    assert WorkerOk(s, w);
    var end := s.st.offsets[s.workers[w].offsets].end;
    match s.workers[w].phase {
      case Streaming => step := if end < s.workers[w].pos then Finish(w) else ReadEnd(w, end + 1);
      case Writing(_) => step := WriteOut(w);
      case Wrote(_) => step := Publish(w);
      case Finished => step := SettleOk(w);
      case Settled => assert false;
    }
  }

  // ---------------------------------------------------------------- giving up

  /** The retries of chunk `id`, none for one that does not exist yet. */
  function RetriesOf(st: State, id: nat): nat {
    if id < |st.chunks| then st.chunks[id].retries else 0
  }

  /** The step is a failure of an attempt at chunk `id` that is still its worker's to settle. */
  predicate FailsAt(s: Sys, step: Step, id: nat) {
    step.SettleFailed? && step.w < |s.workers| && Live(s, step.w) && s.workers[step.w].chunk == id
  }

  /**
   Consecutive counted failures without progress of chunk `id`, `k` so far, over a run. A failure
   with progress starts the count anew; one that is not counted leaves it.
   */
  ghost function Strikes(s: Sys, steps: seq<Step>, id: nat, k: nat): nat
    requires Inv(s) && Legal(s, steps)
    decreases |steps|
  {
    if steps == [] then k else
    StepKeeps(s, steps[0]);
    Strikes(Apply(s, steps[0]), steps[1..], id, StrikesAfter(s, steps[0], id, k))
  }

  ghost function StrikesAfter(s: Sys, step: Step, id: nat, k: nat): nat
    requires Inv(s) && Enabled(s, step)
  {
    if FailsAt(s, step, id) then
      WorkerIsOk(s, step.w);
      if HasWritten(s.st, id) then (if AllWritten(s.st, id) then k else 0)
      else if step.counts then k + 1
      else k
    else
      k
  }

  ghost predicate AllWritten(st: State, i: nat)
    requires HandlesInRange(st) && i < |st.chunks|
  {
    st.chunks[i].range.end < OffsetsOf(st, i).cur
  }

  lemma GetWorkKeepsRetries(st: State, worker: nat, mirror: nat, now: real, id: nat)
    requires QueueInRange(st)
    ensures RetriesOf(GetNextWork(st, worker, mirror, now).0, id) == RetriesOf(st, id)
  {
  }

  lemma SplitKeepsRetries(s: Sys, step: Step, id: nat)
    requires Inv(s) && Enabled(s, step) && (step.GetAt? || step.Steal?)
    ensures RetriesOf(Apply(s, step).st, id) == RetriesOf(s.st, id)
  {
  }

  lemma TakeOverKeepsRetries(s: Sys, step: Step, id: nat)
    requires Inv(s) && Enabled(s, step) && step.TakeChunk?
    ensures RetriesOf(Apply(s, step).st, id) == RetriesOf(s.st, id)
  {
  }

  lemma FailureRetries(st: State, failed: nat, reason: string, minDelay: real, counts: bool, now: real, fraction: real, id: nat)
    requires Sound(st) && HandlesInRange(st) && failed < |st.chunks| && st.chunks[failed].status.Assigned?
    ensures RetriesOf(MarkFailed(st, failed, reason, minDelay, counts, now, fraction).0, id)
         == if id != failed || AllWritten(st, id) then RetriesOf(st, id)
            else if HasWritten(st, id) then 0
            else st.chunks[id].retries + if counts then 1 else 0
  {
    assert RowOk(st, failed) && RangesOf(st)[failed] == st.chunks[failed].range;
  }

  lemma StrikesStep(s: Sys, step: Step, id: nat)
    requires Inv(s) && Enabled(s, step)
    ensures RetriesOf(Apply(s, step).st, id) == StrikesAfter(s, step, id, RetriesOf(s.st, id))
  {
    match step
    case SettleFailed(w, reason, minDelay, counts, fraction) =>
      WorkerIsOk(s, w);
      if Live(s, w) {
        var failed := s.workers[w].chunk;
        assert RowOk(s.st, failed) && RangesOf(s.st)[failed] == s.st.chunks[failed].range;
        FailureRetries(s.st, failed, reason, minDelay, counts, s.clock, fraction, id);
      }
    case GetWork(worker, mirror) =>
      SoundHandles(s.st);
      GetWorkKeepsRetries(s.st, worker, mirror, s.clock, id);
    case GetAt(_, _, _, _) => SplitKeepsRetries(s, step, id);
    case Steal(_, _, _, _) => SplitKeepsRetries(s, step, id);
    case TakeChunk(_, _, _) => TakeOverKeepsRetries(s, step, id);
    case _ =>
  }

  /** The retry count a chunk carries is that number of strikes, over any run. */
  lemma {:induction false} RetriesCountStrikes(s: Sys, steps: seq<Step>, id: nat)
    requires Inv(s) && Legal(s, steps)
    ensures RetriesOf(After(s, steps).st, id) == Strikes(s, steps, id, RetriesOf(s.st, id))
    decreases |steps|
  {
    if steps != [] {
      StepKeeps(s, steps[0]);
      StrikesStep(s, steps[0], id);
      RetriesCountStrikes(Apply(s, steps[0]), steps[1..], id);
    }
  }

  /**
   A failed attempt ends a download that had not failed exactly when it is the chunk's
   `max_retries + 1`st strike in a row or later.
   */
  lemma FatalExactlyAfterStrikes(s: Sys, steps: seq<Step>, last: Step)
    requires Inv(s) && s.workers == [] && (forall i | 0 <= i < |s.st.chunks| :: s.st.chunks[i].retries == 0)
    requires Legal(s, steps) && Enabled(After(s, steps), last)
    requires After(s, steps).st.fatal.None? && last.SettleFailed?
    ensures Apply(After(s, steps), last).st.fatal.Some?
       <==> exists id: nat :: FailsAt(After(s, steps), last, id)
              && StrikesAfter(After(s, steps), last, id, Strikes(s, steps, id, 0)) > After(s, steps).st.maxRetries
  {
    hide Legal, After, Strikes, StrikesAfter, Inv, Apply, Live, RetriesOf;
    var mid := After(s, steps);
    FatalAtMoreRetries(mid, last);
    forall id: nat
      ensures RetriesOf(Apply(mid, last).st, id) == StrikesAfter(mid, last, id, Strikes(s, steps, id, 0))
    {
      NoRetriesYet(s, id);
      RetriesCountStrikes(s, steps, id);
      StrikesStep(mid, last, id);
    }
    assert forall id: nat :: RetriesOf(Apply(mid, last).st, id) == StrikesAfter(mid, last, id, Strikes(s, steps, id, 0));
  }

  lemma NoRetriesYet(s: Sys, id: nat)
    requires forall i | 0 <= i < |s.st.chunks| :: s.st.chunks[i].retries == 0
    ensures RetriesOf(s.st, id) == 0
  {
  }

  /** A failed attempt ends the download exactly when it leaves its chunk more retries than are allowed. */
  lemma FatalAtMoreRetries(s: Sys, step: Step)
    requires Inv(s) && Enabled(s, step) && s.st.fatal.None? && step.SettleFailed?
    ensures Apply(s, step).st.fatal.Some?
       <==> exists id: nat :: FailsAt(s, step, id) && RetriesOf(Apply(s, step).st, id) > s.st.maxRetries
  {
    WorkerIsOk(s, step.w);
    if Live(s, step.w) {
      var id := s.workers[step.w].chunk;
      assert RowOk(s.st, id) && RangesOf(s.st)[id] == s.st.chunks[id].range;
      assert FailsAt(s, step, id);
    }
  }

  lemma FatalStep(s: Sys, step: Step)
    requires Inv(s) && Enabled(s, step) && s.st.fatal.Some?
    ensures Apply(s, step).st.fatal == s.st.fatal && |Apply(s, step).workers| == |s.workers|
  {
  }

  /** Once the download failed, no hand-out hands anything out again. */
  lemma {:induction false} FatalEndsHandOuts(s: Sys, steps: seq<Step>)
    requires Inv(s) && Legal(s, steps) && s.st.fatal.Some?
    ensures After(s, steps).st.fatal == s.st.fatal
    ensures |After(s, steps).workers| == |s.workers|
    decreases |steps|
  {
    if steps != [] {
      StepKeeps(s, steps[0]);
      FatalStep(s, steps[0]);
      FatalEndsHandOuts(Apply(s, steps[0]), steps[1..]);
    }
  }

  // ---------------------------------------------------------------- no work lost, none early

  /**
   Fresh work runs out only when every unfinished chunk is in flight or still backing off; and
   what is handed out was unassigned, or failed and past its backoff.
   */
  lemma WorkIsNeverLost(st: State, worker: nat, mirror: nat, now: real)
    requires Sound(st) && st.fatal.None? && QueueInRange(st)
    ensures GetNextWork(st, worker, mirror, now).1.None? <==>
            forall i: nat | i < |st.chunks| && !st.chunks[i].status.Completed? ::
              st.chunks[i].status.Assigned? || (st.chunks[i].status.Failed? && !Ready(st.chunks[i], now))
  {
    if GetNextWork(st, worker, mirror, now).1.None? {
      forall i: nat | i < |st.chunks| && !st.chunks[i].status.Completed?
        ensures st.chunks[i].status.Assigned? || (st.chunks[i].status.Failed? && !Ready(st.chunks[i], now))
      {
        if st.chunks[i].status.Failed? {
          assert i in st.retryQueue;
          var k :| 0 <= k < |st.retryQueue| && st.retryQueue[k] == i;
          assert !Ready(st.chunks[st.retryQueue[k]], now);
        }
      }
    }
  }

  /** Chunk `i` waits for its retry, until time `t`. */
  predicate BacksOff(st: State, i: nat, t: real) {
    i < |st.chunks| && st.chunks[i].status.Failed? && st.chunks[i].notBefore == Some(t)
  }

  lemma BackoffAtRetry(st: State, worker: nat, mirror: nat, now: real, i: nat, t: real)
    requires Sound(st) && QueueInRange(st) && BacksOff(st, i, t) && now < t
    ensures BacksOff(GetNextWork(st, worker, mirror, now).0, i, t)
  {
  }

  lemma BackoffAtSplit(s: Sys, step: Step, i: nat, t: real)
    requires Inv(s) && Enabled(s, step) && BacksOff(s.st, i, t)
    requires step.GetAt? || step.Steal?
    ensures BacksOff(Apply(s, step).st, i, t)
  {
  }

  lemma BackoffAtTakeOver(s: Sys, step: Step, i: nat, t: real)
    requires Inv(s) && Enabled(s, step) && BacksOff(s.st, i, t) && step.TakeChunk?
    ensures BacksOff(Apply(s, step).st, i, t)
  {
  }

  lemma BackoffAtFailure(st: State, id: nat, reason: string, minDelay: real, counts: bool, now: real, fraction: real, i: nat, t: real)
    requires HandlesInRange(st) && id < |st.chunks| && st.chunks[id].status.Assigned? && BacksOff(st, i, t)
    ensures BacksOff(MarkFailed(st, id, reason, minDelay, counts, now, fraction).0, i, t)
  {
  }

  lemma BackoffHoldsStep(s: Sys, step: Step, i: nat, t: real)
    requires Inv(s) && Enabled(s, step) && BacksOff(s.st, i, t) && s.clock < t
    ensures BacksOff(Apply(s, step).st, i, t)
  {
    match step
    case GetWork(worker, mirror) =>
      SoundHandles(s.st);
      BackoffAtRetry(s.st, worker, mirror, s.clock, i, t);
    case GetAt(_, _, _, _) => BackoffAtSplit(s, step, i, t);
    case Steal(_, _, _, _) => BackoffAtSplit(s, step, i, t);
    case TakeChunk(_, _, _) => BackoffAtTakeOver(s, step, i, t);
    case SettleOk(w) => WorkerIsOk(s, w);
    case SettleFailed(w, reason, minDelay, counts, fraction) =>
      WorkerIsOk(s, w);
      if Live(s, w) {
        BackoffAtFailure(s.st, s.workers[w].chunk, reason, minDelay, counts, s.clock, fraction, i, t);
      }
    case _ =>
  }

  /** A failed chunk is handed out by nothing before its delay is over, whatever else happens. */
  lemma {:induction false} BackoffHolds(s: Sys, steps: seq<Step>, i: nat, t: real)
    requires Inv(s) && Legal(s, steps) && BacksOff(s.st, i, t) && After(s, steps).clock < t
    ensures BacksOff(After(s, steps).st, i, t)
    decreases |steps|
  {
    if steps != [] {
      StepKeeps(s, steps[0]);
      ClockRises(Apply(s, steps[0]), steps[1..]);
      assert s.clock <= Apply(s, steps[0]).clock;
      BackoffHoldsStep(s, steps[0], i, t);
      BackoffHolds(Apply(s, steps[0]), steps[1..], i, t);
    }
  }

  lemma {:induction false} ClockRises(s: Sys, steps: seq<Step>)
    requires Inv(s) && Legal(s, steps)
    ensures s.clock <= After(s, steps).clock
    decreases |steps|
  {
    if steps != [] {
      StepKeeps(s, steps[0]);
      ClockRises(Apply(s, steps[0]), steps[1..]);
    }
  }

  lemma {:induction false} PowersOfTwo(n: nat)
    ensures n >= 6 ==> Power2(n) >= 64
  {
    if n > 6 {
      PowersOfTwo(n - 1);
    } else {
      assert Power2(6) == 64;
    }
  }

  /**
   The backoff of the `n`th strike is half of half a second doubled `n - 1` times, capped at 30, and a
   random `fraction` of the other half.
   */
  lemma BackoffBounds(n: nat, fraction: real)
    requires 1 <= n && 0.0 <= fraction < 1.0
    ensures var full := if n <= 6 then [0.5, 1.0, 2.0, 4.0, 8.0, 16.0][n - 1] else 30.0;
            && BackoffDelay(n, fraction) == full * (1.0 + fraction) / 2.0
            && full / 2.0 <= BackoffDelay(n, fraction) <= full <= 30.0
  {
    if n > 6 {
      PowersOfTwo(Min(n - 1, 16));
    } else {
      assert Power2(5) == 32 && Power2(4) == 16 && Power2(3) == 8;
    }
  }

  /**
   What a failed attempt leaves to fetch waits for `minDelay` and, if the failure counts, for the
   backoff of its strikes: for whichever is longer, and not for more.
   */
  lemma FailureDelays(st: State, id: nat, reason: string, minDelay: real, counts: bool, now: real, fraction: real)
    requires Sound(st) && HandlesInRange(st) && id < |st.chunks| && st.chunks[id].status.Assigned?
    requires 0.0 <= fraction < 1.0 && !AllWritten(st, id)
    ensures var st' := MarkFailed(st, id, reason, minDelay, counts, now, fraction).0;
            && id < |st'.chunks| && st'.chunks[id].notBefore.Some? && BacksOff(st', id, st'.chunks[id].notBefore.value)
            && var (delay, counted) := (st'.chunks[id].notBefore.value - now, counts && !HasWritten(st, id));
            && var backoff := BackoffDelay(st.chunks[id].retries + 1, fraction);
            && delay >= minDelay && (counted ==> delay >= backoff)
            && (delay == minDelay || (counted && delay == backoff))
            && st'.chunks[id].range == ByteRange(OffsetsOf(st, id).cur, st.chunks[id].range.end)
  {
    assert RowOk(st, id);
  }
}
