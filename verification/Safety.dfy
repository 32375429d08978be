/** Every step of the scheduler with its workers keeps the invariant, so every run does. */
module Safety {
  import opened Basics
  import opened Ranges
  import opened Chunks
  import opened ChunkInvariants
  import opened Conservation
  import opened Protocol

  // ---------------------------------------------------------------- manager steps

  /** Shared cells only multiply, revocations last, and offsets stay in the file. */
  ghost predicate CellsGrow(st: State, st': State) {
    && st'.total == st.total
    && |st.offsets| <= |st'.offsets| && |st.attempts| <= |st'.attempts|
    && (forall h | 0 <= h < |st.offsets| :: st.offsets[h].revoked ==> st'.offsets[h].revoked)
    && EndsInFile(st')
  }

  /** Chunk `i`, in flight before, still is, under the same attempt and with the same offset. */
  ghost predicate Undisturbed(st: State, st': State, i: nat)
    requires i < |st.chunks|
  {
    && i < |st'.chunks| && st'.chunks[i].status.Assigned?
    && st'.chunks[i].offsets == st.chunks[i].offsets
    && st'.chunks[i].attempt == st.chunks[i].attempt
    && st.chunks[i].offsets < |st.offsets| && st.chunks[i].offsets < |st'.offsets|
    && st'.offsets[st.chunks[i].offsets].cur == st.offsets[st.chunks[i].offsets].cur
    && st'.offsets[st.chunks[i].offsets].end <= st.offsets[st.chunks[i].offsets].end
  }

  ghost predicate OthersUndisturbed(st: State, st': State, but: nat) {
    forall i: nat | i < |st.chunks| && i != but && st.chunks[i].status.Assigned? :: Undisturbed(st, st', i)
  }

  /** No attempt at chunk `but` that was live is live in `st'`. */
  ghost predicate NoneLeftAt(s: Sys, st': State, but: nat) {
    forall w: nat | w < |s.workers| && Live(s.(st := st'), w) :: s.workers[w].chunk != but
  }

  /** Nothing but chunk `but` comes into flight. */
  ghost predicate NoneStarted(st: State, st': State, but: nat) {
    forall i: nat | i < |st'.chunks| && i != but && st'.chunks[i].status.Assigned? ::
      i < |st.chunks| && st.chunks[i].status.Assigned?
  }

  lemma KeepsWorkers(s: Sys, st': State, but: nat)
    requires Inv(s) && Sound(st') && CellsGrow(s.st, st')
    requires OthersUndisturbed(s.st, st', but) && NoneLeftAt(s, st', but)
    ensures WorkersOk(s.(st := st')) && OneEach(s.(st := st'))
    ensures forall i: nat | i < |s.st.chunks| && i != but && s.st.chunks[i].status.Assigned? && HasWorker(s, i) ::
              HasWorker(s.(st := st'), i)
  {
    var s' := s.(st := st');
    forall w: nat | w < |s'.workers|
      ensures WorkerOk(s', w)
      ensures Live(s', w) ==> Live(s, w)
    {
      assert WorkerOk(s, w);
      if Live(s', w) {
        assert Live(s, w) && Holds(s, w);
        assert Undisturbed(s.st, st', s.workers[w].chunk);
      }
    }
    forall i: nat | i < |s.st.chunks| && i != but && s.st.chunks[i].status.Assigned? && HasWorker(s, i)
      ensures HasWorker(s', i)
    {
      var w: nat :| w < |s.workers| && Live(s, w) && s.workers[w].chunk == i;
      assert WorkerOk(s, w) && Undisturbed(s.st, st', i) && RowOk(st', i);
      assert Live(s', w);
    }
  }

  lemma HandOutKeeps(s: Sys, st': State, id: nat)
    requires Inv(s) && Sound(st') && CellsGrow(s.st, st')
    requires RecordWithin(st', s.st) && st'.fatal == s.st.fatal
    requires id < |st'.chunks| && st'.chunks[id].status.Assigned?
    requires OthersUndisturbed(s.st, st', id) && NoneLeftAt(s, st', id) && NoneStarted(s.st, st', id)
    ensures Inv(HandOut(s, st', Some(id)))
  {
    var s' := HandOut(s, st', Some(id));
    KeepsWorkers(s, st', id);
    var mid := s.(st := st');
    assert RowOk(st', id);
    forall w: nat | w < |s'.workers|
      ensures WorkerOk(s', w)
      ensures w < |s.workers| ==> (Live(s', w) <==> Live(mid, w))
    {
      if w < |s.workers| {
        assert WorkerOk(mid, w);
      }
    }
    assert Live(s', |s.workers|) && s'.workers[|s.workers|].chunk == id;
    if st'.fatal.None? {
      forall i: nat | i < |st'.chunks| && st'.chunks[i].status.Assigned?
        ensures HasWorker(s', i)
      {
        if i != id {
          assert HasWorker(s, i);
          assert HasWorker(mid, i);
          var w: nat :| w < |mid.workers| && Live(mid, w) && mid.workers[w].chunk == i;
          assert Live(s', w);
        }
      }
    }
  }

  /** The manager changed, but gave no chunk to a worker. */
  lemma NoHandOutKeeps(s: Sys, st': State, but: nat)
    requires Inv(s) && Sound(st') && CellsGrow(s.st, st')
    requires RecordWithin(st', s.st)
    requires st'.fatal.None? ==> s.st.fatal.None?
    requires OthersUndisturbed(s.st, st', but) && NoneLeftAt(s, st', but) && NoneStarted(s.st, st', but)
    requires but < |st'.chunks| ==> !st'.chunks[but].status.Assigned?
    ensures Inv(s.(st := st'))
  {
    KeepsWorkers(s, st', but);
    var s' := s.(st := st');
    if st'.fatal.None? {
      forall i: nat | i < |st'.chunks| && st'.chunks[i].status.Assigned?
        ensures HasWorker(s', i)
      {
        assert HasWorker(s, i);
      }
    }
  }

  lemma NoLiveWorkerAt(s: Sys, i: nat)
    requires Inv(s) && (i < |s.st.chunks| ==> !s.st.chunks[i].status.Assigned?)
    ensures forall w: nat | w < |s.workers| && Live(s, w) :: s.workers[w].chunk != i
  {
    forall w: nat | w < |s.workers| && Live(s, w)
      ensures s.workers[w].chunk != i
    {
      assert WorkerOk(s, w) && Holds(s, w);
    }
  }

  /** Handing a chunk out, fresh or for a retry, disturbs no attempt. */
  lemma GetNextLeavesOthers(st: State, worker: nat, mirror: nat, now: real)
    requires Sound(st) && QueueInRange(st) && EndsInFile(st)
    ensures var (st', id) := GetNextWork(st, worker, mirror, now);
            && CellsGrow(st, st') && st'.fatal == st.fatal
            && var but := if id.Some? then id.value else |st.chunks|;
            && (id.Some? ==> but < |st.chunks| && !st.chunks[but].status.Assigned? && st'.chunks[but].status.Assigned?)
            && |st'.chunks| == |st.chunks|
            && OthersUndisturbed(st, st', but) && NoneStarted(st, st', but)
  {
    var (st', id) := GetNextWork(st, worker, mirror, now);
    forall i: nat | i < |st.chunks| && st.chunks[i].status.Assigned?
      ensures Undisturbed(st, st', i)
    {
      assert RowOk(st, i);
    }
  }

  lemma GetWorkKeeps(s: Sys, worker: nat, mirror: nat)
    requires Inv(s)
    ensures Inv(Apply(s, GetWork(worker, mirror)))
  {
    GetNextWorkIsSound(s.st, worker, mirror, s.clock);
    GetNextWorkConserves(s.st, worker, mirror, s.clock);
    GetNextLeavesOthers(s.st, worker, mirror, s.clock);
    var (st, id) := GetNextWork(s.st, worker, mirror, s.clock);
    SoundHandles(st);
    match id {
      case Some(i) =>
        HandOutAssigned(s, st, i);
      case None =>
        NoLiveWorkerAt(s, |s.st.chunks|);
        NoHandOutKeeps(s, st, |s.st.chunks|);
    }
  }

  lemma OffsetsDiffer(st: State, i: nat, j: nat)
    requires OwnHandles(st) && i < |st.chunks| && j < |st.chunks|
    ensures i != j ==> st.chunks[i].offsets != st.chunks[j].offsets
  {
    if i != j {
      assert st.chunks[Min(i, j)].offsets != st.chunks[Max(i, j)].offsets;
    }
  }

  /** Cutting the tail off chunk `id` disturbs no attempt. */
  lemma TruncateLeavesOthers(st: State, id: nat, end: nat)
    requires Sound(st) && HandlesInRange(st) && EndsInFile(st) && id < |st.chunks|
    requires end < st.chunks[id].range.end
    ensures var cut := Push(Truncate(st, id, end), ByteRange(end + 1, st.chunks[id].range.end), Unassigned);
            && CellsGrow(st, cut) && cut.fatal == st.fatal
            && OthersUndisturbed(st, cut, |st.chunks|) && NoneStarted(st, cut, |st.chunks|)
  {
    assert RowOk(st, id) && RangesOf(st)[id] == st.chunks[id].range;
    var cut := Push(Truncate(st, id, end), ByteRange(end + 1, st.chunks[id].range.end), Unassigned);
    forall i: nat | i < |st.chunks| && st.chunks[i].status.Assigned?
      ensures Undisturbed(st, cut, i)
    {
      assert RowOk(st, i);
      OffsetsDiffer(st, i, id);
    }
  }

  /** So does handing out a chunk that was not in flight, after that. */
  lemma AssignLeavesOthers(st: State, cut: State, id: nat, worker: nat, mirror: nat, now: real)
    requires Sound(st) && CellsGrow(st, cut) && id < |cut.chunks|
    requires id < |st.chunks| ==> !st.chunks[id].status.Assigned?
    requires OthersUndisturbed(st, cut, |st.chunks|) && NoneStarted(st, cut, |st.chunks|)
    requires |st.chunks| < |cut.chunks| && id != |st.chunks| ==> !cut.chunks[|st.chunks|].status.Assigned?
    ensures var st' := Assign(cut, id, worker, mirror, now);
            && CellsGrow(st, st') && OthersUndisturbed(st, st', id) && NoneStarted(st, st', id)
  {
    var st' := Assign(cut, id, worker, mirror, now);
    forall i: nat | i < |st.chunks| && i != id && st.chunks[i].status.Assigned?
      ensures Undisturbed(st, st', i)
    {
      assert Undisturbed(st, cut, i);
    }
  }

  /** What no hand-out, steal or take-over touches. */
  ghost predicate SameRest(st: State, st': State) {
    st'.total == st.total && st'.maxRetries == st.maxRetries && st'.fatal == st.fatal && st'.replacedAt == st.replacedAt
  }

  lemma GetNextWorkKeepsRest(st: State, worker: nat, mirror: nat, now: real)
    requires QueueInRange(st)
    ensures SameRest(st, GetNextWork(st, worker, mirror, now).0)
  {
  }

  lemma AssignAtKeepsRest(st: State, worker: nat, mirror: nat, start: nat, end: nat, now: real)
    requires HandlesInRange(st)
    ensures SameRest(st, AssignAt(st, worker, mirror, start, end, now).0)
  {
  }

  lemma TakeOverKeepsRest(st: State, id: nat, worker: nat, mirror: nat, now: real)
    requires HandlesInRange(st) && id < |st.chunks|
    ensures SameRest(st, TakeOver(st, id, worker, mirror, now).0)
  {
  }

  lemma SplitKeepsRest(st: State, victim: nat, split: nat, worker: nat, mirror: nat, now: real)
    requires HandlesInRange(st) && victim < |st.chunks| && split > 0
    ensures SameRest(st, SplitForThief(st, victim, split, worker, mirror, now))
  {
  }

  lemma HandOutKeepsRest(s: Sys, step: Step)
    requires Inv(s) && Enabled(s, step) && (step.GetWork? || step.GetAt? || step.TakeChunk? || step.Steal?)
    ensures SameRest(s.st, Apply(s, step).st)
  {
    SoundHandles(s.st);
    hide GetNextWork, AssignAt, TakeOver, SplitForThief, Inv, HandlesInRange, QueueInRange;
    match step
    case GetWork(worker, mirror) => GetNextWorkKeepsRest(s.st, worker, mirror, s.clock);
    case GetAt(worker, mirror, start, end) => AssignAtKeepsRest(s.st, worker, mirror, start, end, s.clock);
    case TakeChunk(id, worker, mirror) => TakeOverKeepsRest(s.st, id, worker, mirror, s.clock);
    case Steal(victim, split, worker, mirror) => SplitKeepsRest(s.st, victim, split, worker, mirror, s.clock);
  }

  lemma NothingChanged(st: State)
    requires Sound(st) && EndsInFile(st)
    ensures CellsGrow(st, st) && OthersUndisturbed(st, st, |st.chunks|) && NoneStarted(st, st, |st.chunks|)
  {
    forall i: nat | i < |st.chunks| && st.chunks[i].status.Assigned?
      ensures Undisturbed(st, st, i)
    {
      assert RowOk(st, i);
    }
  }

  lemma GetAtKeeps(s: Sys, worker: nat, mirror: nat, start: nat, end: nat)
    requires Inv(s)
    ensures Inv(Apply(s, GetAt(worker, mirror, start, end)))
  {
    SoundHandles(s.st);
    AssignAtIsSound(s.st, worker, mirror, start, end, s.clock);
    AssignAtConserves(s.st, worker, mirror, start, end, s.clock);
    var (st, id) := AssignAt(s.st, worker, mirror, start, end, s.clock);
    match id {
      case Some(i) =>
        NoLiveWorkerAt(s, i);
        var cut := s.st;
        if s.st.chunks[i].range.end > end {
          TruncateLeavesOthers(s.st, i, end);
          cut := Push(Truncate(s.st, i, end), ByteRange(end + 1, s.st.chunks[i].range.end), Unassigned);
        } else {
          NothingChanged(s.st);
        }
        assert st == Assign(cut, i, worker, mirror, s.clock);
        AssignLeavesOthers(s.st, cut, i, worker, mirror, s.clock);
        HandOutAssigned(s, st, i);
      case None =>
    }
  }

  /** The chunk handed out was in nobody's hands before. */
  lemma HandOutAssigned(s: Sys, st': State, id: nat)
    requires Inv(s) && Sound(st') && CellsGrow(s.st, st')
    requires RecordWithin(st', s.st) && st'.fatal == s.st.fatal
    requires id < |st'.chunks| && st'.chunks[id].status.Assigned?
    requires id < |s.st.chunks| ==> !s.st.chunks[id].status.Assigned?
    requires OthersUndisturbed(s.st, st', id) && NoneStarted(s.st, st', id)
    ensures Inv(HandOut(s, st', Some(id)))
  {
    NoLiveWorkerAt(s, id);
    forall w: nat | w < |s.workers| && Live(s.(st := st'), w)
      ensures s.workers[w].chunk != id
    {
      assert WorkerOk(s, w);
      assert Live(s, w);
    }
    HandOutKeeps(s, st', id);
  }

  lemma SplitLeavesOthers(st: State, victim: nat, split: nat, worker: nat, mirror: nat, now: real)
    requires Sound(st) && HandlesInRange(st) && EndsInFile(st)
    requires victim < |st.chunks| && st.chunks[victim].status.Assigned?
    requires st.chunks[victim].range.start < split <= st.chunks[victim].range.end
    ensures var st' := SplitForThief(st, victim, split, worker, mirror, now);
            && CellsGrow(st, st') && st'.fatal == st.fatal
            && |st'.chunks| == |st.chunks| + 1 && st'.chunks[|st.chunks|].status.Assigned?
            && OthersUndisturbed(st, st', |st.chunks|) && NoneStarted(st, st', |st.chunks|)
  {
    assert RowOk(st, victim);
    TruncateLeavesOthers(st, victim, split - 1);
    var cut := Push(Truncate(st, victim, split - 1), ByteRange(split, st.chunks[victim].range.end), Unassigned);
    assert SplitForThief(st, victim, split, worker, mirror, now) == Assign(cut, |st.chunks|, worker, mirror, now);
    AssignLeavesOthers(st, cut, |st.chunks|, worker, mirror, now);
  }

  lemma StealKeeps(s: Sys, victim: nat, split: nat, worker: nat, mirror: nat)
    requires Inv(s) && Enabled(s, Steal(victim, split, worker, mirror))
    ensures Inv(Apply(s, Steal(victim, split, worker, mirror)))
  {
    SoundHandles(s.st);
    SplitForThiefIsSound(s.st, victim, split, worker, mirror, s.clock);
    SplitRecord(s.st, victim, split, worker, mirror, s.clock);
    SplitLeavesOthers(s.st, victim, split, worker, mirror, s.clock);
    var st := SplitForThief(s.st, victim, split, worker, mirror, s.clock);
    HandOutAssigned(s, st, |s.st.chunks|);
  }

  lemma TakeChunkKeeps(s: Sys, id: nat, worker: nat, mirror: nat)
    requires Inv(s) && Enabled(s, TakeChunk(id, worker, mirror))
    ensures Inv(Apply(s, TakeChunk(id, worker, mirror)))
  {
    SoundHandles(s.st);
    TakeOverIsSound(s.st, id, worker, mirror, s.clock);
    TakeOverConserves(s.st, id, worker, mirror, s.clock);
    var (st, given) := TakeOver(s.st, id, worker, mirror, s.clock);
    TakeOverGrows(s.st, id, worker, mirror, s.clock);
    TakeOverLeavesOthers(s.st, id, worker, mirror, s.clock);
    TakeOverEndsOld(s, id, worker, mirror);
    match given {
      case Some(i) => HandOutKeeps(s, st, id);
      case None => NoHandOutKeeps(s, st, id);
    }
  }

  lemma TakeOverGrows(st: State, id: nat, worker: nat, mirror: nat, now: real)
    requires Sound(st) && EndsInFile(st) && HandlesInRange(st)
    requires id < |st.chunks| && st.chunks[id].status.Assigned?
    ensures var st' := TakeOver(st, id, worker, mirror, now).0;
            CellsGrow(st, st') && st'.fatal == st.fatal && st'.offsets[st.chunks[id].offsets].revoked
  {
    assert RowOk(st, id) && RangesOf(st)[id] == st.chunks[id].range;
  }

  lemma TakeOverLeavesOthers(st: State, id: nat, worker: nat, mirror: nat, now: real)
    requires Sound(st) && HandlesInRange(st) && id < |st.chunks| && st.chunks[id].status.Assigned?
    ensures var st' := TakeOver(st, id, worker, mirror, now).0;
            OthersUndisturbed(st, st', id) && NoneStarted(st, st', id)
  {
    var st' := TakeOver(st, id, worker, mirror, now).0;
    assert RowOk(st, id);
    forall i: nat | i < |st.chunks| && i != id && st.chunks[i].status.Assigned?
      ensures Undisturbed(st, st', i)
    {
      OffsetsDiffer(st, i, id);
    }
  }

  lemma TakeOverEndsOld(s: Sys, id: nat, worker: nat, mirror: nat)
    requires Inv(s) && id < |s.st.chunks| && s.st.chunks[id].status.Assigned?
    requires HandlesInRange(s.st)
    ensures NoneLeftAt(s, TakeOver(s.st, id, worker, mirror, s.clock).0, id)
  {
    var st := TakeOver(s.st, id, worker, mirror, s.clock).0;
    TakeOverGrows(s.st, id, worker, mirror, s.clock);
    forall w: nat | w < |s.workers| && Live(s.(st := st), w)
      ensures s.workers[w].chunk != id
    {
      assert WorkerOk(s, w);
      assert s.workers[w].offsets != s.st.chunks[id].offsets;
    }
  }

  // ---------------------------------------------------------------- worker steps

  lemma PhaseKeeps(s: Sys, s': Sys, w: nat)
    requires Inv(s) && w < |s.workers| && !s.workers[w].phase.Settled?
    requires s' == s.(workers := s'.workers, disk := s'.disk) && s.disk <= s'.disk
    requires |s'.workers| == |s.workers| && s'.workers == s.workers[w := s'.workers[w]]
    requires s'.workers[w] == s.workers[w].(phase := s'.workers[w].phase) && !s'.workers[w].phase.Settled?
    requires WorkerOk(s', w)
    ensures Inv(s')
  {
    forall v: nat | v < |s'.workers|
      ensures WorkerOk(s', v) && (Live(s', v) <==> Live(s, v))
    {
      assert WorkerOk(s, v);
    }
    if s.st.fatal.None? {
      forall i: nat | i < |s.st.chunks| && s.st.chunks[i].status.Assigned?
        ensures HasWorker(s', i)
      {
        assert HasWorker(s, i);
        var v: nat :| v < |s.workers| && Live(s, v) && s.workers[v].chunk == i;
        assert Live(s', v) && s'.workers[v].chunk == i;
      }
    }
  }

  lemma ReadEndKeeps(s: Sys, w: nat, to: nat)
    requires Inv(s) && Enabled(s, ReadEnd(w, to))
    ensures Inv(Apply(s, ReadEnd(w, to)))
  {
    assert WorkerOk(s, w);
    PhaseKeeps(s, Apply(s, ReadEnd(w, to)), w);
  }

  lemma WriteOutKeeps(s: Sys, w: nat)
    requires Inv(s) && Enabled(s, WriteOut(w))
    ensures Inv(Apply(s, WriteOut(w)))
  {
    assert WorkerOk(s, w);
    PhaseKeeps(s, Apply(s, WriteOut(w)), w);
  }

  lemma FinishKeeps(s: Sys, w: nat)
    requires Inv(s) && Enabled(s, Finish(w))
    ensures Inv(Apply(s, Finish(w)))
  {
    assert WorkerOk(s, w);
    PhaseKeeps(s, Apply(s, Finish(w)), w);
  }

  /** Attempt records, and when a connection was last replaced, are no part of the invariant. */
  lemma RecordsAloneKeep(s: Sys, st': State)
    requires Inv(s) && |st'.attempts| == |s.st.attempts|
    requires st' == s.st.(attempts := st'.attempts, replacedAt := st'.replacedAt)
    ensures Inv(s.(st := st'))
  {
    assert RangesOf(st') == RangesOf(s.st) && CompletedFlags(st') == CompletedFlags(s.st);
    forall i | 0 <= i < |st'.chunks|
      ensures RowOk(st', i)
    {
      assert RowOk(s.st, i);
    }
    SoundHandles(st');
    SamePrefixes(s.st, st');
    NoLiveWorkerAt(s, |s.st.chunks|);
    forall i: nat | i < |s.st.chunks| && s.st.chunks[i].status.Assigned?
      ensures Undisturbed(s.st, st', i)
    {
      assert RowOk(s.st, i);
    }
    NoHandOutKeeps(s, st', |s.st.chunks|);
  }

  lemma TellKeeps(s: Sys, w: nat, told: Attempt)
    requires Inv(s) && Enabled(s, Tell(w, told))
    ensures Inv(Apply(s, Tell(w, told)))
  {
    assert WorkerOk(s, w);
    RecordsAloneKeep(s, Apply(s, Tell(w, told)).st);
  }

  lemma AskKeeps(s: Sys, w: nat, mirror: nat, rate: real, now: real)
    requires Inv(s) && Enabled(s, Ask(w, mirror, rate, now))
    ensures Inv(Apply(s, Ask(w, mirror, rate, now)))
  {
    SoundHandles(s.st);
    var s' := Apply(s, Ask(w, mirror, rate, now));
    RecordsAloneKeep(s, s'.st);
  }

  /** Which chunks go by the offsets of worker `w`: its own while it is live, else finished ones. */
  lemma ChunksAtOffsets(s: Sys, w: nat, i: nat)
    requires Inv(s) && w < |s.workers| && !s.workers[w].phase.Settled?
    requires i < |s.st.chunks| && s.st.chunks[i].offsets == s.workers[w].offsets
    ensures Live(s, w) ==> i == s.workers[w].chunk
    ensures !Live(s, w) ==> s.st.chunks[i].status.Completed?
  {
    assert WorkerOk(s, w) && RowOk(s.st, i);
    var j := s.workers[w].chunk;
    if Live(s, w) {
      OffsetsDiffer(s.st, i, j);
    }
  }

  lemma PublishIsSound(s: Sys, w: nat)
    requires Inv(s) && Enabled(s, Publish(w))
    ensures Sound(Apply(s, Publish(w)).st)
  {
    assert WorkerOk(s, w);
    var st' := Apply(s, Publish(w)).st;
    assert RangesOf(st') == RangesOf(s.st) && CompletedFlags(st') == CompletedFlags(s.st);
    forall i | 0 <= i < |st'.chunks|
      ensures RowOk(st', i)
    {
      assert RowOk(s.st, i);
      if s.st.chunks[i].offsets == s.workers[w].offsets {
        ChunksAtOffsets(s, w, i);
      }
    }
  }

  /** Publishing adds to the record only bytes that are on disk, and none for a revoked worker. */
  lemma PublishedIsOnDisk(s: Sys, w: nat, b: nat)
    requires Inv(s) && Enabled(s, Publish(w)) && HandlesInRange(Apply(s, Publish(w)).st)
    requires Recorded(Apply(s, Publish(w)).st, b)
    ensures b in s.disk
    ensures !Live(s, w) ==> Recorded(s.st, b)
  {
    assert WorkerOk(s, w);
    var st' := Apply(s, Publish(w)).st;
    var i: nat :| i < |st'.chunks| && InPrefix(st', i, b);
    assert RowOk(s.st, i);
    if s.st.chunks[i].offsets == s.workers[w].offsets {
      ChunksAtOffsets(s, w, i);
    }
    if InPrefix(s.st, i, b) {
      assert Recorded(s.st, b);
    }
  }

  /** A live worker shares its offsets with no other that has yet to settle. */
  lemma LiveOffsetsDiffer(s: Sys, v: nat, w: nat)
    requires Inv(s) && v < |s.workers| && w < |s.workers| && v != w
    requires Live(s, v) && !s.workers[w].phase.Settled?
    ensures s.workers[v].offsets != s.workers[w].offsets
  {
    assert WorkerOk(s, v) && WorkerOk(s, w);
    if Live(s, w) {
      var (i, j) := (s.workers[v].chunk, s.workers[w].chunk);
      assert s.workers[Min(v, w)].chunk != s.workers[Max(v, w)].chunk;
      OffsetsDiffer(s.st, i, j);
    }
  }

  lemma PublishKeepsWorkers(s: Sys, w: nat, v: nat)
    requires Inv(s) && Enabled(s, Publish(w)) && v < |s.workers|
    ensures WorkerOk(Apply(s, Publish(w)), v)
    ensures Live(Apply(s, Publish(w)), v) <==> Live(s, v)
  {
    assert WorkerOk(s, w) && WorkerOk(s, v);
    if Live(s, v) && v != w {
      LiveOffsetsDiffer(s, v, w);
    }
  }

  lemma PublishKeepsDisk(s: Sys, w: nat)
    requires Inv(s) && Enabled(s, Publish(w))
    ensures Sound(Apply(s, Publish(w)).st) && OnDisk(Apply(s, Publish(w))) && EndsInFile(Apply(s, Publish(w)).st)
  {
    assert WorkerOk(s, w);
    var s' := Apply(s, Publish(w));
    PublishIsSound(s, w);
    SoundHandles(s'.st);
    forall b: nat | Recorded(s'.st, b)
      ensures b in s'.disk
    {
      PublishedIsOnDisk(s, w, b);
    }
  }

  /** The same workers are live, each with its chunk. */
  ghost predicate SameLive(s: Sys, s': Sys) {
    && s'.st.chunks == s.st.chunks && s'.st.fatal == s.st.fatal && |s'.workers| == |s.workers|
    && forall v: nat | v < |s.workers| :: s'.workers[v].chunk == s.workers[v].chunk && (Live(s', v) <==> Live(s, v))
  }

  lemma SameLiveKeeps(s: Sys, s': Sys)
    requires OneEach(s) && Attended(s) && SameLive(s, s')
    ensures OneEach(s') && Attended(s')
  {
    hide Live;
    if s.st.fatal.None? {
      forall i: nat | i < |s.st.chunks| && s.st.chunks[i].status.Assigned?
        ensures HasWorker(s', i)
      {
        assert HasWorker(s, i);
        var v: nat :| v < |s.workers| && Live(s, v) && s.workers[v].chunk == i;
        assert Live(s', v) && s'.workers[v].chunk == i;
      }
    }
  }

  lemma PublishKeepsAll(s: Sys, w: nat)
    requires Inv(s) && Enabled(s, Publish(w))
    ensures WorkersOk(Apply(s, Publish(w))) && SameLive(s, Apply(s, Publish(w)))
  {
    assert WorkerOk(s, w);
    var s' := Apply(s, Publish(w));
    forall v: nat | v < |s'.workers|
      ensures WorkerOk(s', v) && (Live(s', v) <==> Live(s, v))
    {
      PublishKeepsWorkers(s, w, v);
    }
  }

  lemma PublishKeeps(s: Sys, w: nat)
    requires Inv(s) && Enabled(s, Publish(w))
    ensures Inv(Apply(s, Publish(w)))
  {
    hide Sound, OnDisk, EndsInFile, WorkersOk, OneEach, Attended, SameLive, Apply;
    PublishKeepsDisk(s, w);
    PublishKeepsAll(s, w);
    SameLiveKeeps(s, Apply(s, Publish(w)));
  }

  // ---------------------------------------------------------------- settling

  /** Chunk `i` is in flight no longer, and no other came into flight. */
  ghost predicate Ended(st: State, st': State, i: nat) {
    i < |st'.chunks| && !st'.chunks[i].status.Assigned? && NoneStarted(st, st', i)
  }

  /** A worker leaves: the rest goes on if it was revoked, or if its chunk is no longer in flight. */
  lemma LeaveKeeps(s: Sys, w: nat, st': State)
    requires Inv(s) && w < |s.workers| && !s.workers[w].phase.Settled?
    requires Sound(st') && CellsGrow(s.st, st') && RecordWithin(st', s.st)
    requires st'.fatal.None? ==> s.st.fatal.None?
    requires if Live(s, w) then
               && OthersUndisturbed(s.st, st', s.workers[w].chunk)
               && (st'.fatal.None? ==> Ended(s.st, st', s.workers[w].chunk))
             else
               st'.chunks == s.st.chunks && st'.offsets == s.st.offsets
    ensures Inv(SetPhase(s, w, Phase.Settled).(st := st'))
  {
    var s' := SetPhase(s, w, Phase.Settled).(st := st');
    forall v: nat | v < |s'.workers|
      ensures WorkerOk(s', v)
      ensures Live(s', v) ==> Live(s, v)
      ensures Live(s, v) && v != w ==> (Live(s', v) || st'.offsets[s.workers[v].offsets].revoked)
    {
      assert WorkerOk(s, v);
      if Live(s', v) {
        assert v != w && Live(s, v) && Holds(s, v);
        if Live(s, w) {
          assert s.workers[Min(v, w)].chunk != s.workers[Max(v, w)].chunk;
          assert Undisturbed(s.st, st', s.workers[v].chunk);
        }
      }
    }
    if st'.fatal.None? {
      forall i: nat | i < |st'.chunks| && st'.chunks[i].status.Assigned?
        ensures HasWorker(s', i)
      {
        assert i < |s.st.chunks| && s.st.chunks[i].status.Assigned?;
        assert HasWorker(s, i);
        var v: nat :| v < |s.workers| && Live(s, v) && s.workers[v].chunk == i;
        assert WorkerOk(s, v) && v != w && RowOk(st', i);
        if Live(s, w) {
          assert Undisturbed(s.st, st', i);
        }
        assert Live(s', v) && s'.workers[v].chunk == i;
      }
    }
  }

  lemma SettleOkKeeps(s: Sys, w: nat)
    requires Inv(s) && Enabled(s, SettleOk(w))
    ensures Inv(Apply(s, SettleOk(w)))
  {
    assert WorkerOk(s, w);
    SoundHandles(s.st);
    var id := s.workers[w].chunk;
    forall i: nat | i < |s.st.chunks| && s.st.chunks[i].status.Assigned?
      ensures RowOk(s.st, i)
    {
    }
    if Revoked(s, w) {
      LeaveKeeps(s, w, s.st);
    } else {
      MarkCompletedIsSound(s.st, id);
      MarkCompletedConserves(s.st, id);
      LeaveKeeps(s, w, MarkCompleted(s.st, id).0);
    }
  }

  lemma MarkFailedGrows(s: Sys, id: nat, reason: string, minDelay: real, counts: bool, fraction: real)
    requires Inv(s) && id < |s.st.chunks| && s.st.chunks[id].status.Assigned?
    requires HandlesInRange(s.st)
    ensures CellsGrow(s.st, MarkFailed(s.st, id, reason, minDelay, counts, s.clock, fraction).0)
  {
    hide WorkersOk, OneEach, Attended, OnDisk, QueueOk, BackoffDelay, CompletedFlags, OwnHandles;
    assert RowOk(s.st, id) && RangesOf(s.st)[id] == s.st.chunks[id].range;
  }

  lemma MarkFailedEnds(s: Sys, id: nat, reason: string, minDelay: real, counts: bool, fraction: real)
    requires Inv(s) && id < |s.st.chunks| && s.st.chunks[id].status.Assigned?
    requires HandlesInRange(s.st)
    ensures var st' := MarkFailed(s.st, id, reason, minDelay, counts, s.clock, fraction).0;
            && (st'.fatal.None? ==> s.st.fatal.None?)
            && OthersUndisturbed(s.st, st', id) && NoneStarted(s.st, st', id)
            && id < |st'.chunks| && !st'.chunks[id].status.Assigned?
  {
    hide WorkersOk, OneEach, Attended, OnDisk, QueueOk, BackoffDelay, CompletedFlags, EndsInFile, Tiles;
    assert RowOk(s.st, id);
    forall i: nat | i < |s.st.chunks|
      ensures RowOk(s.st, i)
    {
    }
  }

  lemma MarkFailedLeavesOthers(s: Sys, id: nat, reason: string, minDelay: real, counts: bool, fraction: real)
    requires Inv(s) && id < |s.st.chunks| && s.st.chunks[id].status.Assigned?
    requires HandlesInRange(s.st)
    ensures var st' := MarkFailed(s.st, id, reason, minDelay, counts, s.clock, fraction).0;
            && CellsGrow(s.st, st') && (st'.fatal.None? ==> s.st.fatal.None?)
            && OthersUndisturbed(s.st, st', id) && NoneStarted(s.st, st', id)
            && id < |st'.chunks| && !st'.chunks[id].status.Assigned?
  {
    hide MarkFailed;
    MarkFailedGrows(s, id, reason, minDelay, counts, fraction);
    MarkFailedEnds(s, id, reason, minDelay, counts, fraction);
  }

  lemma SettleFailedKeeps(s: Sys, w: nat, reason: string, minDelay: real, counts: bool, fraction: real)
    requires Inv(s) && Enabled(s, SettleFailed(w, reason, minDelay, counts, fraction))
    ensures Inv(Apply(s, SettleFailed(w, reason, minDelay, counts, fraction)))
  {
    assert WorkerOk(s, w);
    SoundHandles(s.st);
    var id := s.workers[w].chunk;
    if Revoked(s, w) {
      forall i: nat | i < |s.st.chunks| && s.st.chunks[i].status.Assigned?
        ensures RowOk(s.st, i)
      {
      }
      LeaveKeeps(s, w, s.st);
    } else {
      MarkFailedIsSound(s.st, id, reason, minDelay, counts, s.clock, fraction);
      MarkFailedConserves(s.st, id, reason, minDelay, counts, s.clock, fraction);
      MarkFailedLeavesOthers(s, id, reason, minDelay, counts, fraction);
      LeaveKeeps(s, w, MarkFailed(s.st, id, reason, minDelay, counts, s.clock, fraction).0);
    }
  }

  lemma SettleFatalKeeps(s: Sys, w: nat, reason: string)
    requires Inv(s) && Enabled(s, SettleFatal(w, reason))
    ensures Inv(Apply(s, SettleFatal(w, reason)))
  {
    assert WorkerOk(s, w);
    SoundHandles(s.st);
    var st' := Abort(s.st, s.workers[w].chunk, reason);
    AbortIsSound(s.st, s.workers[w].chunk, reason);
    SamePrefixes(s.st, st');
    forall i: nat | i < |s.st.chunks| && s.st.chunks[i].status.Assigned?
      ensures Undisturbed(s.st, st', i)
    {
      assert RowOk(s.st, i);
    }
    LeaveKeeps(s, w, st');
  }

  /** The invariant is kept by every step. */
  lemma StepKeeps(s: Sys, step: Step)
    requires Inv(s) && Enabled(s, step)
    ensures Inv(Apply(s, step))
  {
    match step
    case Tick(now) => PhasesAlone(s, now);
    case GetWork(worker, mirror) => GetWorkKeeps(s, worker, mirror);
    case GetAt(worker, mirror, start, end) => GetAtKeeps(s, worker, mirror, start, end);
    case TakeChunk(id, worker, mirror) => TakeChunkKeeps(s, id, worker, mirror);
    case Steal(victim, split, worker, mirror) => StealKeeps(s, victim, split, worker, mirror);
    case ReadEnd(w, to) => ReadEndKeeps(s, w, to);
    case WriteOut(w) => WriteOutKeeps(s, w);
    case Publish(w) => PublishKeeps(s, w);
    case Tell(w, told) => TellKeeps(s, w, told);
    case Ask(w, mirror, rate, now) => AskKeeps(s, w, mirror, rate, now);
    case Finish(w) => FinishKeeps(s, w);
    case SettleOk(w) => SettleOkKeeps(s, w);
    case SettleFailed(w, reason, minDelay, counts, fraction) => SettleFailedKeeps(s, w, reason, minDelay, counts, fraction);
    case SettleFatal(w, reason) => SettleFatalKeeps(s, w, reason);
  }

  lemma PhasesAlone(s: Sys, now: real)
    requires Inv(s)
    ensures Inv(s.(clock := now))
  {
    var s' := s.(clock := now);
    forall w: nat | w < |s'.workers|
      ensures WorkerOk(s', w) && (Live(s', w) <==> Live(s, w))
    {
      assert WorkerOk(s, w);
    }
    if s.st.fatal.None? {
      forall i: nat | i < |s.st.chunks| && s.st.chunks[i].status.Assigned?
        ensures HasWorker(s', i)
      {
        assert HasWorker(s, i);
        var v: nat :| v < |s.workers| && Live(s, v) && s.workers[v].chunk == i;
        assert Live(s', v) && s'.workers[v].chunk == i;
      }
    }
  }
}
