/** What every operation of the chunk scheduler keeps true of its state. */
module ChunkInvariants {
  import opened Basics
  import opened Ranges
  import opened Sorting
  import opened Chunks

  // ---------------------------------------------------------------- the file is tiled

  function Size(r: ByteRange): nat {
    Max(0, r.end + 1 - r.start)
  }

  function Sizes(rs: seq<ByteRange>): seq<nat> {
    seq(|rs|, i requires 0 <= i < |rs| => Size(rs[i]))
  }

  function RangesOf(st: State): seq<ByteRange> {
    seq(|st.chunks|, i requires 0 <= i < |st.chunks| => st.chunks[i].range)
  }

  /** The ranges are non-empty, pairwise disjoint, and together exactly `[0, total)`. */
  ghost predicate Tiles(rs: seq<ByteRange>, total: nat) {
    && (forall i | 0 <= i < |rs| :: rs[i].Valid() && rs[i].end < total)
    && (forall i, j | 0 <= i < j < |rs| :: !rs[i].Intersects(rs[j]))
    && (forall b: nat | b < total :: Covers(rs, b))
    && Sum(Sizes(rs)) == total
  }

  /** `kept` and `other` are two non-empty parts of `whole`, in either order. */
  predicate Halves(whole: ByteRange, kept: ByteRange, other: ByteRange) {
    && kept.Valid() && other.Valid()
    && (|| (kept.start == whole.start && kept.end + 1 == other.start && other.end == whole.end)
        || (other.start == whole.start && other.end + 1 == kept.start && kept.end == whole.end))
  }

  /** Cutting one tile in two, the second part going to the end of the list, leaves a tiling. */
  lemma CutTiles(rs: seq<ByteRange>, id: nat, kept: ByteRange, other: ByteRange, total: nat)
    requires Tiles(rs, total) && id < |rs| && Halves(rs[id], kept, other)
    ensures Tiles(rs[id := kept] + [other], total)
  {
    var cut := rs[id := kept] + [other];
    CutDisjoint(rs, id, kept, other, cut);
    CutCovers(rs, id, kept, other, cut, total);
    CutSizes(rs, id, kept, other, cut);
  }

  lemma CutDisjoint(rs: seq<ByteRange>, id: nat, kept: ByteRange, other: ByteRange, cut: seq<ByteRange>)
    requires id < |rs| && Halves(rs[id], kept, other) && cut == rs[id := kept] + [other]
    requires forall i, j | 0 <= i < j < |rs| :: !rs[i].Intersects(rs[j])
    ensures forall i, j | 0 <= i < j < |cut| :: !cut[i].Intersects(cut[j])
  {
    forall i, j | 0 <= i < j < |cut|
      ensures !cut[i].Intersects(cut[j])
    {
      if j < |rs| {
        assert !rs[i].Intersects(rs[j]);
      } else if i < id {
        assert !rs[i].Intersects(rs[id]);
      } else if i > id {
        assert !rs[id].Intersects(rs[i]);
      }
    }
  }

  lemma CutCovers(rs: seq<ByteRange>, id: nat, kept: ByteRange, other: ByteRange, cut: seq<ByteRange>, total: nat)
    requires id < |rs| && Halves(rs[id], kept, other) && cut == rs[id := kept] + [other]
    requires forall b: nat | b < total :: Covers(rs, b)
    ensures forall b: nat | b < total :: Covers(cut, b)
  {
    forall b: nat | b < total
      ensures Covers(cut, b)
    {
      assert Covers(rs, b);
      var r :| r in rs && r.Contains(b);
      var i :| 0 <= i < |rs| && rs[i] == r;
      if i != id {
        assert cut[i] == r;
      } else if kept.Contains(b) {
        assert cut[id] == kept;
      } else {
        assert cut[|rs|] == other && other.Contains(b);
      }
    }
  }

  lemma CutSizes(rs: seq<ByteRange>, id: nat, kept: ByteRange, other: ByteRange, cut: seq<ByteRange>)
    requires id < |rs| && Halves(rs[id], kept, other) && cut == rs[id := kept] + [other]
    ensures Sum(Sizes(cut)) == Sum(Sizes(rs))
  {
    assert Sizes(cut) == Sizes(rs)[id := Size(kept)] + [Size(other)];
    SumAppend(Sizes(rs)[id := Size(kept)], Size(other));
    SumUpdate(Sizes(rs), id, Size(kept));
  }

  // ---------------------------------------------------------------- rows

  ghost predicate RowOk(st: State, i: nat)
    requires i < |st.chunks|
  {
    var c := st.chunks[i];
    && c.id == i
    && c.offsets < |st.offsets| && c.attempt < |st.attempts|
    && st.offsets[c.offsets].end == c.range.end
    && (!c.status.Completed? ==>
          && !st.offsets[c.offsets].revoked
          && c.range.start <= st.offsets[c.offsets].cur
          && (!c.status.Assigned? ==> st.offsets[c.offsets].cur == c.range.start)
          && (st.fatal.None? ==> c.retries <= st.maxRetries))
    && (c.status.Failed? ==> c.notBefore.Some?)
  }

  ghost predicate RowsOk(st: State) {
    forall i | 0 <= i < |st.chunks| :: RowOk(st, i)
  }

  /** No two chunks share offsets or an attempt record. */
  ghost predicate OwnHandles(st: State) {
    forall i, j | 0 <= i < j < |st.chunks| ::
      st.chunks[i].offsets != st.chunks[j].offsets && st.chunks[i].attempt != st.chunks[j].attempt
  }

  function CompletedFlags(st: State): seq<nat> {
    seq(|st.chunks|, i requires 0 <= i < |st.chunks| => if st.chunks[i].status.Completed? then 1 else 0)
  }

  /** The queue holds exactly the failed chunks, once each, and nothing fresh lies below `nextFresh`. */
  ghost predicate QueueOk(st: State) {
    && (forall k | 0 <= k < |st.retryQueue| ::
          st.retryQueue[k] < |st.chunks| && st.chunks[st.retryQueue[k]].status.Failed?)
    && (forall k, l | 0 <= k < l < |st.retryQueue| :: st.retryQueue[k] != st.retryQueue[l])
    && (forall i | 0 <= i < |st.chunks| && st.chunks[i].status.Failed? :: i in st.retryQueue)
    && st.nextFresh <= |st.chunks|
    && (forall i | 0 <= i < st.nextFresh :: !st.chunks[i].status.Unassigned?)
  }

  ghost predicate RowsSound(st: State) {
    && RowsOk(st)
    && OwnHandles(st)
    && Tiles(RangesOf(st), st.total)
    && st.completed == Sum(CompletedFlags(st))
  }

  ghost predicate Sound(st: State) {
    RowsSound(st) && QueueOk(st)
  }

  lemma SoundHandles(st: State)
    requires RowsSound(st)
    ensures HandlesInRange(st)
    ensures QueueOk(st) ==> QueueInRange(st)
  {
    forall i | 0 <= i < |st.chunks|
      ensures st.chunks[i].offsets < |st.offsets| && st.chunks[i].attempt < |st.attempts|
    {
      assert RowOk(st, i);
    }
  }

  // ---------------------------------------------------------------- the building blocks keep the rows

  lemma AssignKeepsRows(st: State, id: nat, worker: nat, mirror: nat, now: real)
    requires RowsSound(st) && id < |st.chunks| && !st.chunks[id].status.Completed?
    ensures RowsSound(Assign(st, id, worker, mirror, now))
  {
    var st' := Assign(st, id, worker, mirror, now);
    assert RangesOf(st') == RangesOf(st) && CompletedFlags(st') == CompletedFlags(st);
    forall i | 0 <= i < |st'.chunks|
      ensures RowOk(st', i)
    {
      assert RowOk(st, i);
    }
    forall i, j | 0 <= i < j < |st'.chunks|
      ensures st'.chunks[i].attempt != st'.chunks[j].attempt
    {
      assert RowOk(st, i) && RowOk(st, j);
    }
  }

  lemma CutRowsOk(st: State, id: nat, cut: State, other: ByteRange, status: Status)
    requires RowsOk(st) && OwnHandles(st) && id < |st.chunks| && other.Valid()
    requires status.Unassigned? || status.Completed?
    requires |cut.chunks| == |st.chunks| && cut.chunks == st.chunks[id := cut.chunks[id]] && cut.attempts == st.attempts
    requires |cut.offsets| == |st.offsets|
    requires forall h | 0 <= h < |st.offsets| && h != st.chunks[id].offsets :: cut.offsets[h] == st.offsets[h]
    requires cut.chunks[id].offsets == st.chunks[id].offsets && cut.chunks[id].attempt == st.chunks[id].attempt
    requires cut.maxRetries == st.maxRetries && cut.fatal == st.fatal && RowOk(cut, id)
    ensures RowsOk(Push(cut, other, status)) && OwnHandles(Push(cut, other, status))
  {
    var st' := Push(cut, other, status);
    forall i | 0 <= i < |st'.chunks|
      ensures RowOk(st', i)
    {
      if i < |st.chunks| {
        assert RowOk(st, i);
        if i != id {
          assert st.chunks[i].offsets != st.chunks[id].offsets;
        }
      }
    }
    forall i, j | 0 <= i < j < |st'.chunks|
      ensures st'.chunks[i].offsets != st'.chunks[j].offsets && st'.chunks[i].attempt != st'.chunks[j].attempt
    {
      assert RowOk(st, i);
    }
  }

  /** Replacing a row by one with the same handles and adding a new chunk of the other part. */
  lemma CutKeepsRows(st: State, id: nat, cut: State, other: ByteRange, status: Status)
    requires RowsSound(st) && id < |st.chunks| && !st.chunks[id].status.Completed?
    requires status.Unassigned? || status.Completed?
    requires |cut.chunks| == |st.chunks| && cut.chunks == st.chunks[id := cut.chunks[id]] && cut.attempts == st.attempts
    requires |cut.offsets| == |st.offsets|
    requires forall h | 0 <= h < |st.offsets| && h != st.chunks[id].offsets :: cut.offsets[h] == st.offsets[h]
    requires cut.chunks[id].offsets == st.chunks[id].offsets && cut.chunks[id].attempt == st.chunks[id].attempt
    requires cut.total == st.total && cut.maxRetries == st.maxRetries && cut.fatal == st.fatal
    requires cut.completed == st.completed && !cut.chunks[id].status.Completed?
    requires RowOk(cut, id)
    requires Halves(st.chunks[id].range, cut.chunks[id].range, other)
    ensures RowsSound(Push(cut, other, status))
  {
    var st' := Push(cut, other, status);
    var kept := cut.chunks[id].range;
    assert RangesOf(st') == RangesOf(st)[id := kept] + [other];
    CutTiles(RangesOf(st), id, kept, other, st.total);
    CutRowsOk(st, id, cut, other, status);
    var flag := if status.Completed? then 1 else 0;
    assert CompletedFlags(st') == CompletedFlags(st) + [flag];
    SumAppend(CompletedFlags(st), flag);
  }

  lemma TruncateKeepsRows(st: State, id: nat, end: nat)
    requires RowsSound(st) && id < |st.chunks| && !st.chunks[id].status.Completed?
    requires st.chunks[id].range.start <= end < st.chunks[id].range.end
    ensures HandlesInRange(st)
    ensures RowsSound(Push(Truncate(st, id, end), ByteRange(end + 1, st.chunks[id].range.end), Unassigned))
  {
    SoundHandles(st);
    assert RowOk(st, id);
    CutKeepsRows(st, id, Truncate(st, id, end), ByteRange(end + 1, st.chunks[id].range.end), Unassigned);
  }

  lemma SplitOffKeepsRows(st: State, id: nat, pos: nat)
    requires RowsSound(st) && id < |st.chunks| && st.chunks[id].status.Assigned?
    requires st.chunks[id].range.start < pos <= st.chunks[id].range.end
    requires HandlesInRange(st) && pos <= OffsetsOf(st, id).cur
    ensures RowsSound(SplitOff(st, id, pos))
  {
    var c := st.chunks[id];
    assert RowOk(st, id);
    CutKeepsRows(st, id, Update(st, id, c.(range := ByteRange(pos, c.range.end))), ByteRange(c.range.start, pos - 1), Completed);
  }

  lemma CompleteKeepsRows(st: State, id: nat)
    requires RowsSound(st) && id < |st.chunks| && !st.chunks[id].status.Completed?
    ensures RowsSound(Complete(st, id))
  {
    var st' := Complete(st, id);
    assert RangesOf(st') == RangesOf(st);
    assert CompletedFlags(st') == CompletedFlags(st)[id := 1];
    SumUpdate(CompletedFlags(st), id, 1);
    forall i | 0 <= i < |st'.chunks|
      ensures RowOk(st', i)
    {
      assert RowOk(st, i);
    }
  }

  lemma RequeueKeepsRows(st: State, id: nat, reason: string, minDelay: real, counted: bool, now: real, fraction: real)
    requires RowsSound(st) && id < |st.chunks| && st.chunks[id].status.Assigned?
    requires HandlesInRange(st) && OffsetsOf(st, id).cur == st.chunks[id].range.start
    ensures RowsSound(Requeue(st, id, reason, minDelay, counted, now, fraction))
  {
    var st' := Requeue(st, id, reason, minDelay, counted, now, fraction);
    assert RangesOf(st') == RangesOf(st) && CompletedFlags(st') == CompletedFlags(st);
    forall i | 0 <= i < |st'.chunks|
      ensures RowOk(st', i)
    {
      assert RowOk(st, i);
    }
  }

  /** Offsets no unfinished chunk uses may change at will, but for the end a chunk goes by. */
  lemma StrayOffsetsKeepRows(st: State, h: nat, o: Offsets)
    requires RowsSound(st) && h < |st.offsets| && o.end == st.offsets[h].end
    requires forall i | 0 <= i < |st.chunks| && st.chunks[i].offsets == h :: st.chunks[i].status.Completed?
    ensures RowsSound(SetOffsets(st, h, o))
  {
    var st' := SetOffsets(st, h, o);
    assert RangesOf(st') == RangesOf(st) && CompletedFlags(st') == CompletedFlags(st);
    forall i | 0 <= i < |st'.chunks|
      ensures RowOk(st', i)
    {
      assert RowOk(st, i);
    }
  }

  // ---------------------------------------------------------------- the queue

  lemma QueueKept(st: State, st': State)
    requires QueueOk(st) && st'.retryQueue == st.retryQueue && st'.nextFresh == st.nextFresh
    requires |st.chunks| <= |st'.chunks|
    requires forall i | 0 <= i < |st.chunks| ::
               (st'.chunks[i].status.Failed? <==> st.chunks[i].status.Failed?)
               && (st'.chunks[i].status.Unassigned? ==> st.chunks[i].status.Unassigned?)
    requires forall i | |st.chunks| <= i < |st'.chunks| :: !st'.chunks[i].status.Failed?
    ensures QueueOk(st')
  {
  }

  /** Taking one of distinct entries out leaves exactly the others, still distinct. */
  lemma WithoutEntry(queue: seq<nat>, pos: nat)
    requires pos < |queue| && forall k, l | 0 <= k < l < |queue| :: queue[k] != queue[l]
    ensures var rest := queue[..pos] + queue[pos + 1..];
            && (forall k, l | 0 <= k < l < |rest| :: rest[k] != rest[l])
            && (forall x :: x in rest <==> x in queue && x != queue[pos])
  {
    var rest := queue[..pos] + queue[pos + 1..];
    forall x
      ensures x in rest <==> x in queue && x != queue[pos]
    {
      if x in queue && x != queue[pos] {
        var k :| 0 <= k < |queue| && queue[k] == x;
        assert rest[if k < pos then k else k - 1] == x;
      }
    }
  }

  lemma QueuePopped(st: State, st': State, pos: nat)
    requires QueueOk(st) && pos < |st.retryQueue|
    requires st'.retryQueue == st.retryQueue[..pos] + st.retryQueue[pos + 1..] && st'.nextFresh == st.nextFresh
    requires |st'.chunks| == |st.chunks|
    requires st'.chunks[st.retryQueue[pos]].status.Assigned?
    requires forall i | 0 <= i < |st.chunks| && i != st.retryQueue[pos] :: st'.chunks[i].status == st.chunks[i].status
    ensures QueueOk(st')
  {
    WithoutEntry(st.retryQueue, pos);
    forall k | 0 <= k < |st'.retryQueue|
      ensures st'.retryQueue[k] < |st'.chunks| && st'.chunks[st'.retryQueue[k]].status.Failed?
    {
      assert st'.retryQueue[k] in st.retryQueue;
    }
  }

  lemma QueuePushed(st: State, st': State, id: nat)
    requires QueueOk(st) && id < |st.chunks| && !st.chunks[id].status.Failed?
    requires st'.retryQueue == st.retryQueue + [id] && st'.nextFresh == st.nextFresh
    requires |st.chunks| <= |st'.chunks| && st'.chunks[id].status.Failed?
    requires forall i | 0 <= i < |st.chunks| && i != id :: st'.chunks[i].status == st.chunks[i].status
    requires forall i | |st.chunks| <= i < |st'.chunks| :: !st'.chunks[i].status.Failed?
    ensures QueueOk(st')
  {
    assert id !in st.retryQueue;
  }

  // ---------------------------------------------------------------- each operation keeps it all

  lemma SameRows(st: State, st': State)
    requires RowsSound(st)
    requires st'.chunks == st.chunks && st'.offsets == st.offsets && st'.attempts == st.attempts
    requires st'.total == st.total && st'.completed == st.completed && st'.maxRetries == st.maxRetries
    requires st'.fatal == st.fatal || st'.fatal.Some?
    ensures RowsSound(st')
  {
    assert RangesOf(st') == RangesOf(st) && CompletedFlags(st') == CompletedFlags(st);
    forall i | 0 <= i < |st'.chunks|
      ensures RowOk(st', i)
    {
      assert RowOk(st, i);
    }
  }

  lemma GetNextWorkIsSound(st: State, worker: nat, mirror: nat, now: real)
    requires Sound(st)
    ensures QueueInRange(st) && Sound(GetNextWork(st, worker, mirror, now).0)
  {
    SoundHandles(st);
    hide Sound, QueueInRange, Assign;
    if st.fatal.None? {
      if FirstReady(st, 0, now).Some? {
        RetryIsSound(st, FirstReady(st, 0, now).value, worker, mirror, now);
      } else if FirstFresh(st, st.nextFresh).Some? {
        FreshIsSound(st, FirstFresh(st, st.nextFresh).value, worker, mirror, now);
      } else {
        AllHandedOutIsSound(st);
      }
    }
  }

  lemma FreshIsSound(st: State, id: nat, worker: nat, mirror: nat, now: real)
    requires Sound(st) && st.nextFresh <= id < |st.chunks| && st.chunks[id].status.Unassigned?
    requires forall j | st.nextFresh <= j < id :: !st.chunks[j].status.Unassigned?
    ensures Sound(Assign(st.(nextFresh := id + 1), id, worker, mirror, now))
  {
    SameRows(st, st.(nextFresh := id + 1));
    AssignKeepsRows(st.(nextFresh := id + 1), id, worker, mirror, now);
  }

  lemma AllHandedOutIsSound(st: State)
    requires Sound(st)
    requires forall j | st.nextFresh <= j < |st.chunks| :: !st.chunks[j].status.Unassigned?
    ensures Sound(st.(nextFresh := Max(st.nextFresh, |st.chunks|)))
  {
    SameRows(st, st.(nextFresh := Max(st.nextFresh, |st.chunks|)));
  }

  lemma RetryIsSound(st: State, pos: nat, worker: nat, mirror: nat, now: real)
    requires Sound(st) && pos < |st.retryQueue| && st.retryQueue[pos] < |st.chunks|
    ensures Sound(Assign(st.(retryQueue := st.retryQueue[..pos] + st.retryQueue[pos + 1..]),
                         st.retryQueue[pos], worker, mirror, now))
  {
    var popped := st.(retryQueue := st.retryQueue[..pos] + st.retryQueue[pos + 1..]);
    SameRows(st, popped);
    AssignKeepsRows(popped, st.retryQueue[pos], worker, mirror, now);
    QueuePopped(st, Assign(popped, st.retryQueue[pos], worker, mirror, now), pos);
  }

  lemma AssignAtIsSound(st: State, worker: nat, mirror: nat, start: nat, end: nat, now: real)
    requires Sound(st)
    ensures HandlesInRange(st) && Sound(AssignAt(st, worker, mirror, start, end, now).0)
  {
    SoundHandles(st);
    if st.fatal.None? && start <= end {
      match FreshAt(st, 0, start) {
        case None =>
        case Some(id) =>
          if st.chunks[id].range.end > end {
            CutAtIsSound(st, id, end, worker, mirror, now);
          } else {
            AssignKeepsRows(st, id, worker, mirror, now);
            QueueKept(st, Assign(st, id, worker, mirror, now));
          }
      }
    }
  }

  /** A fresh chunk handed out only up to `end` leaves the rest as a fresh chunk. */
  lemma CutAtIsSound(st: State, id: nat, end: nat, worker: nat, mirror: nat, now: real)
    requires Sound(st) && HandlesInRange(st) && id < |st.chunks| && st.chunks[id].status.Unassigned?
    requires st.chunks[id].range.start <= end < st.chunks[id].range.end
    ensures Sound(Assign(Push(Truncate(st, id, end), ByteRange(end + 1, st.chunks[id].range.end), Unassigned),
                         id, worker, mirror, now))
  {
    TruncateKeepsRows(st, id, end);
    var cut := Push(Truncate(st, id, end), ByteRange(end + 1, st.chunks[id].range.end), Unassigned);
    AssignKeepsRows(cut, id, worker, mirror, now);
    QueueKept(st, Assign(cut, id, worker, mirror, now));
  }

  lemma SplitForThiefIsSound(st: State, victim: nat, split: nat, worker: nat, mirror: nat, now: real)
    requires Sound(st) && victim < |st.chunks| && st.chunks[victim].status.Assigned?
    requires st.chunks[victim].range.start < split <= st.chunks[victim].range.end
    ensures HandlesInRange(st) && Sound(SplitForThief(st, victim, split, worker, mirror, now))
  {
    SoundHandles(st);
    SplitKeepsRows(st, victim, split, worker, mirror, now);
    hide RowsSound;
    QueueKept(st, SplitForThief(st, victim, split, worker, mirror, now));
  }

  lemma SplitKeepsRows(st: State, victim: nat, split: nat, worker: nat, mirror: nat, now: real)
    requires RowsSound(st) && HandlesInRange(st) && victim < |st.chunks| && st.chunks[victim].status.Assigned?
    requires st.chunks[victim].range.start < split <= st.chunks[victim].range.end
    ensures RowsSound(SplitForThief(st, victim, split, worker, mirror, now))
  {
    assert RowOk(st, victim);
    TruncateKeepsRows(st, victim, split - 1);
    AssignKeepsRows(Push(Truncate(st, victim, split - 1), ByteRange(split, st.chunks[victim].range.end), Unassigned),
                    |st.chunks|, worker, mirror, now);
  }

  lemma TakeOverIsSound(st: State, id: nat, worker: nat, mirror: nat, now: real)
    requires Sound(st) && id < |st.chunks| && st.chunks[id].status.Assigned?
    ensures HandlesInRange(st) && Sound(TakeOver(st, id, worker, mirror, now).0)
  {
    SoundHandles(st);
    assert RowOk(st, id);
    var c, o := st.chunks[id], OffsetsOf(st, id);
    var st' := TakeOver(st, id, worker, mirror, now).0;
    if Max(o.cur, c.range.start) > o.end {
      assert st' == SetOffsets(Complete(st, id), c.offsets, o.(revoked := true));
      FoundDoneKeepsRows(st, id);
    } else {
      TakeOverKeepsRows(st, id, worker, mirror, now);
    }
    QueueKept(st, st');
  }

  /** A silent chunk that turns out to be written completes, its worker revoked. */
  lemma FoundDoneKeepsRows(st: State, id: nat)
    requires RowsSound(st) && HandlesInRange(st) && id < |st.chunks| && st.chunks[id].status.Assigned?
    ensures RowsSound(SetOffsets(Complete(st, id), st.chunks[id].offsets, OffsetsOf(st, id).(revoked := true)))
  {
    CompleteKeepsRows(st, id);
    assert forall i | 0 <= i < |st.chunks| && i != id :: st.chunks[i].offsets != st.chunks[id].offsets;
    StrayOffsetsKeepRows(Complete(st, id), st.chunks[id].offsets, OffsetsOf(st, id).(revoked := true));
  }

  lemma TakeOverKeepsRows(st: State, id: nat, worker: nat, mirror: nat, now: real)
    requires RowsSound(st) && HandlesInRange(st) && id < |st.chunks| && st.chunks[id].status.Assigned?
    requires OffsetsOf(st, id).cur <= OffsetsOf(st, id).end
    ensures RowsSound(TakeOver(st, id, worker, mirror, now).0)
  {
    assert RowOk(st, id);
    var c, o := st.chunks[id], OffsetsOf(st, id);
    var split := st;
    if o.cur > c.range.start {
      SplitOffKeepsRows(st, id, o.cur);
      split := SplitOff(st, id, o.cur);
    }
    RenewKeepsRows(split, id, o.cur, o.end);
    var renewed := Renew(split, id, o.cur, o.end);
    StrayOffsetsKeepRows(renewed, c.offsets, o.(revoked := true));
    var stray := SetOffsets(renewed, c.offsets, o.(revoked := true));
    AssignKeepsRows(stray, id, worker, mirror, now);
    TakeOverInSteps(st, id, worker, mirror, now, split, stray);
  }

  /** Revoking first or last makes no difference to where a take-over ends. */
  lemma TakeOverInSteps(st: State, id: nat, worker: nat, mirror: nat, now: real, split: State, stray: State)
    requires RowsSound(st) && HandlesInRange(st) && id < |st.chunks|
    requires st.chunks[id].range.start <= OffsetsOf(st, id).cur <= OffsetsOf(st, id).end
    requires split == if OffsetsOf(st, id).cur > st.chunks[id].range.start then SplitOff(st, id, OffsetsOf(st, id).cur) else st
    requires var o := OffsetsOf(st, id);
             st.chunks[id].offsets < |st.offsets| <= |split.offsets| && id < |split.chunks|
             && stray == SetOffsets(Renew(split, id, o.cur, o.end), st.chunks[id].offsets, o.(revoked := true))
    ensures TakeOver(st, id, worker, mirror, now) == (Assign(stray, id, worker, mirror, now), Some(id))
  {
    var st' := TakeOver(st, id, worker, mirror, now).0;
    assert st'.offsets == stray.offsets;
    assert st'.chunks == Assign(stray, id, worker, mirror, now).chunks;
  }

  function Renew(st: State, id: nat, pos: nat, end: nat): State
    requires id < |st.chunks|
  {
    Update(st, id, st.chunks[id].(offsets := |st.offsets|)).(offsets := st.offsets + [Offsets(pos, end, false)])
  }

  lemma RenewKeepsRows(st: State, id: nat, pos: nat, end: nat)
    requires RowsSound(st) && id < |st.chunks| && st.chunks[id].status.Assigned?
    requires st.chunks[id].range.start == pos && st.chunks[id].range.end == end
    ensures RowsSound(Renew(st, id, pos, end))
    ensures forall i | 0 <= i < |st.chunks| :: Renew(st, id, pos, end).chunks[i].offsets != st.chunks[id].offsets
  {
    var st' := Renew(st, id, pos, end);
    assert RangesOf(st') == RangesOf(st) && CompletedFlags(st') == CompletedFlags(st);
    forall i | 0 <= i < |st'.chunks|
      ensures RowOk(st', i) && st'.chunks[i].offsets != st.chunks[id].offsets
    {
      assert RowOk(st, i) && RowOk(st, id);
      if i != id {
        assert st.chunks[i].offsets != st.chunks[id].offsets;
      }
    }
    forall i, j | 0 <= i < j < |st'.chunks|
      ensures st'.chunks[i].offsets != st'.chunks[j].offsets
    {
      assert RowOk(st, i) && RowOk(st, j);
    }
  }

  lemma MarkCompletedIsSound(st: State, id: nat)
    requires Sound(st) && id < |st.chunks| && st.chunks[id].status.Assigned?
    ensures Sound(MarkCompleted(st, id).0)
  {
    CompleteKeepsRows(st, id);
    QueueKept(st, Complete(st, id));
  }

  lemma MarkFailedIsSound(st: State, id: nat, reason: string, minDelay: real, counts: bool, now: real, fraction: real)
    requires Sound(st) && id < |st.chunks| && st.chunks[id].status.Assigned?
    ensures HandlesInRange(st) && Sound(MarkFailed(st, id, reason, minDelay, counts, now, fraction).0)
  {
    SoundHandles(st);
    assert RowOk(st, id);
    var c, o := st.chunks[id], OffsetsOf(st, id);
    if o.cur > c.range.end {
      MarkCompletedIsSound(st, id);
    } else if o.cur > c.range.start {
      SplitAndRequeueIsSound(st, id, reason, minDelay, now, fraction);
    } else {
      RequeueKeepsRows(st, id, reason, minDelay, counts, now, fraction);
      QueuePushed(st, Requeue(st, id, reason, minDelay, counts, now, fraction), id);
    }
  }

  /** A failed chunk that wrote something keeps it as a completed chunk of its own, and the rest waits. */
  lemma SplitAndRequeueIsSound(st: State, id: nat, reason: string, minDelay: real, now: real, fraction: real)
    requires Sound(st) && HandlesInRange(st) && id < |st.chunks| && st.chunks[id].status.Assigned?
    requires st.chunks[id].range.start < OffsetsOf(st, id).cur <= st.chunks[id].range.end
    ensures var split := SplitOff(Update(st, id, st.chunks[id].(retries := 0)), id, OffsetsOf(st, id).cur);
            Sound(Requeue(split, id, reason, minDelay, false, now, fraction))
  {
    SplitAndRequeueKeepsRows(st, id, reason, minDelay, now, fraction);
    SplitAndRequeueKeepsQueue(st, id, OffsetsOf(st, id).cur, reason, minDelay, now, fraction);
    hide RowsSound, QueueOk, Requeue, SplitOff;
  }

  lemma SplitAndRequeueKeepsRows(st: State, id: nat, reason: string, minDelay: real, now: real, fraction: real)
    requires RowsSound(st) && HandlesInRange(st) && id < |st.chunks| && st.chunks[id].status.Assigned?
    requires st.chunks[id].range.start < OffsetsOf(st, id).cur <= st.chunks[id].range.end
    ensures var split := SplitOff(Update(st, id, st.chunks[id].(retries := 0)), id, OffsetsOf(st, id).cur);
            RowsSound(Requeue(split, id, reason, minDelay, false, now, fraction))
  {
    assert RowOk(st, id);
    ResetKeepsRows(st, id);
    var reset := Update(st, id, st.chunks[id].(retries := 0));
    SplitOffKeepsRows(reset, id, OffsetsOf(st, id).cur);
    RequeueKeepsRows(SplitOff(reset, id, OffsetsOf(st, id).cur), id, reason, minDelay, false, now, fraction);
  }

  lemma SplitAndRequeueKeepsQueue(st: State, id: nat, pos: nat, reason: string, minDelay: real, now: real, fraction: real)
    requires QueueOk(st) && id < |st.chunks| && st.chunks[id].status.Assigned? && pos > 0
    ensures var split := SplitOff(Update(st, id, st.chunks[id].(retries := 0)), id, pos);
            QueueOk(Requeue(split, id, reason, minDelay, false, now, fraction))
  {
    var split := SplitOff(Update(st, id, st.chunks[id].(retries := 0)), id, pos);
    QueuePushed(st, Requeue(split, id, reason, minDelay, false, now, fraction), id);
  }

  lemma ResetKeepsRows(st: State, id: nat)
    requires RowsSound(st) && id < |st.chunks|
    ensures RowsSound(Update(st, id, st.chunks[id].(retries := 0)))
  {
    var reset := Update(st, id, st.chunks[id].(retries := 0));
    assert RangesOf(reset) == RangesOf(st) && CompletedFlags(reset) == CompletedFlags(st);
    forall i | 0 <= i < |reset.chunks|
      ensures RowOk(reset, i)
    {
      assert RowOk(st, i);
    }
  }

  lemma AbortIsSound(st: State, id: nat, reason: string)
    requires Sound(st)
    ensures Sound(Abort(st, id, reason))
  {
    SameRows(st, Abort(st, id, reason));
  }
}
