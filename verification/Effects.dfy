/**
 What each operation of the scheduler does to the chunk list, chunk by chunk: the row and the cells it
 changes, what it adds, and that all else is as it was.
 */
module Effects {
  import opened Basics
  import opened Ranges
  import opened Chunks
  import opened ChunkInvariants

  /**
   From `st` to `st'` no chunk but `id` has changed, and `more` were added at the end. No offsets
   but those of `id` have changed, and no attempt record at all.
   */
  ghost predicate OthersStay(st: State, st': State, id: nat, more: nat)
    requires id < |st.chunks|
  {
    && |st'.chunks| == |st.chunks| + more
    && (forall i | 0 <= i < |st.chunks| && i != id :: st'.chunks[i] == st.chunks[i])
    && |st.offsets| <= |st'.offsets|
    && (forall h | 0 <= h < |st.offsets| && h != st.chunks[id].offsets :: st'.offsets[h] == st.offsets[h])
    && |st.attempts| <= |st'.attempts|
    && (forall a | 0 <= a < |st.attempts| :: st'.attempts[a] == st.attempts[a])
  }

  /** Chunk `id` has just been given to `worker`, who has all of `range` to fetch and has told nothing yet. */
  ghost predicate GivenTo(st: State, id: nat, range: ByteRange, worker: nat, mirror: nat, now: real) {
    && id < |st.chunks|
    && var c := st.chunks[id];
    && c.id == id && c.range == range && c.status == Assigned(worker, mirror)
    && c.notBefore == None && c.assignedAt == Some(now)
    && c.offsets < |st.offsets| && st.offsets[c.offsets] == Offsets(range.start, range.end, false)
    && c.attempt < |st.attempts| && st.attempts[c.attempt] == NEW_ATTEMPT
  }

  /** The last chunk is new, with cells of its own. */
  ghost predicate Added(st: State, range: ByteRange, status: Status) {
    && |st.chunks| > 0
    && var c := st.chunks[|st.chunks| - 1];
    && c.range == range && c.status == status && c.retries == 0 && c.notBefore == None
    && c.offsets < |st.offsets| && st.offsets[c.offsets] == Offsets(range.start, range.end, false)
    && c.attempt < |st.attempts| && st.attempts[c.attempt] == NEW_ATTEMPT
  }

  // ---------------------------------------------------------------- handing out

  predicate FreshFrom(st: State, i: nat, start: nat)
    requires i < |st.chunks|
  {
    st.chunks[i].status.Unassigned? && st.chunks[i].range.start == start
  }

  /**
   Work at byte `start` is given exactly when the download has not failed, the range asked for is not
   empty, and a chunk never handed out starts there. That chunk is given up to `end` or its own end,
   whichever comes first; what lies behind is added as one more chunk, which nobody has.
   */
  lemma AssignAtGives(st: State, worker: nat, mirror: nat, start: nat, end: nat, now: real)
    requires Sound(st)
    ensures HandlesInRange(st)
    ensures var (st', given) := AssignAt(st, worker, mirror, start, end, now);
            && (given.Some? <==>
                  st.fatal.None? && start <= end && exists i :: 0 <= i < |st.chunks| && FreshFrom(st, i, start))
            && (given.None? ==> st' == st)
            && (given.Some? ==>
                  && given.value < |st.chunks| && FreshFrom(st, given.value, start)
                  && var oldEnd := st.chunks[given.value].range.end;
                  && GivenTo(st', given.value, ByteRange(start, Min(end, oldEnd)), worker, mirror, now)
                  && OthersStay(st, st', given.value, if oldEnd > end then 1 else 0)
                  && (oldEnd > end ==> Added(st', ByteRange(end + 1, oldEnd), Unassigned))
                  && st' == st.(chunks := st'.chunks, offsets := st'.offsets, attempts := st'.attempts))
  {
    hide RowsOk, Tiles, FreshAt, Truncate, Push, Assign, GivenTo, OthersStay, Added, QueueOk, HandlesInRange;
    SoundHandles(st);
    FreshAtFinds(st, start);
    var at := FreshAt(st, 0, start);
    if st.fatal.None? && start <= end && at.Some? {
      if st.chunks[at.value].range.end > end {
        CutGives(st, at.value, end, worker, mirror, now);
      } else {
        WholeGives(st, at.value, worker, mirror, now);
      }
    }
  }

  lemma FreshAtFinds(st: State, start: nat)
    ensures match FreshAt(st, 0, start)
            case Some(id) => id < |st.chunks| && FreshFrom(st, id, start)
            case None => forall i | 0 <= i < |st.chunks| :: !FreshFrom(st, i, start)
  {
  }

  lemma WholeGives(st: State, id: nat, worker: nat, mirror: nat, now: real)
    requires Sound(st) && id < |st.chunks| && (st.chunks[id].status.Unassigned? || st.chunks[id].status.Failed?)
    ensures var st' := Assign(st, id, worker, mirror, now);
            && GivenTo(st', id, st.chunks[id].range, worker, mirror, now) && OthersStay(st, st', id, 0)
            && st'.chunks[id].retries == st.chunks[id].retries
            && st' == st.(chunks := st'.chunks, attempts := st'.attempts)
  {
    assert RowOk(st, id);
  }

  lemma CutGives(st: State, id: nat, end: nat, worker: nat, mirror: nat, now: real)
    requires Sound(st) && HandlesInRange(st) && id < |st.chunks| && st.chunks[id].status.Unassigned?
    requires st.chunks[id].range.start <= end < st.chunks[id].range.end
    ensures var (start, oldEnd) := (st.chunks[id].range.start, st.chunks[id].range.end);
            var st' := Assign(Push(Truncate(st, id, end), ByteRange(end + 1, oldEnd), Unassigned), id, worker, mirror, now);
            && GivenTo(st', id, ByteRange(start, end), worker, mirror, now) && OthersStay(st, st', id, 1)
            && Added(st', ByteRange(end + 1, oldEnd), Unassigned)
            && st' == st.(chunks := st'.chunks, offsets := st'.offsets, attempts := st'.attempts)
  {
    assert RowOk(st, id);
  }

  /** Place `pos` of the queue holds the first chunk there that need not wait any longer. */
  predicate FirstDue(st: State, pos: nat, now: real)
    requires QueueInRange(st) && pos < |st.retryQueue|
  {
    && IsDue(st, st.retryQueue[pos], now)
    && forall k | 0 <= k < pos :: !IsDue(st, st.retryQueue[k], now)
  }

  predicate IsDue(st: State, i: nat, now: real)
    requires i < |st.chunks|
  {
    st.chunks[i].notBefore.Some? ==> st.chunks[i].notBefore.value <= now
  }

  /**
   The next work is the first chunk of the retry queue that is due, which leaves the queue; without
   one, the first chunk never handed out; without either there is none. All of it is given, as it is.
   */
  lemma GetNextWorkGives(st: State, worker: nat, mirror: nat, now: real)
    requires Sound(st)
    ensures QueueInRange(st)
    ensures var (st', given) := GetNextWork(st, worker, mirror, now);
            var queue := st.retryQueue;
            && (given.None? ==> st' == st.(nextFresh := st'.nextFresh))
            && (given.None? <==>
                  st.fatal.Some?
                  || ((forall k | 0 <= k < |queue| :: !IsDue(st, queue[k], now))
                      && (forall i | 0 <= i < |st.chunks| :: !st.chunks[i].status.Unassigned?)))
            && (given.Some? ==>
                  && given.value < |st.chunks|
                  && GivenTo(st', given.value, st.chunks[given.value].range, worker, mirror, now)
                  && st'.chunks[given.value].retries == st.chunks[given.value].retries
                  && OthersStay(st, st', given.value, 0)
                  && st' == st.(chunks := st'.chunks, attempts := st'.attempts, retryQueue := st'.retryQueue, nextFresh := st'.nextFresh)
                  && if exists k :: 0 <= k < |queue| && IsDue(st, queue[k], now) then
                       exists pos :: && 0 <= pos < |queue| && FirstDue(st, pos, now) && queue[pos] == given.value
                                     && st'.retryQueue == queue[..pos] + queue[pos + 1..]
                     else
                       && st.chunks[given.value].status.Unassigned? && st'.retryQueue == queue
                       && forall i | 0 <= i < given.value :: !st.chunks[i].status.Unassigned?)
  {
    hide RowsSound, FirstReady, FirstFresh, Assign, GivenTo, OthersStay, FirstDue, Ready;
    SoundHandles(st);
    FirstReadyIsDue(st, now);
    FirstFreshIsFirst(st);
    var (ready, first) := (FirstReady(st, 0, now), FirstFresh(st, st.nextFresh));
    if st.fatal.None? && ready.Some? {
      var queue := st.retryQueue[..ready.value] + st.retryQueue[ready.value + 1..];
      RetryGives(st, ready.value, queue, worker, mirror, now);
    } else if st.fatal.None? && first.Some? {
      FreshGives(st, first.value, worker, mirror, now);
    }
  }

  lemma FirstReadyIsDue(st: State, now: real)
    requires QueueInRange(st)
    ensures match FirstReady(st, 0, now)
            case Some(pos) => pos < |st.retryQueue| && FirstDue(st, pos, now) && IsDue(st, st.retryQueue[pos], now)
            case None => forall k | 0 <= k < |st.retryQueue| :: !IsDue(st, st.retryQueue[k], now)
  {
    assert forall k | 0 <= k < |st.retryQueue| :: Ready(st.chunks[st.retryQueue[k]], now) == IsDue(st, st.retryQueue[k], now);
  }

  lemma FirstFreshIsFirst(st: State)
    requires QueueOk(st)
    ensures match FirstFresh(st, st.nextFresh)
            case Some(id) => id < |st.chunks| && st.chunks[id].status.Unassigned?
                             && forall i | 0 <= i < id :: !st.chunks[i].status.Unassigned?
            case None => forall i | 0 <= i < |st.chunks| :: !st.chunks[i].status.Unassigned?
  {
  }

  lemma RetryGives(st: State, pos: nat, rest: seq<nat>, worker: nat, mirror: nat, now: real)
    requires Sound(st) && pos < |st.retryQueue|
    requires st.retryQueue[pos] < |st.chunks|
    ensures var (st', id) := (Assign(st.(retryQueue := rest), st.retryQueue[pos], worker, mirror, now), st.retryQueue[pos]);
            && GivenTo(st', id, st.chunks[id].range, worker, mirror, now) && OthersStay(st, st', id, 0)
            && st'.chunks[id].retries == st.chunks[id].retries
            && st' == st.(chunks := st'.chunks, attempts := st'.attempts, retryQueue := rest)
  {
    WholeGives(st, st.retryQueue[pos], worker, mirror, now);
    hide RowsSound;
  }

  lemma FreshGives(st: State, id: nat, worker: nat, mirror: nat, now: real)
    requires Sound(st) && id < |st.chunks| && st.chunks[id].status.Unassigned?
    ensures var st' := Assign(st.(nextFresh := id + 1), id, worker, mirror, now);
            && GivenTo(st', id, st.chunks[id].range, worker, mirror, now) && OthersStay(st, st', id, 0)
            && st'.chunks[id].retries == st.chunks[id].retries
            && st' == st.(chunks := st'.chunks, attempts := st'.attempts, nextFresh := id + 1)
  {
    WholeGives(st, id, worker, mirror, now);
    hide RowsSound;
  }

  /**
   A chunk that is taken over: its old worker is revoked, what that had written becomes a completed
   chunk of its own, and the rest is given to the new one under other offsets. If all was written
   the chunk is completed, and nothing is given.
   */
  lemma TakeOverGives(st: State, id: nat, worker: nat, mirror: nat, now: real)
    requires Sound(st) && id < |st.chunks| && st.chunks[id].status.Assigned?
    ensures HandlesInRange(st)
    ensures var (st', given) := TakeOver(st, id, worker, mirror, now);
            var (range, o) := (st.chunks[id].range, OffsetsOf(st, id));
            && st.chunks[id].offsets < |st'.offsets| && st'.offsets[st.chunks[id].offsets] == o.(revoked := true)
            && st' == st.(chunks := st'.chunks, offsets := st'.offsets, attempts := st'.attempts, completed := st'.completed)
            && if o.cur > range.end then
                 && given.None? && OthersStay(st, st', id, 0) && st'.completed == st.completed + 1
                 && st'.chunks[id] == st.chunks[id].(status := Completed)
               else
                 && given == Some(id) && GivenTo(st', id, ByteRange(o.cur, range.end), worker, mirror, now)
                 && st'.chunks[id].offsets >= |st.offsets| && st'.chunks[id].retries == st.chunks[id].retries
                 && OthersStay(st, st', id, if o.cur > range.start then 1 else 0)
                 && st'.completed == st.completed + (if o.cur > range.start then 1 else 0)
                 && (o.cur > range.start ==> Added(st', ByteRange(range.start, o.cur - 1), Completed))
  {
    SoundHandles(st);
    assert RowOk(st, id);
  }

  /** A split leaves its chunk's worker all before `split`, and gives the rest to the thief as a new chunk. */
  lemma SplitGives(st: State, victim: nat, split: nat, worker: nat, mirror: nat, now: real)
    requires Sound(st) && victim < |st.chunks| && st.chunks[victim].status.Assigned?
    requires st.chunks[victim].range.start < split <= st.chunks[victim].range.end
    ensures HandlesInRange(st)
    ensures var st' := SplitForThief(st, victim, split, worker, mirror, now);
            var (range, o) := (st.chunks[victim].range, OffsetsOf(st, victim));
            && st'.chunks[victim] == st.chunks[victim].(range := ByteRange(range.start, split - 1))
            && st'.offsets[st.chunks[victim].offsets] == o.(end := split - 1)
            && GivenTo(st', |st.chunks|, ByteRange(split, range.end), worker, mirror, now)
            && OthersStay(st, st', victim, 1)
            && st' == st.(chunks := st'.chunks, offsets := st'.offsets, attempts := st'.attempts)
  {
    SoundHandles(st);
    assert RowOk(st, victim);
  }

  // ---------------------------------------------------------------- settling

  /** A chunk is completed once, and nothing else changes; an id that names none is told so. */
  lemma MarkCompletedDoes(st: State, id: nat)
    ensures var (st', outcome) := MarkCompleted(st, id);
            && (outcome == NotFound <==> id >= |st.chunks|)
            && if id < |st.chunks| && !st.chunks[id].status.Completed? then
                 && |st'.chunks| == |st.chunks| && st'.chunks[id] == st.chunks[id].(status := Completed)
                 && (forall i | 0 <= i < |st.chunks| && i != id :: st'.chunks[i] == st.chunks[i])
                 && st' == st.(chunks := st'.chunks, completed := st.completed + 1)
               else
                 st' == st
  {
  }

  /** How long a failed chunk waits: what is asked for, and if the failure counts its backoff as well, the larger of both. */
  predicate IsDelay(delay: real, minDelay: real, counted: bool, backoff: real) {
    && delay >= minDelay && (counted ==> delay >= backoff)
    && (delay == minDelay || (counted && delay == backoff))
  }

  /**
   A failure at an attempt that had written all completes its chunk. One that had written something
   leaves that as a completed chunk and forgives earlier failures; one that had written nothing adds
   to them if it counts, and ends the download when they are more than allowed. The rest goes to the
   end of the queue, and waits there for exactly as long as it has to.
   */
  lemma MarkFailedDoes(st: State, id: nat, reason: string, minDelay: real, counts: bool, now: real, fraction: real)
    requires Sound(st) && id < |st.chunks| && st.chunks[id].status.Assigned?
    ensures HandlesInRange(st)
    ensures var (st', outcome) := MarkFailed(st, id, reason, minDelay, counts, now, fraction);
            var (c, cur) := (st.chunks[id], OffsetsOf(st, id).cur);
            && outcome == Ok
            && if cur > c.range.end then
                 st' == st.(chunks := st.chunks[id := c.(status := Completed)], completed := st.completed + 1)
               else
                 var wrote := cur > c.range.start;
                 var retries := if wrote then 0 else if counts then c.retries + 1 else c.retries;
                 && OthersStay(st, st', id, if wrote then 1 else 0)
                 && (wrote ==> Added(st', ByteRange(c.range.start, cur - 1), Completed))
                 && var row := st'.chunks[id];
                 && row.notBefore.Some? && IsDelay(row.notBefore.value - now, minDelay, counts && !wrote, BackoffDelay(retries, fraction))
                 && row == c.(range := ByteRange(cur, c.range.end), status := Failed(reason, retries), retries := retries,
                              notBefore := row.notBefore)
                 && st'.offsets[c.offsets] == st.offsets[c.offsets]
                 && st' == st.(chunks := st'.chunks, offsets := st'.offsets, attempts := st'.attempts,
                               completed := st.completed + (if wrote then 1 else 0),
                               retryQueue := st.retryQueue + [id],
                               fatal := if retries > st.maxRetries && st.fatal.None? then Some((id, reason)) else st.fatal)
  {
    SoundHandles(st);
    assert RowOk(st, id);
  }
}
