/** The bytes a manager reports as done: their count, and which operations leave them as they were. */
module Conservation {
  import opened Basics
  import opened Ranges
  import opened Sorting
  import opened Chunks
  import opened ChunkInvariants

  /** Byte `b` is in the part of chunk `i` that counts as done. */
  predicate InPrefix(st: State, i: nat, b: nat)
    requires HandlesInRange(st) && i < |st.chunks|
  {
    st.chunks[i].range.Contains(b) && (st.chunks[i].status.Completed? || b < OffsetsOf(st, i).cur)
  }

  ghost predicate Recorded(st: State, b: nat)
    requires HandlesInRange(st)
  {
    exists i: nat :: i < |st.chunks| && InPrefix(st, i, b)
  }

  /** `st'` reports the same bytes as `st`. */
  ghost predicate SameRecord(st: State, st': State) {
    && HandlesInRange(st) && HandlesInRange(st')
    && forall b: nat :: Recorded(st', b) <==> Recorded(st, b)
  }

  ghost predicate RecordWithin(st': State, st: State) {
    && HandlesInRange(st) && HandlesInRange(st')
    && forall b: nat :: Recorded(st', b) ==> Recorded(st, b)
  }

  // ---------------------------------------------------------------- the reports

  lemma {:induction false} PrefixesCover(st: State, n: nat, b: nat)
    requires RowsSound(st) && HandlesInRange(st) && n <= |st.chunks|
    ensures AllValid(Prefixes(st, n))
    ensures Covers(Prefixes(st, n), b) <==> exists i: nat :: i < n && InPrefix(st, i, b)
  {
    if n > 0 {
      PrefixesCover(st, n - 1, b);
      assert RowOk(st, n - 1) && RangesOf(st)[n - 1] == st.chunks[n - 1].range;
      match WrittenPrefix(st.chunks[n - 1], OffsetsOf(st, n - 1)) {
        case Some(r) =>
          CoversConcat(Prefixes(st, n - 1), [r], b);
          CoversOne(r, b);
          assert r.Contains(b) <==> InPrefix(st, n - 1, b);
        case None =>
          assert !InPrefix(st, n - 1, b);
      }
      assert (exists i: nat :: i < n && InPrefix(st, i, b))
          <==> (exists i: nat :: i < n - 1 && InPrefix(st, i, b)) || InPrefix(st, n - 1, b);
    }
  }

  /** The reported ranges are the canonical form of exactly the recorded bytes. */
  lemma CompletedRangesAreTheRecord(st: State)
    requires RowsSound(st) && HandlesInRange(st)
    ensures Canonical(CompletedRanges(st))
    ensures forall b: nat :: Covers(CompletedRanges(st), b) <==> Recorded(st, b)
  {
    PrefixesCover(st, |st.chunks|, 0);
    MergedIsCanonical(Prefixes(st, |st.chunks|));
    forall b: nat
      ensures Covers(CompletedRanges(st), b) <==> Recorded(st, b)
    {
      PrefixesCover(st, |st.chunks|, b);
    }
  }

  ghost function Span(start: nat, len: nat): (bytes: set<nat>)
    ensures |bytes| == len
    ensures forall b :: b in bytes <==> start <= b < start + len
  {
    if len == 0 then {} else Span(start, len - 1) + {start + len - 1}
  }

  ghost predicate RecordedIn(st: State, n: nat, b: nat)
    requires HandlesInRange(st) && n <= |st.chunks|
  {
    exists i: nat :: i < n && InPrefix(st, i, b)
  }

  /** The recorded bytes of the first `n` chunks. */
  ghost function RecordedBytes(st: State, n: nat): set<nat>
    requires HandlesInRange(st) && n <= |st.chunks|
  {
    set b | b in Span(0, st.total) && RecordedIn(st, n, b)
  }

  /** The done bytes of chunk `i`, as many as its length says. */
  ghost function DoneSpan(st: State, i: nat): (bytes: set<nat>)
    requires HandlesInRange(st) && i < |st.chunks|
    ensures |bytes| == DoneBytes(st.chunks[i], OffsetsOf(st, i))
  {
    Span(st.chunks[i].range.start, DoneBytes(st.chunks[i], OffsetsOf(st, i)))
  }

  lemma DoneSpanIsPrefix(st: State, i: nat, b: nat)
    requires RowsSound(st) && HandlesInRange(st) && i < |st.chunks|
    ensures b in DoneSpan(st, i) <==> InPrefix(st, i, b)
    ensures InPrefix(st, i, b) ==> b < st.total
  {
    assert RowOk(st, i) && RangesOf(st)[i] == st.chunks[i].range;
  }

  lemma PrefixesAreDisjoint(st: State, i: nat, j: nat, b: nat)
    requires RowsSound(st) && HandlesInRange(st) && i < j < |st.chunks|
    ensures !(InPrefix(st, i, b) && InPrefix(st, j, b))
  {
    assert !RangesOf(st)[i].Intersects(RangesOf(st)[j]);
  }

  lemma DisjointSizes(a: set<nat>, b: set<nat>)
    requires a !! b
    ensures |a + b| == |a| + |b|
  {
  }

  /** Chunk `n` adds its own done bytes to those of the chunks before it. */
  lemma RecordedBytesStep(st: State, n: nat)
    requires RowsSound(st) && HandlesInRange(st) && n < |st.chunks|
    ensures RecordedBytes(st, n + 1) == RecordedBytes(st, n) + DoneSpan(st, n)
    ensures RecordedBytes(st, n) !! DoneSpan(st, n)
  {
    forall b: nat
      ensures b in RecordedBytes(st, n + 1) <==> b in RecordedBytes(st, n) || b in DoneSpan(st, n)
      ensures !(b in RecordedBytes(st, n) && b in DoneSpan(st, n))
    {
      DoneSpanIsPrefix(st, n, b);
      forall i: nat | i < n
        ensures !(InPrefix(st, i, b) && InPrefix(st, n, b))
      {
        PrefixesAreDisjoint(st, i, n, b);
      }
    }
  }

  lemma LengthsStep(st: State, n: nat)
    requires HandlesInRange(st) && n < |st.chunks|
    ensures Sum(DoneLengths(st)[..n + 1]) == Sum(DoneLengths(st)[..n]) + |DoneSpan(st, n)|
  {
    var lengths := DoneLengths(st);
    assert lengths[..n + 1] == lengths[..n] + [lengths[n]];
    SumAppend(lengths[..n], lengths[n]);
  }

  lemma NoneRecordedYet(st: State)
    requires HandlesInRange(st)
    ensures Sum(DoneLengths(st)[..0]) == |RecordedBytes(st, 0)| == 0
  {
    assert RecordedBytes(st, 0) == {};
  }

  lemma {:induction false} LengthsCountBytes(st: State, n: nat)
    requires RowsSound(st) && HandlesInRange(st) && n <= |st.chunks|
    ensures Sum(DoneLengths(st)[..n]) == |RecordedBytes(st, n)|
  {
    hide *;
    if n == 0 {
      NoneRecordedYet(st);
    } else {
      LengthsCountBytes(st, n - 1);
      LengthsStep(st, n - 1);
      RecordedBytesStep(st, n - 1);
      DisjointSizes(RecordedBytes(st, n - 1), DoneSpan(st, n - 1));
    }
  }

  /** The bytes below `total` that the reported ranges cover. */
  ghost function ReportedBytes(st: State): set<nat>
    requires HandlesInRange(st)
  {
    set b | b in Span(0, st.total) && Covers(CompletedRanges(st), b)
  }

  /** The reported total is the number of distinct bytes in the reported ranges. */
  lemma TotalCountsReportedBytes(st: State)
    requires RowsSound(st) && HandlesInRange(st)
    ensures TotalDownloaded(st) == |ReportedBytes(st)|
  {
    LengthsCountBytes(st, |st.chunks|);
    assert DoneLengths(st)[..|st.chunks|] == DoneLengths(st);
    CompletedRangesAreTheRecord(st);
    assert ReportedBytes(st) == RecordedBytes(st, |st.chunks|);
    assert ReportedBytes(st) <= Span(0, st.total);
    SubsetSize(ReportedBytes(st), Span(0, st.total));
  }

  lemma {:induction false} SubsetSize<T>(a: set<T>, b: set<T>)
    requires a <= b
    ensures |a| <= |b|
  {
    assert b == a + (b - a);
  }

  /** States that record the same bytes report the same ranges and the same total. */
  lemma SameRecordSameReport(st: State, st': State)
    requires RowsSound(st) && RowsSound(st') && SameRecord(st, st') && st'.total == st.total
    ensures CompletedRanges(st') == CompletedRanges(st)
    ensures TotalDownloaded(st') == TotalDownloaded(st)
  {
    CompletedRangesAreTheRecord(st);
    CompletedRangesAreTheRecord(st');
    CanonicalIsUnique(CompletedRanges(st'), CompletedRanges(st));
    TotalCountsReportedBytes(st);
    TotalCountsReportedBytes(st');
  }

  // ---------------------------------------------------------------- the operations

  /** The same bytes of every chunk count as done. */
  lemma SamePrefixes(st: State, st': State)
    requires HandlesInRange(st) && HandlesInRange(st') && |st.chunks| <= |st'.chunks|
    requires forall i: nat, b: nat | i < |st.chunks| :: InPrefix(st', i, b) <==> InPrefix(st, i, b)
    requires forall i: nat, b: nat | |st.chunks| <= i < |st'.chunks| :: !InPrefix(st', i, b)
    ensures SameRecord(st, st')
  {
    forall b: nat
      ensures Recorded(st', b) <==> Recorded(st, b)
    {
      if Recorded(st, b) {
        var i: nat :| i < |st.chunks| && InPrefix(st, i, b);
        assert InPrefix(st', i, b);
      }
      if Recorded(st', b) {
        var i: nat :| i < |st'.chunks| && InPrefix(st', i, b);
        assert InPrefix(st, i, b);
      }
    }
  }

  lemma AssignConserves(st: State, id: nat, worker: nat, mirror: nat, now: real)
    requires HandlesInRange(st) && id < |st.chunks| && !st.chunks[id].status.Completed?
    ensures SameRecord(st, Assign(st, id, worker, mirror, now))
  {
    SamePrefixes(st, Assign(st, id, worker, mirror, now));
  }

  lemma GetNextWorkConserves(st: State, worker: nat, mirror: nat, now: real)
    requires Sound(st)
    ensures HandlesInRange(st) && QueueInRange(st)
    ensures SameRecord(st, GetNextWork(st, worker, mirror, now).0)
  {
    SoundHandles(st);
    SamePrefixes(st, GetNextWork(st, worker, mirror, now).0);
  }

  /** After a cut each prefix is what it was, but that of the chunk cut stops there. */
  lemma CutPrefix(st: State, id: nat, end: nat, i: nat)
    requires RowsSound(st) && HandlesInRange(st) && id < |st.chunks| && !st.chunks[id].status.Completed?
    requires st.chunks[id].range.start <= end < st.chunks[id].range.end
    ensures var st' := Push(Truncate(st, id, end), ByteRange(end + 1, st.chunks[id].range.end), Unassigned);
            && HandlesInRange(st') && |st'.chunks| == |st.chunks| + 1
            && forall b: nat :: if i < |st.chunks| then InPrefix(st', i, b) <==> InPrefix(st, i, b) && (i == id ==> b <= end)
                                else i < |st'.chunks| ==> !InPrefix(st', i, b)
  {
    if i < |st.chunks| && i != id {
      assert st.chunks[Min(i, id)].offsets != st.chunks[Max(i, id)].offsets;
    }
    hide Tiles, CompletedFlags, RowsOk;
  }

  /** A byte of one chunk's range is in no other's prefix. */
  lemma PrefixesApart(st: State, id: nat, i: nat, b: nat)
    requires RowsSound(st) && HandlesInRange(st) && id < |st.chunks| && i < |st.chunks| && i != id
    requires st.chunks[id].range.Contains(b)
    ensures !InPrefix(st, i, b)
  {
    assert !RangesOf(st)[Min(i, id)].Intersects(RangesOf(st)[Max(i, id)]);
  }

  lemma TruncateRecord(st: State, id: nat, end: nat)
    requires RowsSound(st) && HandlesInRange(st) && id < |st.chunks| && !st.chunks[id].status.Completed?
    requires st.chunks[id].range.start <= end < st.chunks[id].range.end
    ensures RecordWithin(Push(Truncate(st, id, end), ByteRange(end + 1, st.chunks[id].range.end), Unassigned), st)
    ensures SameRecord(st, Push(Truncate(st, id, end), ByteRange(end + 1, st.chunks[id].range.end), Unassigned))
       <==> OffsetsOf(st, id).cur <= end + 1
  {
    hide InPrefix, HandlesInRange, RowsSound, Push, Truncate;
    var st' := Push(Truncate(st, id, end), ByteRange(end + 1, st.chunks[id].range.end), Unassigned);
    var cur := OffsetsOf(st, id).cur;
    CutPrefix(st, id, end, 0);
    OwnPrefix(st, id);
    forall b: nat
      ensures Recorded(st', b) ==> Recorded(st, b)
      ensures cur <= end + 1 && Recorded(st, b) ==> Recorded(st', b)
    {
      if Recorded(st', b) {
        var i: nat :| i < |st'.chunks| && InPrefix(st', i, b);
        CutPrefix(st, id, end, i);
        assert InPrefix(st, i, b);
      }
      if cur <= end + 1 && Recorded(st, b) {
        var i: nat :| i < |st.chunks| && InPrefix(st, i, b);
        CutPrefix(st, id, end, i);
        assert InPrefix(st', i, b);
      }
    }
    if cur > end + 1 {
      var past := end + 1;
      assert InPrefix(st, id, past) && Recorded(st, past);
      forall i: nat | i < |st'.chunks|
        ensures !InPrefix(st', i, past)
      {
        CutPrefix(st, id, end, i);
        if i < |st.chunks| && i != id {
          PrefixesApart(st, id, i, past);
        }
      }
      assert !Recorded(st', past);
    }
  }

  lemma OwnPrefix(st: State, id: nat)
    requires HandlesInRange(st) && id < |st.chunks| && !st.chunks[id].status.Completed?
    ensures forall b: nat :: InPrefix(st, id, b) <==> st.chunks[id].range.start <= b < OffsetsOf(st, id).cur && b <= st.chunks[id].range.end
  {
  }

  lemma AssignAtConserves(st: State, worker: nat, mirror: nat, start: nat, end: nat, now: real)
    requires Sound(st)
    ensures HandlesInRange(st) && SameRecord(st, AssignAt(st, worker, mirror, start, end, now).0)
  {
    SoundHandles(st);
    if st.fatal.None? && start <= end {
      match FreshAt(st, 0, start) {
        case None =>
        case Some(id) =>
          assert RowOk(st, id) && RangesOf(st)[id] == st.chunks[id].range;
          var cut := st;
          if st.chunks[id].range.end > end {
            TruncateRecord(st, id, end);
            cut := Push(Truncate(st, id, end), ByteRange(end + 1, st.chunks[id].range.end), Unassigned);
          }
          assert AssignAt(st, worker, mirror, start, end, now).0 == Assign(cut, id, worker, mirror, now);
          AssignConserves(cut, id, worker, mirror, now);
      }
    }
  }

  /**
   A split never adds to the record, and it leaves the record as it was exactly when its victim
   had not written past it.
   */
  lemma SplitRecord(st: State, victim: nat, split: nat, worker: nat, mirror: nat, now: real)
    requires Sound(st) && victim < |st.chunks| && st.chunks[victim].status.Assigned?
    requires st.chunks[victim].range.start < split <= st.chunks[victim].range.end
    ensures HandlesInRange(st) && RecordWithin(SplitForThief(st, victim, split, worker, mirror, now), st)
    ensures SameRecord(st, SplitForThief(st, victim, split, worker, mirror, now)) <==> OffsetsOf(st, victim).cur <= split
  {
    SoundHandles(st);
    assert RowOk(st, victim);
    TruncateRecord(st, victim, split - 1);
    var cut := Push(Truncate(st, victim, split - 1), ByteRange(split, st.chunks[victim].range.end), Unassigned);
    AssignConserves(cut, |st.chunks|, worker, mirror, now);
    hide RowsSound, QueueOk, InPrefix;
  }

  lemma SplitOffConserves(st: State, id: nat, pos: nat)
    requires RowsSound(st) && HandlesInRange(st) && id < |st.chunks| && !st.chunks[id].status.Completed?
    requires st.chunks[id].range.start < pos <= st.chunks[id].range.end
    requires pos <= OffsetsOf(st, id).cur
    ensures SameRecord(st, SplitOff(st, id, pos))
  {
    var st' := SplitOff(st, id, pos);
    forall i: nat, b: nat | i < |st.chunks| && i != id
      ensures InPrefix(st', i, b) <==> InPrefix(st, i, b)
    {
    }
    forall b: nat
      ensures InPrefix(st, id, b) <==> InPrefix(st', id, b) || InPrefix(st', |st.chunks|, b)
    {
    }
    forall b: nat
      ensures Recorded(st', b) <==> Recorded(st, b)
    {
      if Recorded(st, b) {
        var i: nat :| i < |st.chunks| && InPrefix(st, i, b);
        assert InPrefix(st', i, b) || (i == id && InPrefix(st', |st.chunks|, b));
      }
      if Recorded(st', b) {
        var i: nat :| i < |st'.chunks| && InPrefix(st', i, b);
        assert InPrefix(st, if i == |st.chunks| then id else i, b);
      }
    }
  }

  lemma CompleteConserves(st: State, id: nat)
    requires RowsSound(st) && HandlesInRange(st) && id < |st.chunks|
    requires st.chunks[id].range.end < OffsetsOf(st, id).cur
    ensures SameRecord(st, Complete(st, id))
  {
    SamePrefixes(st, Complete(st, id));
  }

  lemma TakeOverConserves(st: State, id: nat, worker: nat, mirror: nat, now: real)
    requires Sound(st) && id < |st.chunks| && st.chunks[id].status.Assigned?
    ensures HandlesInRange(st) && SameRecord(st, TakeOver(st, id, worker, mirror, now).0)
  {
    SoundHandles(st);
    assert RowOk(st, id);
    var c, o := st.chunks[id], OffsetsOf(st, id);
    var st' := TakeOver(st, id, worker, mirror, now).0;
    if o.cur > o.end {
      CompleteConserves(st, id);
      SamePrefixes(Complete(st, id), st');
    } else {
      var split := st;
      if o.cur > c.range.start {
        SplitOffConserves(st, id, o.cur);
        split := SplitOff(st, id, o.cur);
      }
      RestIsFresh(st, split, st', id, o.cur);
    }
  }

  /** Splitting off the written prefix leaves a remainder with no byte in the record. */
  lemma RestIsFresh(st: State, split: State, st': State, id: nat, pos: nat)
    requires RowsSound(st) && HandlesInRange(st) && HandlesInRange(split) && id < |st.chunks|
    requires !st.chunks[id].status.Completed? && OffsetsOf(st, id).cur == pos <= OffsetsOf(st, id).end
    requires split == if pos > st.chunks[id].range.start then SplitOff(st, id, pos) else st
    requires exists worker, mirror, now :: TakeOver(st, id, worker, mirror, now).0 == st'
    ensures SameRecord(split, st')
  {
    assert RowOk(st, id);
    forall i: nat, b: nat | i < |split.chunks|
      ensures InPrefix(st', i, b) <==> InPrefix(split, i, b)
    {
      if i < |st.chunks| && i != id {
        assert st.chunks[Min(i, id)].offsets != st.chunks[Max(i, id)].offsets;
      }
    }
    SamePrefixes(split, st');
  }

  lemma MarkCompletedConserves(st: State, id: nat)
    requires Sound(st) && id < |st.chunks| && st.chunks[id].status.Assigned?
    requires HandlesInRange(st) && OffsetsOf(st, id).end < OffsetsOf(st, id).cur
    ensures SameRecord(st, MarkCompleted(st, id).0)
  {
    assert RowOk(st, id);
    CompleteConserves(st, id);
  }

  lemma MarkFailedConserves(st: State, id: nat, reason: string, minDelay: real, counts: bool, now: real, fraction: real)
    requires Sound(st) && id < |st.chunks| && st.chunks[id].status.Assigned?
    ensures HandlesInRange(st) && SameRecord(st, MarkFailed(st, id, reason, minDelay, counts, now, fraction).0)
  {
    SoundHandles(st);
    assert RowOk(st, id);
    var c, o := st.chunks[id], OffsetsOf(st, id);
    if o.cur > c.range.end {
      CompleteConserves(st, id);
    } else if o.cur > c.range.start {
      var reset := Update(st, id, c.(retries := 0));
      SamePrefixes(st, reset);
      ResetKeepsRows(st, id);
      SplitOffConserves(reset, id, o.cur);
      SamePrefixes(SplitOff(reset, id, o.cur), Requeue(SplitOff(reset, id, o.cur), id, reason, minDelay, false, now, fraction));
    } else {
      SamePrefixes(st, Requeue(st, id, reason, minDelay, counts, now, fraction));
    }
  }
}
