/**
 The chunk scheduler as the program keeps it: fields updated in place, and offsets and attempt
 records shared with the workers (crates/hyperfetch-core/src/chunk.rs). Every operation is proved to
 do to the state exactly what the function of the same name in Chunks.dfy says.
 */
module ChunkManagers {
  import opened Basics
  import opened Ranges
  import opened Sorting
  import opened Chunks
  import opened ChunkInvariants

  /** The shared cells of an attempt, always installed together: both offsets and the revocation. */
  class SharedOffsets {
    ghost const id: nat
    var cur: nat
    var end: nat
    var revoked: bool

    constructor (ghost id: nat, cur: nat, end: nat)
      ensures this.id == id && Value() == Offsets(cur, end, false)
    {
      this.id := id;
      this.cur := cur;
      this.end := end;
      this.revoked := false;
    }

    function Value(): Offsets
      reads this
    {
      Offsets(cur, end, revoked)
    }
  }

  /** The heap object behind an `Attempt`, written by its worker. */
  class SharedAttempt {
    ghost const id: nat
    var answered: Option<(real, nat)>
    var waiting: Option<real>
    var received: nat
    var windowRate: Option<real>

    constructor (ghost id: nat)
      ensures this.id == id && Value() == NEW_ATTEMPT
    {
      this.id := id;
      this.answered := None;
      this.waiting := None;
      this.received := 0;
      this.windowRate := None;
    }

    function Value(): Attempt
      reads this
    {
      Attempt(answered, waiting, received, windowRate)
    }
  }

  type LiveChunk = Chunk<SharedOffsets, SharedAttempt>

  /** A chunk with its handles as numbers. */
  ghost function Row(c: LiveChunk): ChunkRow {
    Chunk(c.id, c.range, c.status, c.retries, c.offsets.id, c.attempt.id, c.notBefore, c.assignedAt)
  }

  ghost function Rows(chunks: seq<LiveChunk>): seq<ChunkRow> {
    seq(|chunks|, i requires 0 <= i < |chunks| => Row(chunks[i]))
  }

  ghost function OffsetValues(cells: seq<SharedOffsets>): seq<Offsets>
    reads cells
  {
    seq(|cells|, h requires 0 <= h < |cells| reads cells => cells[h].Value())
  }

  ghost function AttemptValues(records: seq<SharedAttempt>): seq<Attempt>
    reads records
  {
    seq(|records|, h requires 0 <= h < |records| reads records => records[h].Value())
  }

  lemma RowsUpdate(chunks: seq<LiveChunk>, i: nat, c: LiveChunk)
    requires i < |chunks|
    ensures Rows(chunks[i := c]) == Rows(chunks)[i := Row(c)]
  {
  }

  lemma RowsAppend(chunks: seq<LiveChunk>, c: LiveChunk)
    ensures Rows(chunks + [c]) == Rows(chunks) + [Row(c)]
  {
  }

  lemma OffsetValuesAppend(cells: seq<SharedOffsets>, o: SharedOffsets)
    ensures OffsetValues(cells + [o]) == OffsetValues(cells) + [o.Value()]
  {
  }

  lemma AttemptValuesAppend(records: seq<SharedAttempt>, a: SharedAttempt)
    ensures AttemptValues(records + [a]) == AttemptValues(records) + [a.Value()]
  {
  }

  // ---------------------------------------------------------------- laying out the chunks

  /** The ranges as far as they lie in the file, as the filter leaves them. */
  method KeepInFile(rs: seq<ByteRange>, total: nat) returns (kept: seq<ByteRange>)
    requires total > 0
    ensures kept == InFile(rs, total)
  {
    kept := [];
    for i := 0 to |rs|
      invariant kept + InFile(rs[i..], total) == InFile(rs, total)
    {
      assert rs[i..][0] == rs[i] && rs[i..][1..] == rs[i + 1..];
      match rs[i].Intersection(ByteRange(0, total - 1)) {
        case Some(r) =>
          assert kept + ([r] + InFile(rs[i + 1..], total)) == (kept + [r]) + InFile(rs[i + 1..], total);
          kept := kept + [r];
        case None =>
      }
    }
  }

  method CutGap(gap: ByteRange, base: nat) returns (pieces: seq<ByteRange>)
    requires base > 0
    ensures pieces == Pieces(gap.start, gap.end, base)
  {
    pieces := [];
    var offset: nat := gap.start;
    while offset <= gap.end
      invariant pieces + Pieces(offset, gap.end, base) == Pieces(gap.start, gap.end, base)
      decreases gap.end + 1 - offset
    {
      var len: nat := Min(gap.end - offset + 1, base);
      var piece := ByteRange(offset, offset + len - 1);
      assert pieces + ([piece] + Pieces(offset + len, gap.end, base)) == (pieces + [piece]) + Pieces(offset + len, gap.end, base);
      pieces := pieces + [piece];
      offset := offset + len;
    }
  }

  method CutGaps(gaps: seq<ByteRange>, base: nat) returns (pieces: seq<ByteRange>)
    requires base > 0
    ensures pieces == PiecesOf(gaps, base)
  {
    pieces := [];
    for i := 0 to |gaps|
      invariant pieces + PiecesOf(gaps[i..], base) == PiecesOf(gaps, base)
    {
      var cut := CutGap(gaps[i], base);
      assert gaps[i..][0] == gaps[i] && gaps[i..][1..] == gaps[i + 1..];
      assert pieces + (cut + PiecesOf(gaps[i + 1..], base)) == (pieces + cut) + PiecesOf(gaps[i + 1..], base);
      pieces := pieces + cut;
    }
  }

  /** Finished ranges and the pieces of the gaps between them, in file order. */
  method PlanChunks(total: nat, base: nat, rs: seq<ByteRange>) returns (slots: seq<Slot>, finished: nat)
    requires base > 0
    ensures slots == Layout(total, base, rs) && finished == |DoneRanges(total, rs)|
  {
    var inFile := [];
    if total > 0 {
      inFile := KeepInFile(rs, total);
    }
    var merged := MergeRanges(inFile);
    var gaps := ComputeGaps(total, merged);
    var pieces := CutGaps(gaps, base);
    slots := Sort(Tagged(merged, true) + Tagged(pieces, false), SlotByStart);
    finished := |merged|;
  }

  /** One attempt's record says something new, and nothing else changed. */
  ghost predicate Tells(st: State, st': State, handle: nat, told: Attempt) {
    handle < |st.attempts| && st' == st.(attempts := st.attempts[handle := told])
  }

  class ChunkManager {
    const total: nat
    const base: nat
    var chunks: seq<LiveChunk>
    var completed: nat
    var nextFresh: nat
    var retryQueue: seq<nat>
    var maxRetries: nat
    var fatal: Option<(nat, string)>
    var replacedAt: Option<real>
    /** Every shared cell there has been, also those only a revoked worker still holds. */
    ghost var cells: seq<SharedOffsets>
    ghost var records: seq<SharedAttempt>

    ghost predicate Valid()
      reads this
    {
      && OwnCells(chunks, cells, records)
      && (forall k | 0 <= k < |retryQueue| :: retryQueue[k] < |chunks|)
    }

    ghost function View(): (st: State)
      requires Valid()
      reads this, cells, records
      ensures HandlesInRange(st) && QueueInRange(st)
    {
      State(total, base, Rows(chunks), completed, nextFresh, retryQueue, maxRetries, fatal, replacedAt,
            OffsetValues(cells), AttemptValues(records))
    }

    lemma ViewFields()
      requires Valid()
      ensures |View().chunks| == |chunks| && |View().offsets| == |cells| && |View().attempts| == |records|
      ensures View().retryQueue == retryQueue && View().total == total
      ensures View().fatal == fatal && View().nextFresh == nextFresh && View().maxRetries == maxRetries
    {
    }

    lemma CellReads(h: nat)
      requires Valid() && h < |cells|
      ensures |View().offsets| == |cells| && View().offsets[h] == cells[h].Value()
    {
    }

    /** Reading a chunk through its handles is reading it in the view. */
    lemma LiveReads(i: nat)
      requires Valid() && i < |chunks|
      ensures |View().chunks| == |chunks| && View().chunks[i] == Row(chunks[i])
      ensures OffsetsOf(View(), i) == chunks[i].offsets.Value()
      ensures AttemptOf(View(), i) == chunks[i].attempt.Value()
      ensures chunks[i].offsets in cells && chunks[i].attempt in records
    {
    }

    /** Cells are only added, and new ones at that: what a worker was given stays where it is. */
    twostate predicate Grows()
      reads this
    {
      && old(cells) <= cells && (forall h | old(|cells|) <= h < |cells| :: fresh(cells[h]))
      && old(records) <= records && (forall h | old(|records|) <= h < |records| :: fresh(records[h]))
    }

    /** A manager for a file whose `rs` are already on disk. */
    constructor (total: nat, base: nat, rs: seq<ByteRange>)
      ensures Valid() && View() == Start(total, base, rs, DEFAULT_RETRIES)
      ensures (forall h | 0 <= h < |cells| :: fresh(cells[h])) && (forall h | 0 <= h < |records| :: fresh(records[h]))
    {
      this.total := total;
      this.base := Base(base);
      this.maxRetries := DEFAULT_RETRIES;
      this.chunks, this.cells, this.records := [], [], [];
      this.completed, this.nextFresh, this.retryQueue := 0, 0, [];
      this.fatal, this.replacedAt := None, None;
      new;
      var slots, finished := PlanChunks(total, this.base, rs);
      assert View() == State(total, Base(base), [], 0, 0, [], DEFAULT_RETRIES, None, None, [], []);
      hide Layout, DoneRanges, NewChunks, NewOffsets, NewAttempts, View;
      LayOut(slots, finished);
    }

    method LayOut(slots: seq<Slot>, finished: nat)
      requires Valid() && |chunks| == |cells| == |records| == 0
      modifies this`chunks, this`cells, this`records, this`completed
      ensures Valid()
      ensures forall h | 0 <= h < |cells| :: fresh(cells[h])
      ensures forall h | 0 <= h < |records| :: fresh(records[h])
      ensures View() == old(View()).(chunks := NewChunks(slots), offsets := NewOffsets(slots),
                                     attempts := NewAttempts(|slots|), completed := finished)
    {
      hide LaidAs, OwnCells;
      NoneLaid();
      for i := 0 to |slots|
        invariant Valid() && Laid(slots[..i])
        invariant forall h | 0 <= h < |cells| :: fresh(cells[h])
        invariant forall h | 0 <= h < |records| :: fresh(records[h])
      {
        LaySlot(slots[..i], slots[i]);
        assert slots[..i + 1] == slots[..i] + [slots[i]];
      }
      assert slots[..|slots|] == slots;
      completed := finished;
      LaidOut(slots);
    }

    /** Every chunk's cells are among the cells, which know their places. */
    static ghost predicate OwnCells(chunks: seq<LiveChunk>, cells: seq<SharedOffsets>, records: seq<SharedAttempt>) {
      && (forall h | 0 <= h < |cells| :: cells[h].id == h)
      && (forall h | 0 <= h < |records| :: records[h].id == h)
      && (forall i | 0 <= i < |chunks| :: chunks[i].offsets in cells && chunks[i].attempt in records)
    }

    static ghost predicate LaidAt(slot: Slot, c: LiveChunk, o: SharedOffsets, a: SharedAttempt, h: nat)
      reads o, a
    {
      && Row(c) == Chunk(h, slot.range, SlotStatus(slot), 0, h, h, None, None)
      && o.Value() == Offsets(slot.range.start, slot.range.end, false) && a.Value() == NEW_ATTEMPT
    }

    static ghost predicate LaidAs(slots: seq<Slot>, chunks: seq<LiveChunk>, cells: seq<SharedOffsets>, records: seq<SharedAttempt>)
      reads cells, records
    {
      && |chunks| == |cells| == |records| == |slots|
      && forall h | 0 <= h < |slots| :: LaidAt(slots[h], chunks[h], cells[h], records[h], h)
    }

    /** The chunks so far are new ones for these slots, each with cells of its own. */
    ghost predicate Laid(slots: seq<Slot>)
      reads this, cells, records
    {
      LaidAs(slots, chunks, cells, records)
    }

    /** Adds a chunk with cells of its own. */
    method LaySlot(ghost slots: seq<Slot>, slot: Slot)
      requires Valid() && Laid(slots)
      modifies this`chunks, this`cells, this`records
      ensures Valid() && Laid(slots + [slot])
      ensures |cells| == old(|cells|) + 1 && cells[..old(|cells|)] == old(cells) && fresh(cells[old(|cells|)])
      ensures |records| == old(|records|) + 1 && records[..old(|records|)] == old(records) && fresh(records[old(|records|)])
    {
      var offsets := new SharedOffsets(|cells|, slot.range.start, slot.range.end);
      var attempt := new SharedAttempt(|records|);
      var c := Chunk(|chunks|, slot.range, SlotStatus(slot), 0, offsets, attempt, None, None);
      LaidMore(slots, slot, chunks, cells, records, c);
      chunks := chunks + [c];
      cells := cells + [offsets];
      records := records + [attempt];
    }

    static lemma LaidMore(slots: seq<Slot>, slot: Slot, chunks: seq<LiveChunk>, cells: seq<SharedOffsets>,
                          records: seq<SharedAttempt>, c: LiveChunk)
      requires OwnCells(chunks, cells, records) && LaidAs(slots, chunks, cells, records)
      requires c == Chunk(|slots|, slot.range, SlotStatus(slot), 0, c.offsets, c.attempt, None, None)
      requires c.offsets.id == |slots| == c.attempt.id && c.attempt.Value() == NEW_ATTEMPT
      requires c.offsets.Value() == Offsets(slot.range.start, slot.range.end, false)
      ensures OwnCells(chunks + [c], cells + [c.offsets], records + [c.attempt])
      ensures LaidAs(slots + [slot], chunks + [c], cells + [c.offsets], records + [c.attempt])
    {
      var chunks', cells', records' := chunks + [c], cells + [c.offsets], records + [c.attempt];
      assert cells'[|slots|] == c.offsets && records'[|slots|] == c.attempt && chunks'[|slots|] == c;
      forall i | 0 <= i < |chunks'|
        ensures chunks'[i].offsets in cells' && chunks'[i].attempt in records'
      {
        if i < |slots| {
          assert chunks'[i] == chunks[i];
        }
      }
      forall h | 0 <= h < |slots + [slot]|
        ensures LaidAt((slots + [slot])[h], chunks'[h], cells'[h], records'[h], h)
      {
        if h < |slots| {
          assert LaidAt(slots[h], chunks[h], cells[h], records[h], h);
        }
      }
    }

    lemma NoneLaid()
      requires |chunks| == |cells| == |records| == 0
      ensures Laid([])
    {
    }

    lemma LaidOut(slots: seq<Slot>)
      requires Valid() && Laid(slots)
      ensures View().chunks == NewChunks(slots) && View().offsets == NewOffsets(slots)
      ensures View().attempts == NewAttempts(|slots|)
    {
    }

    /** Sets the bound that `MarkFailed` holds a chunk's retries against. */
    method SetMaxRetries(maxRetries: nat)
      requires Valid()
      modifies this`maxRetries
      ensures Valid() && View() == old(View()).(maxRetries := maxRetries)
    {
      this.maxRetries := maxRetries;
    }

    // ------------------------------------------------------------ reading

    method TotalDownloaded() returns (bytes: nat)
      requires Valid()
      ensures bytes == Chunks.TotalDownloaded(View())
    {
      hide View, Valid, HandlesInRange, DoneLengths, DoneBytes;
      ViewFields();
      ghost var st := View();
      NoneDone(st);
      var sum := 0;
      for i := 0 to |chunks|
        invariant sum == SumDone(st, i)
      {
        LiveReads(i);
        DoneNext(st, i);
        SameWritten(chunks[i], chunks[i].offsets.Value());
        sum := sum + DoneBytes(chunks[i], chunks[i].offsets.Value());
      }
      AllDone(st);
      bytes := Min(sum, total);
    }

    /** The done bytes of the first `n` chunks. */
    static ghost function SumDone(st: State, n: nat): nat
      requires HandlesInRange(st) && n <= |st.chunks|
    {
      Sum(DoneLengths(st)[..n])
    }

    static lemma NoneDone(st: State)
      requires HandlesInRange(st)
      ensures SumDone(st, 0) == 0
    {
    }

    static lemma DoneNext(st: State, i: nat)
      requires HandlesInRange(st) && i < |st.chunks|
      ensures SumDone(st, i + 1) == SumDone(st, i) + DoneBytes(st.chunks[i], OffsetsOf(st, i))
    {
      assert DoneLengths(st)[..i + 1] == DoneLengths(st)[..i] + [DoneLengths(st)[i]];
      SumAppend(DoneLengths(st)[..i], DoneLengths(st)[i]);
    }

    static lemma AllDone(st: State)
      requires HandlesInRange(st)
      ensures Chunks.TotalDownloaded(st) == Min(SumDone(st, |st.chunks|), st.total)
    {
      assert DoneLengths(st)[..|st.chunks|] == DoneLengths(st);
    }

    static lemma NoPrefixes(st: State)
      requires HandlesInRange(st)
      ensures Prefixes(st, 0) == []
    {
    }

    static lemma PrefixesNext(st: State, i: nat)
      requires HandlesInRange(st) && i < |st.chunks|
      ensures Prefixes(st, i + 1) == match WrittenPrefix(st.chunks[i], OffsetsOf(st, i))
                                     case Some(r) => Prefixes(st, i) + [r]
                                     case None => Prefixes(st, i)
    {
    }

    /** What a row says has been written does not depend on what its handles are. */
    static lemma SameWritten(c: LiveChunk, o: Offsets)
      ensures WrittenPrefix(c, o) == WrittenPrefix(Row(c), o) && DoneBytes(c, o) == DoneBytes(Row(c), o)
    {
    }

    method CompletedRanges() returns (ranges: seq<ByteRange>)
      requires Valid()
      ensures ranges == Chunks.CompletedRanges(View())
    {
      hide View, HandlesInRange, Prefixes, WrittenPrefix;
      ViewFields();
      ghost var st := View();
      NoPrefixes(st);
      var written := [];
      for i := 0 to |chunks|
        invariant written == Prefixes(st, i)
      {
        LiveReads(i);
        PrefixesNext(st, i);
        SameWritten(chunks[i], chunks[i].offsets.Value());
        match WrittenPrefix(chunks[i], chunks[i].offsets.Value()) {
          case Some(r) => written := written + [r];
          case None =>
        }
      }
      ranges := MergeRanges(written);
    }

    method IsAllCompleted() returns (all: bool)
      requires Valid()
      ensures all == Chunks.IsAllCompleted(View())
    {
      all := completed == |chunks|;
    }

    // ------------------------------------------------------------ changing one chunk

    method Assign(id: nat, worker: nat, mirror: nat, now: real) returns (chunk: LiveChunk)
      requires Valid() && id < |chunks|
      modifies this
      ensures Valid() && View() == Chunks.Assign(old(View()), id, worker, mirror, now)
      ensures cells == old(cells) && |chunks| == old(|chunks|) && chunk == chunks[id] && chunk.offsets == old(chunks)[id].offsets
      ensures records == old(records) + [chunk.attempt] && fresh(chunk.attempt)
    {
      var attempt := new SharedAttempt(|records|);
      chunk := chunks[id].(status := Assigned(worker, mirror), notBefore := None, assignedAt := Some(now), attempt := attempt);
      RowsUpdate(chunks, id, chunk);
      AttemptValuesAppend(records, attempt);
      chunks := chunks[id := chunk];
      records := records + [attempt];
    }

    method Push(range: ByteRange, status: Status)
      requires Valid()
      modifies this
      ensures Valid() && View() == Chunks.Push(old(View()), range, status)
      ensures |chunks| == old(|chunks|) + 1 && chunks[..old(|chunks|)] == old(chunks)
      ensures |cells| == old(|cells|) + 1 && cells[..old(|cells|)] == old(cells) && fresh(cells[old(|cells|)])
      ensures |records| == old(|records|) + 1 && records[..old(|records|)] == old(records) && fresh(records[old(|records|)])
      ensures chunks[old(|chunks|)].offsets == cells[old(|cells|)]
    {
      hide Rows, OffsetValues, AttemptValues;
      ViewFields();
      var offsets := new SharedOffsets(|cells|, range.start, range.end);
      var attempt := new SharedAttempt(|records|);
      var chunk := Chunk(|chunks|, range, status, 0, offsets, attempt, None, None);
      RowsAppend(chunks, chunk);
      OffsetValuesAppend(cells, offsets);
      AttemptValuesAppend(records, attempt);
      chunks := chunks + [chunk];
      cells := cells + [offsets];
      records := records + [attempt];
      completed := completed + if status.Completed? then 1 else 0;
    }

    /** Lowers the end of chunk `id`, in its range and in the cell its worker reads. */
    method Truncate(id: nat, end: nat)
      requires Valid() && id < |chunks|
      modifies this, cells
      ensures Valid() && View() == Chunks.Truncate(old(View()), id, end)
      ensures |chunks| == old(|chunks|) && cells == old(cells) && records == old(records)
    {
      var c := chunks[id].(range := ByteRange(chunks[id].range.start, end));
      LiveReads(id);
      RowsUpdate(chunks, id, c);
      chunks := chunks[id := c];
      c.offsets.end := end;
      assert View().offsets == Chunks.Truncate(old(View()), id, end).offsets;
    }

    /** Splits the written `[start, pos)` off chunk `id` as a completed chunk of its own. */
    method SplitOff(id: nat, pos: nat)
      requires Valid() && id < |chunks| && pos > 0
      modifies this
      ensures Valid() && View() == Chunks.SplitOff(old(View()), id, pos)
      ensures |chunks| == old(|chunks|) + 1
      ensures |cells| == old(|cells|) + 1 && cells[..old(|cells|)] == old(cells) && fresh(cells[old(|cells|)])
      ensures |records| == old(|records|) + 1 && records[..old(|records|)] == old(records) && fresh(records[old(|records|)])
    {
      var written := ByteRange(chunks[id].range.start, pos - 1);
      var c := chunks[id].(range := ByteRange(pos, chunks[id].range.end));
      SetChunk(id, c);
      Push(written, Completed);
    }

    /** Replaces a row by one with the same handles. */
    method SetChunk(id: nat, c: LiveChunk)
      requires Valid() && id < |chunks| && c.offsets in cells && c.attempt in records
      modifies this`chunks
      ensures Valid() && View() == Update(old(View()), id, Row(c))
      ensures chunks == old(chunks)[id := c]
    {
      RowsUpdate(chunks, id, c);
      chunks := chunks[id := c];
    }

    method Complete(id: nat)
      requires Valid() && id < |chunks|
      modifies this`chunks, this`completed
      ensures Valid() && View() == Chunks.Complete(old(View()), id)
      ensures |chunks| == old(|chunks|)
    {
      SetChunk(id, chunks[id].(status := Completed));
      completed := completed + 1;
    }

    // ------------------------------------------------------------ handing out

    /** What is handed out is the chunk `id` names, if it names one. */
    ghost predicate Hands(given: Option<LiveChunk>, id: Option<nat>)
      reads this
    {
      match id
      case Some(i) => i < |chunks| && given == Some(chunks[i])
      case None => given.None?
    }

    method GetNextWork(worker: nat, mirror: nat, now: real) returns (given: Option<LiveChunk>)
      requires Valid()
      modifies this
      ensures Valid() && View() == Chunks.GetNextWork(old(View()), worker, mirror, now).0
      ensures Hands(given, Chunks.GetNextWork(old(View()), worker, mirror, now).1)
      ensures Grows() && (given.Some? ==> fresh(given.value.attempt))
    {
      hide View, Valid, Rows, OffsetValues, AttemptValues, Chunks.GetNextWork, Chunks.Assign, FirstReady, FirstFresh, HandlesInRange;
      ViewFields();
      NextWorkIs(View(), worker, mirror, now);
      if fatal.Some? {
        return None;
      }
      var ready := FindReady(now);
      if ready.Some? {
        given := Retry(ready.value, worker, mirror, now);
      } else {
        given := HandOutFresh(worker, mirror, now);
      }
    }

    /** The cases of a hand-out: the queue goes first, then what was never handed out. */
    static lemma NextWorkIs(st: State, worker: nat, mirror: nat, now: real)
      requires QueueInRange(st)
      ensures Chunks.GetNextWork(st, worker, mirror, now)
           == if st.fatal.Some? then
                (st, None)
              else if FirstReady(st, 0, now).Some? then
                var pos := FirstReady(st, 0, now).value;
                (Chunks.Assign(st.(retryQueue := st.retryQueue[..pos] + st.retryQueue[pos + 1..]), st.retryQueue[pos],
                               worker, mirror, now),
                 Some(st.retryQueue[pos]))
              else
                match FirstFresh(st, st.nextFresh)
                case Some(id) => (Chunks.Assign(st.(nextFresh := id + 1), id, worker, mirror, now), Some(id))
                case None => (st.(nextFresh := Max(st.nextFresh, |st.chunks|)), None)
    {
    }

    /** Where in the retry queue the first chunk past its backoff waits. */
    method FindReady(now: real) returns (ready: Option<nat>)
      requires Valid()
      ensures ready == FirstReady(View(), 0, now)
    {
      var pos := 0;
      while pos < |retryQueue|
        invariant pos <= |retryQueue|
        invariant FirstReady(View(), pos, now) == FirstReady(View(), 0, now)
      {
        if Ready(chunks[retryQueue[pos]], now) {
          return Some(pos);
        }
        pos := pos + 1;
      }
      return None;
    }

    method Retry(pos: nat, worker: nat, mirror: nat, now: real) returns (given: Option<LiveChunk>)
      requires Valid() && pos < |retryQueue|
      modifies this
      ensures Valid()
      ensures var st := old(View());
              View() == Chunks.Assign(st.(retryQueue := st.retryQueue[..pos] + st.retryQueue[pos + 1..]),
                                      st.retryQueue[pos], worker, mirror, now)
      ensures Hands(given, Some(old(retryQueue)[pos]))
      ensures Grows() && (given.Some? ==> fresh(given.value.attempt))
    {
      ghost var st := View();
      var id := retryQueue[pos];
      retryQueue := retryQueue[..pos] + retryQueue[pos + 1..];
      assert View() == st.(retryQueue := retryQueue);
      var chunk := Assign(id, worker, mirror, now);
      return Some(chunk);
    }

    method HandOutFresh(worker: nat, mirror: nat, now: real) returns (given: Option<LiveChunk>)
      requires Valid()
      modifies this
      ensures Valid() && Hands(given, FirstFresh(old(View()), old(nextFresh)))
      ensures var st := old(View());
              View() == match FirstFresh(st, st.nextFresh)
                        case Some(id) => Chunks.Assign(st.(nextFresh := id + 1), id, worker, mirror, now)
                        case None => st.(nextFresh := Max(st.nextFresh, |st.chunks|))
      ensures Grows() && (given.Some? ==> fresh(given.value.attempt))
    {
      ghost var st := View();
      while nextFresh < |chunks|
        invariant Valid() && View() == st.(nextFresh := nextFresh) && cells == old(cells) && records == old(records)
        invariant FirstFresh(st, st.nextFresh) == FirstFresh(st, nextFresh)
        invariant st.nextFresh <= nextFresh <= Max(st.nextFresh, |chunks|)
      {
        var id := nextFresh;
        PassFresh();
        if chunks[id].status == Unassigned {
          var chunk := Assign(id, worker, mirror, now);
          return Some(chunk);
        }
      }
      return None;
    }

    method PassFresh()
      requires Valid()
      modifies this`nextFresh
      ensures Valid() && nextFresh == old(nextFresh) + 1 && View() == old(View()).(nextFresh := nextFresh)
    {
      nextFresh := nextFresh + 1;
    }

    method AssignAt(worker: nat, mirror: nat, start: nat, end: nat, now: real) returns (given: Option<LiveChunk>)
      requires Valid()
      modifies this, cells
      ensures Valid() && View() == Chunks.AssignAt(old(View()), worker, mirror, start, end, now).0
      ensures Hands(given, Chunks.AssignAt(old(View()), worker, mirror, start, end, now).1)
      ensures Grows() && (given.Some? ==> fresh(given.value.attempt))
    {
      hide View, Valid, Rows, OffsetValues, AttemptValues, FreshAt;
      ViewFields();
      if fatal.Some? || end < start {
        return None;
      }
      var at := FindFreshAt(start);
      if at.None? {
        return None;
      }
      var id := at.value;
      LiveReads(id);
      var chunkEnd := chunks[id].range.end;
      if chunkEnd > end {
        Truncate(id, end);
        Push(ByteRange(end + 1, chunkEnd), Unassigned);
      }
      var chunk := Assign(id, worker, mirror, now);
      return Some(chunk);
    }

    /** The first unassigned chunk that starts at byte `start`. */
    method FindFreshAt(start: nat) returns (found: Option<nat>)
      requires Valid()
      ensures found == FreshAt(View(), 0, start)
    {
      var id := 0;
      while id < |chunks| && !(chunks[id].status == Unassigned && chunks[id].range.start == start)
        invariant id <= |chunks|
        invariant FreshAt(View(), id, start) == FreshAt(View(), 0, start)
      {
        id := id + 1;
      }
      return if id == |chunks| then None else Some(id);
    }

    method TakeOverSilent(worker: nat, mirror: nat, minSilence: nat -> real, now: real) returns (given: Option<LiveChunk>)
      requires Valid()
      modifies this, cells
      ensures Valid() && View() == Chunks.TakeOverSilent(old(View()), worker, mirror, minSilence, now).0
      ensures Hands(given, Chunks.TakeOverSilent(old(View()), worker, mirror, minSilence, now).1)
      ensures Grows() && (given.Some? ==> fresh(given.value.attempt) && fresh(given.value.offsets))
    {
      hide Chunks.TakeOver, View, Valid, LongestSilent, Rows, OffsetValues, AttemptValues;
      ViewFields();
      if fatal.Some? {
        return None;
      }
      var best := FindSilent(minSilence, now);
      if best.None? {
        return None;
      }
      given := TakeOver(best.value.0, worker, mirror, now);
    }

    /** The chunk in flight that has been silent for longest, if for long enough, and how long that is. */
    method FindSilent(minSilence: nat -> real, now: real) returns (best: Option<(nat, real)>)
      requires Valid()
      ensures best == match LongestSilent(View(), |chunks|, now, minSilence)
                      case Some(id) => Some((id, Silence(AttemptOf(View(), id), now)))
                      case None => None
    {
      hide View, Valid, Rows, OffsetValues, AttemptValues, HandlesInRange;
      ViewFields();
      ghost var st := View();
      best := None;
      for i := 0 to |chunks|
        invariant best == match LongestSilent(st, i, now, minSilence)
                          case Some(id) => Some((id, Silence(AttemptOf(st, id), now)))
                          case None => None
      {
        LiveReads(i);
        var c := chunks[i];
        if c.status.Assigned? && Remaining(c, c.offsets.Value()) > 0 {
          var silent := Silence(c.attempt.Value(), now);
          if silent >= minSilence(c.status.mirror) && (best.None? || best.value.1 <= silent) {
            best := Some((i, silent));
          }
        }
      }
    }

    method TakeOver(id: nat, worker: nat, mirror: nat, now: real) returns (given: Option<LiveChunk>)
      requires Valid() && id < |chunks|
      modifies this, cells
      ensures Valid() && View() == Chunks.TakeOver(old(View()), id, worker, mirror, now).0
      ensures Hands(given, Chunks.TakeOver(old(View()), id, worker, mirror, now).1)
      ensures Grows() && (given.Some? ==> fresh(given.value.attempt) && fresh(given.value.offsets))
    {
      hide View, Valid, Rows, OffsetValues, AttemptValues, Chunks.PassOn;
      LiveReads(id);
      Revoke(id);
      LiveReads(id);
      // `View` already has the revocation here, so `pos` is the offset it keeps for this attempt.
      var taken := chunks[id].offsets;
      var pos := Max(taken.cur, chunks[id].range.start);
      var end := taken.end;
      if pos > end {
        Complete(id);
        return None;
      }
      var chunk := PassOn(id, pos, end, worker, mirror, now);
      return Some(chunk);
    }

    /** Gives the rest of chunk `id` away, after splitting off its written start, if there is one. */
    method PassOn(id: nat, pos: nat, end: nat, worker: nat, mirror: nat, now: real) returns (chunk: LiveChunk)
      requires Valid() && id < |chunks|
      modifies this
      ensures Valid() && View() == Chunks.PassOn(old(View()), id, pos, end, worker, mirror, now)
      ensures id < |chunks| && chunk == chunks[id]
      ensures Grows() && fresh(chunk.attempt) && fresh(chunk.offsets)
    {
      hide View, Valid, Rows, OffsetValues, AttemptValues;
      LiveReads(id);
      if pos > chunks[id].range.start {
        SplitOff(id, pos);
      }
      Renew(id, pos, end);
      chunk := Assign(id, worker, mirror, now);
    }

    method Revoke(id: nat)
      requires Valid() && id < |chunks|
      modifies chunks[id].offsets`revoked
      ensures Valid() && chunks[id].offsets.Value() == old(chunks[id].offsets.Value()).(revoked := true)
      ensures var (st, h) := (old(View()), old(View()).chunks[id].offsets);
              View() == SetOffsets(st, h, st.offsets[h].(revoked := true))
    {
      LiveReads(id);
      ghost var st := View();
      var taken := chunks[id].offsets;
      taken.revoked := true;
      assert View().offsets == SetOffsets(st, taken.id, taken.Value()).offsets;
    }

    /** New cells for chunk `id`, out of its old worker's reach. */
    method Renew(id: nat, pos: nat, end: nat)
      requires Valid() && id < |chunks|
      modifies this
      ensures Valid() && |chunks| == old(|chunks|)
      ensures cells == old(cells) + [chunks[id].offsets] && fresh(chunks[id].offsets) && records == old(records)
      ensures var st := old(View());
              View() == Update(st, id, st.chunks[id].(offsets := |st.offsets|)).(offsets := st.offsets + [Offsets(pos, end, false)])
    {
      var offsets := new SharedOffsets(|cells|, pos, end);
      var c := chunks[id].(offsets := offsets);
      RowsUpdate(chunks, id, c);
      OffsetValuesAppend(cells, offsets);
      chunks := chunks[id := c];
      cells := cells + [offsets];
    }

    method StealWork(worker: nat, mirror: nat, rule: StealRule, now: real) returns (given: Option<(nat, LiveChunk)>)
      requires Valid()
      modifies this, cells
      ensures Valid() && View() == Chunks.StealWork(old(View()), worker, mirror, rule, now).0
      ensures match Chunks.StealWork(old(View()), worker, mirror, rule, now).1
              case Some((victim, id)) => id < |chunks| && given == Some((victim, chunks[id]))
              case None => given.None?
      ensures Grows() && (given.Some? ==> fresh(given.value.1.attempt) && fresh(given.value.1.offsets))
    {
      if fatal.Some? {
        return None;
      }
      var victim := FindVictim(rule, now);
      if victim.None? {
        return None;
      }
      given := StealFrom(victim.value, worker, mirror, rule, now);
    }

    method StealFrom(victim: nat, worker: nat, mirror: nat, rule: StealRule, now: real) returns (given: Option<(nat, LiveChunk)>)
      requires Valid() && victim < |chunks|
      modifies this, cells
      ensures Valid() && View() == Chunks.StealFrom(old(View()), victim, worker, mirror, rule, now).0
      ensures match Chunks.StealFrom(old(View()), victim, worker, mirror, rule, now).1
              case Some((v, id)) => id < |chunks| && given == Some((v, chunks[id]))
              case None => given.None?
      ensures Grows() && (given.Some? ==> fresh(given.value.1.attempt) && fresh(given.value.1.offsets))
    {
      hide View, Valid, Rows, OffsetValues, AttemptValues, Chunks.SplitForThief;
      var c := chunks[victim];
      LiveReads(victim);
      var stolen := Stolen(Left(c), MinSteal(rule), ExpectedThief(rule, mirror), PaceOfLive(c, rule, now));
      if stolen.None? {
        return None;
      }
      var split := c.offsets.end + 1 - stolen.value;
      var chunk := SplitForThief(victim, split, worker, mirror, now);
      return Some((victim, chunk));
    }

    /** The chunk a steal splits: of those in flight with enough left, the one to finish last. */
    method FindVictim(rule: StealRule, now: real) returns (victim: Option<nat>)
      requires Valid()
      ensures victim == LastToFinish(View(), |chunks|, rule, now)
    {
      victim := None;
      ghost var st := View();
      for i := 0 to |chunks|
        invariant victim == LastToFinish(st, i, rule, now)
      {
        victim := Challenge(victim, i, rule, now);
      }
    }

    /** Chunk `i`, if it may be stolen from and finishes no sooner than `victim`, else that. */
    method Challenge(victim: Option<nat>, i: nat, rule: StealRule, now: real) returns (next: Option<nat>)
      requires Valid() && i < |chunks| && (victim.Some? ==> victim.value < |chunks|)
      ensures next == if Stealable(View(), i, rule) && (victim.None? || NoSooner(View(), victim.value, i, rule, now))
                      then Some(i) else victim
    {
      LiveReads(i);
      next := victim;
      if chunks[i].status.Assigned? && Left(chunks[i]) > MinSteal(rule) {
        if victim.None? {
          next := Some(i);
        } else {
          var later := FinishesNoSooner(victim.value, i, rule, now);
          if later {
            next := Some(i);
          }
        }
      }
    }

    method FinishesNoSooner(i: nat, j: nat, rule: StealRule, now: real) returns (later: bool)
      requires Valid() && i < |chunks| && j < |chunks|
      ensures later == NoSooner(View(), i, j, rule, now)
    {
      LiveReads(i);
      LiveReads(j);
      var a := EtaSecs(Left(chunks[i]), PaceOfLive(chunks[i], rule, now));
      var b := EtaSecs(Left(chunks[j]), PaceOfLive(chunks[j], rule, now));
      later := if a == b then Left(chunks[i]) <= Left(chunks[j]) else EtaAtMost(a, b);
    }

    method SplitForThief(victim: nat, split: nat, worker: nat, mirror: nat, now: real) returns (chunk: LiveChunk)
      requires Valid() && victim < |chunks| && split > 0
      modifies this, cells
      ensures Valid() && View() == Chunks.SplitForThief(old(View()), victim, split, worker, mirror, now)
      ensures old(|chunks|) < |chunks| && chunk == chunks[old(|chunks|)]
      ensures Grows() && fresh(chunk.attempt) && fresh(chunk.offsets)
    {
      hide View, Valid, Rows, OffsetValues, AttemptValues;
      LiveReads(victim);
      ViewFields();
      var end := chunks[victim].offsets.end;
      Truncate(victim, split - 1);
      var id := |chunks|;
      Push(ByteRange(split, end), Unassigned);
      chunk := Assign(id, worker, mirror, now);
    }

    function Left(c: LiveChunk): nat
      reads c.offsets, c.attempt
    {
      Unreceived(c, c.offsets.Value(), c.attempt.Value())
    }

    function PaceOfLive(c: LiveChunk, rule: StealRule, now: real): (pace: Option<(real, real)>)
      reads c.offsets, c.attempt
      ensures pace.Some? ==> pace.value.1 > 0.0
    {
      Pace(c, c.offsets.Value(), c.attempt.Value(), now,
           if c.status.Assigned? then Expected(rule, c.status.mirror) else None)
    }

    // ------------------------------------------------------------ settling

    method MarkCompleted(id: nat) returns (outcome: Outcome)
      requires Valid()
      modifies this`chunks, this`completed
      ensures Valid() && (View(), outcome) == Chunks.MarkCompleted(old(View()), id)
    {
      if id >= |chunks| {
        return NotFound;
      }
      if !chunks[id].status.Completed? {
        Complete(id);
      }
      return Ok;
    }

    method MarkFailed(id: nat, reason: string, minDelay: real, counts: bool, now: real, fraction: real)
      returns (outcome: Outcome)
      requires Valid()
      modifies this
      ensures Valid()
      ensures (View(), outcome) == Chunks.MarkFailed(old(View()), id, reason, minDelay, counts, now, fraction)
      ensures Grows()
    {
      hide View, Valid, Rows, OffsetValues, AttemptValues, Chunks.Requeue, Chunks.SplitOff;
      ViewFields();
      if id >= |chunks| {
        return NotFound;
      }
      LiveReads(id);
      if chunks[id].status.Completed? {
        return Ok;
      }
      var range := chunks[id].range;
      var pos := Max(range.start, Min(chunks[id].offsets.cur, range.end + 1));
      if pos > range.end {
        outcome := MarkCompleted(id);
        return;
      }
      var progress := pos > range.start;
      if progress {
        SetChunk(id, chunks[id].(retries := 0));
        SplitOff(id, pos);
      }
      Requeue(id, reason, minDelay, counts && !progress, now, fraction);
      return Ok;
    }

    method Requeue(id: nat, reason: string, minDelay: real, counted: bool, now: real, fraction: real)
      requires Valid() && id < |chunks|
      modifies this`chunks, this`fatal, this`retryQueue
      ensures Valid() && View() == Chunks.Requeue(old(View()), id, reason, minDelay, counted, now, fraction)
    {
      hide View, Valid, Rows, OffsetValues, AttemptValues;
      LiveReads(id);
      ViewFields();
      var c := chunks[id];
      var delay := minDelay;
      if counted {
        c := c.(retries := c.retries + 1);
        delay := MaxReal(delay, BackoffDelay(c.retries, fraction));
      }
      c := c.(notBefore := Some(now + delay), status := Failed(reason, c.retries));
      SetChunk(id, c);
      Enqueue(id, if c.retries > maxRetries && fatal.None? then Some((id, reason)) else fatal);
    }

    method Enqueue(id: nat, failure: Option<(nat, string)>)
      requires Valid() && id < |chunks|
      modifies this`fatal, this`retryQueue
      ensures Valid()
      ensures View() == old(View()).(fatal := failure, retryQueue := old(View()).retryQueue + [id])
    {
      fatal := failure;
      retryQueue := retryQueue + [id];
    }

    method Abort(id: nat, reason: string)
      requires Valid()
      modifies this`fatal
      ensures Valid() && View() == Chunks.Abort(old(View()), id, reason)
    {
      if fatal.None? {
        fatal := Some((id, reason));
      }
    }

    // ------------------------------------------------------------ what a worker tells

    /** The worker's only write to the manager's cells: the bytes before `to` are on disk. */
    method Publish(ghost i: nat, offsets: SharedOffsets, to: nat)
      requires Valid() && i < |cells| && cells[i] == offsets
      modifies offsets`cur
      ensures Valid() && View() == SetOffsets(old(View()), i, old(offsets.Value()).(cur := to))
    {
      offsets.cur := to;
      assert OffsetValues(cells) == old(OffsetValues(cells))[i := offsets.Value()];
    }

    /** Starts both `Rate`, from the present offset, and `Silence`, from `at`. */
    method Answered(ghost i: nat, offsets: SharedOffsets, attempt: SharedAttempt, at: real)
      requires Valid() && i < |records| && records[i] == attempt
      modifies attempt
      ensures Valid() && Tells(old(View()), View(), i, old(attempt.Value()).(answered := Some((at, offsets.cur)), waiting := Some(at)))
    {
      attempt.answered := Some((at, offsets.cur));
      attempt.waiting := Some(at);
      assert AttemptValues(records) == old(AttemptValues(records))[i := attempt.Value()];
    }

    /** Sets or clears the time `Silence` counts from. */
    method Waits(ghost i: nat, attempt: SharedAttempt, since: Option<real>)
      requires Valid() && i < |records| && records[i] == attempt
      modifies attempt
      ensures Valid() && Tells(old(View()), View(), i, old(attempt.Value()).(waiting := since))
    {
      attempt.waiting := since;
      assert AttemptValues(records) == old(AttemptValues(records))[i := attempt.Value()];
    }

    /** Moves the bound below which `Unreceived` counts nothing as still to come. */
    method Received(ghost i: nat, attempt: SharedAttempt, to: nat)
      requires Valid() && i < |records| && records[i] == attempt
      modifies attempt
      ensures Valid() && Tells(old(View()), View(), i, old(attempt.Value()).(received := to))
    {
      attempt.received := to;
      assert AttemptValues(records) == old(AttemptValues(records))[i := attempt.Value()];
    }

    /** Makes the attempt a measured peer, at `rate`. */
    method WentAt(ghost i: nat, attempt: SharedAttempt, rate: real)
      requires Valid() && i < |records| && records[i] == attempt
      modifies attempt
      ensures Valid() && Tells(old(View()), View(), i, old(attempt.Value()).(windowRate := Some(rate)))
    {
      attempt.windowRate := Some(rate);
      assert AttemptValues(records) == old(AttemptValues(records))[i := attempt.Value()];
    }

    // ------------------------------------------------------------ slow connections

    method Replaces(chunk: nat, mirror: nat, rate: real, now: real) returns (yes: bool)
      requires Valid()
      modifies this`replacedAt
      ensures Valid() && (View(), yes) == Chunks.Replaces(old(View()), chunk, mirror, rate, now)
    {
      if replacedAt.Some? && Elapsed(replacedAt.value, now) < LAG_WINDOW {
        return false;
      }
      var others := MeasuredPeers(chunk, mirror, now);
      if |others| + 1 < LAG_PEERS {
        return false;
      }
      var median := Median(others);
      var left := if chunk < |chunks| then Left(chunks[chunk]) else 0;
      if rate >= LAG_SHARE * median || left as real < median * LAG_WINDOW {
        return false;
      }
      RecordReplacement(now);
      return true;
    }

    /** The measured speeds of the other connections to `mirror`. */
    method MeasuredPeers(chunk: nat, mirror: nat, now: real) returns (others: seq<real>)
      requires Valid()
      ensures others == PeerRates(View(), |chunks|, chunk, mirror, now)
    {
      others := [];
      for i := 0 to |chunks|
        invariant others == PeerRates(View(), i, chunk, mirror, now)
      {
        var c := chunks[i];
        if i != chunk && c.status.Assigned? && c.status.mirror == mirror {
          var measured := c.attempt.windowRate;
          if measured.None? {
            measured := Rate(c.offsets.Value(), c.attempt.Value(), now);
          }
          if measured.Some? {
            others := others + [measured.value];
          }
        }
      }
    }

    method RecordReplacement(now: real)
      requires Valid()
      modifies this`replacedAt
      ensures Valid() && View() == old(View()).(replacedAt := Some(now))
    {
      replacedAt := Some(now);
    }
  }

  /** A steal leaves every chunk its handles. */
  lemma StealKeepsHandles(st: State, worker: nat, mirror: nat, rule: StealRule, now: real, i: nat)
    requires HandlesInRange(st) && i < |st.chunks|
    ensures var st' := Chunks.StealWork(st, worker, mirror, rule, now).0;
            && HandlesInRange(st') && i < |st'.chunks|
            && st'.chunks[i].offsets == st.chunks[i].offsets && |st.offsets| <= |st'.offsets|
  {
  }

  /**
   What becomes of a manager that hands out a chunk, splits some chunk for a thief, and gives the
   first one to a taker, if its first worker then publishes `to` all the same.
   */
  ghost function PublishedLate(st: State, worker: nat, mirror: nat, rule: StealRule, now: real, to: nat): State
    requires Sound(st)
  {
    SoundHandles(st);
    GetNextWorkIsSound(st, worker, mirror, now);
    var (handed, id) := GetNextWork(st, worker, mirror, now);
    SoundHandles(handed);
    match id
    case None => handed
    case Some(i) =>
      StealKeepsHandles(handed, worker, mirror, rule, now, i);
      var split := Chunks.StealWork(handed, worker, mirror, rule, now).0;
      var taken := Chunks.TakeOver(split, i, worker, mirror, now).0;
      var mine := handed.chunks[i].offsets;
      SetOffsets(taken, mine, taken.offsets[mine].(cur := to))
  }

  lemma HandedIsSound(st: State, worker: nat, mirror: nat, now: real)
    requires Sound(st)
    ensures QueueInRange(st) && HandlesInRange(GetNextWork(st, worker, mirror, now).0)
    ensures var (handed, id) := GetNextWork(st, worker, mirror, now);
            id.Some? ==> id.value < |handed.chunks| && RowOk(handed, id.value)
  {
    SoundHandles(st);
    GetNextWorkIsSound(st, worker, mirror, now);
    var (handed, id) := GetNextWork(st, worker, mirror, now);
    SoundHandles(handed);
    if id.Some? {
      assert id.value < |st.chunks| == |handed.chunks|;
      assert RowOk(handed, id.value);
    }
  }

  /** The late write reaches the worker's own revoked cell; nothing else of the manager changes. */
  method PublishLate(manager: ChunkManager, worker: nat, mirror: nat, rule: StealRule, now: real, to: nat)
    requires manager.Valid() && Sound(manager.View())
    modifies manager, manager.cells
    ensures manager.Valid() && manager.View() == PublishedLate(old(manager.View()), worker, mirror, rule, now, to)
  {
    hide Chunks.GetNextWork, Chunks.StealWork, Chunks.TakeOver, RowsSound, QueueOk, Rows, OffsetValues, AttemptValues, Sound;
    ghost var st := manager.View();
    HandedIsSound(st, worker, mirror, now);
    var mine := manager.GetNextWork(worker, mirror, now);
    ghost var handed := manager.View();
    if mine.None? {
      return;
    }
    var cell := mine.value.offsets;
    ghost var i := Chunks.GetNextWork(st, worker, mirror, now).1.value;
    manager.LiveReads(i);
    StealKeepsHandles(handed, worker, mirror, rule, now, i);
    var stolen := manager.StealWork(worker, mirror, rule, now);
    manager.ViewFields();
    var taken := manager.TakeOver(mine.value.id, worker, mirror, now);
    manager.CellReads(cell.id);
    manager.Publish(cell.id, cell, to);
  }
}
