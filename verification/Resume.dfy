/** A manager built from what an earlier run left on disk (`with_resumed_ranges`). */
module Resume {
  import opened Basics
  import opened Ranges
  import opened Sorting
  import opened Chunks
  import opened ChunkInvariants
  import opened Conservation

  /** Each range ends before the next starts. */
  ghost predicate Ascending(rs: seq<ByteRange>) {
    && AllValid(rs)
    && forall i, j | 0 <= i < j < |rs| :: rs[i].end < rs[j].start
  }

  // ---------------------------------------------------------------- finished ranges

  lemma {:induction false} InFileCovers(rs: seq<ByteRange>, total: nat, b: nat)
    requires AllValid(rs) && total > 0
    ensures AllValid(InFile(rs, total))
    ensures Covers(InFile(rs, total), b) <==> b < total && Covers(rs, b)
  {
    if rs != [] {
      assert rs == [rs[0]] + rs[1..] && rs[0] in rs;
      assert forall r | r in rs[1..] :: r in rs;
      InFileCovers(rs[1..], total, b);
      CoversConcat([rs[0]], rs[1..], b);
      CoversOne(rs[0], b);
      match rs[0].Intersection(ByteRange(0, total - 1)) {
        case Some(r) =>
          CoversConcat([r], InFile(rs[1..], total), b);
          CoversOne(r, b);
        case None =>
      }
    }
  }

  /** What counts as finished: exactly the union of the given ranges, cut to the file. */
  lemma DoneRangesCover(total: nat, rs: seq<ByteRange>)
    requires AllValid(rs)
    ensures Canonical(DoneRanges(total, rs))
    ensures forall b: nat :: Covers(DoneRanges(total, rs), b) <==> b < total && Covers(rs, b)
  {
    if total > 0 {
      InFileCovers(rs, total, 0);
      MergedIsCanonical(InFile(rs, total));
      forall b: nat
        ensures Covers(DoneRanges(total, rs), b) <==> b < total && Covers(rs, b)
      {
        InFileCovers(rs, total, b);
      }
    }
  }

  // ---------------------------------------------------------------- pieces of the gaps

  lemma AscendingConcat(rs: seq<ByteRange>, ss: seq<ByteRange>)
    requires Ascending(rs) && Ascending(ss)
    requires forall r, s | r in rs && s in ss :: r.end < s.start
    ensures Ascending(rs + ss)
  {
    var all := rs + ss;
    forall i, j | 0 <= i < j < |all|
      ensures all[i].end < all[j].start
    {
      if i < |rs| <= j {
        assert rs[i] in rs && ss[j - |rs|] in ss;
      }
    }
  }

  lemma CutCovers(first: ByteRange, rest: seq<ByteRange>, end: nat)
    requires first.start <= first.end <= end
    requires forall b: nat :: Covers(rest, b) <==> first.end + 1 <= b <= end
    ensures forall b: nat :: Covers([first] + rest, b) <==> first.start <= b <= end
  {
    forall b: nat
      ensures Covers([first] + rest, b) <==> first.start <= b <= end
    {
      CoversConcat([first], rest, b);
      CoversOne(first, b);
    }
  }

  /** `r` lies in `[start, end]` and is `base` bytes long, or shorter and the last there. */
  predicate PieceOf(r: ByteRange, start: nat, end: nat, base: nat) {
    start <= r.start <= r.end <= end && (r.end - r.start + 1 == base || (r.end - r.start + 1 < base && r.end == end))
  }

  /** A piece in front of pieces that follow it. */
  lemma PieceInFront(first: ByteRange, rest: seq<ByteRange>, end: nat, base: nat)
    requires PieceOf(first, first.start, end, base)
    requires Ascending(rest) && forall r | r in rest :: PieceOf(r, first.end + 1, end, base)
    requires forall b: nat :: Covers(rest, b) <==> first.end + 1 <= b <= end
    ensures Ascending([first] + rest)
    ensures forall r | r in [first] + rest :: PieceOf(r, first.start, end, base)
    ensures forall b: nat :: Covers([first] + rest, b) <==> first.start <= b <= end
  {
    CutCovers(first, rest, end);
    hide Covers;
    AscendingConcat([first], rest);
    forall r | r in [first] + rest
      ensures PieceOf(r, first.start, end, base)
    {
      if r !in rest {
        assert r == first;
      } else {
        assert r.Valid();
      }
    }
  }

  lemma NoPieces()
    ensures Ascending([]) && forall b: nat :: !Covers([], b)
  {
  }

  lemma FirstPiece(start: nat, end: nat, base: nat)
    requires base > 0 && start <= end
    ensures PieceOf(ByteRange(start, start + Min(end - start + 1, base) - 1), start, end, base)
  {
  }

  lemma {:induction false} PiecesCut(start: nat, end: nat, base: nat)
    requires base > 0
    ensures Ascending(Pieces(start, end, base))
    ensures forall r | r in Pieces(start, end, base) :: PieceOf(r, start, end, base)
    ensures forall b: nat :: Covers(Pieces(start, end, base), b) <==> start <= b <= end
    decreases end + 1 - start
  {
    hide Ascending, Covers, PieceOf;
    if start > end {
      NoPieces();
    } else {
      FirstPiece(start, end, base);
      var len := Min(end - start + 1, base);
      var first := ByteRange(start, start + len - 1);
      PiecesCut(start + len, end, base);
      var rest := Pieces(start + len, end, base);
      PieceInFront(first, rest, end, base);
      assert Pieces(start, end, base) == [first] + rest;
    }
  }

  lemma PiecesCoverTheirGap(gap: ByteRange, base: nat)
    requires base > 0 && gap.start <= gap.end
    ensures SameBytes(Pieces(gap.start, gap.end, base), [gap])
  {
    PiecesCut(gap.start, gap.end, base);
    forall b: nat
      ensures Covers([gap], b) <==> gap.start <= b <= gap.end
    {
      CoversOne(gap, b);
    }
  }

  lemma {:induction false} PiecesOfCut(gaps: seq<ByteRange>, base: nat)
    requires base > 0 && Canonical(gaps)
    ensures Ascending(PiecesOf(gaps, base))
    ensures forall r | r in PiecesOf(gaps, base) :: gaps != [] && gaps[0].start <= r.start
    ensures SameBytes(PiecesOf(gaps, base), gaps)
  {
    if gaps != [] {
      var first, rest := gaps[0], gaps[1..];
      assert gaps == [first] + rest && first in gaps && forall r | r in rest :: r in gaps;
      PiecesCut(first.start, first.end, base);
      PiecesOfCut(rest, base);
      assert rest != [] ==> rest[0] == gaps[1] && first.end < rest[0].start;
      AscendingConcat(Pieces(first.start, first.end, base), PiecesOf(rest, base));
      PiecesCoverTheirGap(first, base);
      SameBytesConcat(Pieces(first.start, first.end, base), [first], PiecesOf(rest, base), rest);
    }
  }

  lemma SameBytesConcat(rs: seq<ByteRange>, rs': seq<ByteRange>, ss: seq<ByteRange>, ss': seq<ByteRange>)
    requires SameBytes(rs, rs') && SameBytes(ss, ss')
    ensures SameBytes(rs + ss, rs' + ss')
  {
    forall b: nat
      ensures Covers(rs + ss, b) <==> Covers(rs' + ss', b)
    {
      CoversConcat(rs, ss, b);
      CoversConcat(rs', ss', b);
    }
  }

  // ---------------------------------------------------------------- the sorted chunk list

  ghost predicate Apart(slots: seq<Slot>) {
    forall i, j | 0 <= i < j < |slots| :: !slots[i].range.Intersects(slots[j].range)
  }

  lemma {:induction false} TwoPlaces(slots: seq<Slot>, x: Slot) returns (i: nat, j: nat)
    requires multiset(slots)[x] >= 2
    ensures i < j < |slots| && slots[i] == x && slots[j] == x
  {
    assert slots == [slots[0]] + slots[1..];
    if slots[0] == x {
      assert multiset(slots[1..])[x] >= 1;
      var k :| 0 <= k < |slots[1..]| && slots[1..][k] == x;
      return 0, k + 1;
    } else {
      var k, l := TwoPlaces(slots[1..], x);
      return k + 1, l + 1;
    }
  }

  lemma CountTwice(slots: seq<Slot>, i: nat, j: nat)
    requires i < j < |slots| && slots[i] == slots[j]
    ensures multiset(slots)[slots[i]] >= 2
  {
    assert slots == slots[..j] + slots[j..];
    assert slots[..j][i] in multiset(slots[..j]) && slots[j..][0] in multiset(slots[j..]);
  }

  /** Putting disjoint slots in another order leaves them disjoint. */
  lemma ReorderedApart(slots: seq<Slot>, sorted: seq<Slot>)
    requires Apart(slots) && multiset(sorted) == multiset(slots)
    requires forall s | s in slots :: s.range.Valid()
    ensures Apart(sorted)
  {
    forall i, j | 0 <= i < j < |sorted|
      ensures !sorted[i].range.Intersects(sorted[j].range)
    {
      var x, y := sorted[i], sorted[j];
      assert x in multiset(slots) && y in multiset(slots);
      if x == y {
        CountTwice(sorted, i, j);
        var k, l := TwoPlaces(slots, x);
      } else {
        var k :| 0 <= k < |slots| && slots[k] == x;
        var l :| 0 <= l < |slots| && slots[l] == y;
        assert !slots[Min(k, l)].range.Intersects(slots[Max(k, l)].range);
      }
    }
  }

  function Slots(done: seq<ByteRange>, pieces: seq<ByteRange>): seq<Slot> {
    Tagged(done, true) + Tagged(pieces, false)
  }

  lemma SlotsApart(done: seq<ByteRange>, pieces: seq<ByteRange>)
    requires Canonical(done) && Ascending(pieces)
    requires forall b: nat :: !(Covers(done, b) && Covers(pieces, b))
    ensures Apart(Slots(done, pieces))
  {
    var slots := Slots(done, pieces);
    forall i, j | 0 <= i < j < |slots|
      ensures !slots[i].range.Intersects(slots[j].range)
    {
      if i < |done| <= j {
        NoSharedByte(done, pieces, done[i], pieces[j - |done|]);
      }
    }
  }

  lemma NoSharedByte(done: seq<ByteRange>, pieces: seq<ByteRange>, r: ByteRange, p: ByteRange)
    requires AllValid(done) && AllValid(pieces) && r in done && p in pieces
    requires forall b: nat :: !(Covers(done, b) && Covers(pieces, b))
    ensures !r.Intersects(p)
  {
    var b := Max(r.start, p.start);
    assert r.Contains(b) && p.Contains(b) ==> Covers(done, b) && Covers(pieces, b);
    assert r.Valid() && p.Valid();
  }

  /** Which ranges the slots hold, finished and not. */
  lemma SlotMembers(done: seq<ByteRange>, pieces: seq<ByteRange>)
    ensures forall s :: s in Slots(done, pieces) <==> s.range in (if s.done then done else pieces)
  {
    var slots := Slots(done, pieces);
    forall s
      ensures s in slots <==> s.range in (if s.done then done else pieces)
    {
      if s in slots {
        var i :| 0 <= i < |slots| && slots[i] == s;
      }
      if s.done && s.range in done {
        var i :| 0 <= i < |done| && done[i] == s.range;
        assert slots[i] == s;
      }
      if !s.done && s.range in pieces {
        var i :| 0 <= i < |pieces| && pieces[i] == s.range;
        assert slots[|done| + i] == s;
      }
    }
  }

  lemma SlotsSort(done: seq<ByteRange>, pieces: seq<ByteRange>)
    requires Canonical(done) && Ascending(pieces)
    requires forall b: nat :: !(Covers(done, b) && Covers(pieces, b))
    ensures Apart(Sort(Slots(done, pieces), SlotByStart))
    ensures SortedBy(Sort(Slots(done, pieces), SlotByStart), SlotByStart)
    ensures forall s :: s in Sort(Slots(done, pieces), SlotByStart) <==> s.range in (if s.done then done else pieces)
  {
    SlotsApart(done, pieces);
    SlotMembers(done, pieces);
    SortKeepsMembers(Slots(done, pieces), SlotByStart);
    ReorderedApart(Slots(done, pieces), Sort(Slots(done, pieces), SlotByStart));
    SortSorts(Slots(done, pieces), SlotByStart);
  }

  function Flags(slots: seq<Slot>): seq<nat> {
    seq(|slots|, i requires 0 <= i < |slots| => if slots[i].done then 1 else 0)
  }

  lemma FlagsCons(x: Slot, slots: seq<Slot>)
    ensures Sum(Flags([x] + slots)) == (if x.done then 1 else 0) + Sum(Flags(slots))
  {
    var flag := if x.done then 1 else 0;
    assert Flags([x] + slots) == [flag] + Flags(slots);
    SumPrepend(flag, Flags(slots));
  }

  lemma {:induction false} InsertKeepsFlags(x: Slot, slots: seq<Slot>)
    ensures Sum(Flags(Insert(x, slots, SlotByStart))) == (if x.done then 1 else 0) + Sum(Flags(slots))
  {
    if slots == [] || SlotByStart(x, slots[0]) {
      FlagsCons(x, slots);
    } else {
      InsertKeepsFlags(x, slots[1..]);
      FlagsCons(slots[0], Insert(x, slots[1..], SlotByStart));
      FlagsCons(slots[0], slots[1..]);
      assert slots == [slots[0]] + slots[1..];
    }
  }

  lemma {:induction false} SortKeepsFlags(slots: seq<Slot>)
    ensures Sum(Flags(Sort(slots, SlotByStart))) == Sum(Flags(slots))
  {
    if slots == [] {
      assert Sort(slots, SlotByStart) == slots;
    } else {
      SortKeepsFlags(slots[1..]);
      InsertKeepsFlags(slots[0], Sort(slots[1..], SlotByStart));
      FlagsCons(slots[0], slots[1..]);
      assert slots == [slots[0]] + slots[1..];
    }
  }

  lemma {:induction false} CountDone(done: seq<ByteRange>, pieces: seq<ByteRange>)
    ensures Sum(Flags(Slots(done, pieces))) == |done|
    decreases |done| + |pieces|
  {
    if pieces != [] {
      CountDone(done, pieces[..|pieces| - 1]);
      assert Flags(Slots(done, pieces)) == Flags(Slots(done, pieces[..|pieces| - 1])) + [0];
      SumAppend(Flags(Slots(done, pieces[..|pieces| - 1])), 0);
    } else if done != [] {
      CountDone(done[..|done| - 1], []);
      assert Flags(Slots(done, [])) == Flags(Slots(done[..|done| - 1], [])) + [1];
      SumAppend(Flags(Slots(done[..|done| - 1], [])), 1);
    }
  }

  // ---------------------------------------------------------------- the manager built from it

  /** The bytes the ranges cover. */
  ghost function BytesIn(rs: seq<ByteRange>): set<nat> {
    if rs == [] then {} else Span(rs[0].start, Size(rs[0])) + BytesIn(rs[1..])
  }

  lemma BytesInCons(rs: seq<ByteRange>)
    requires rs != []
    ensures BytesIn(rs) == Span(rs[0].start, Size(rs[0])) + BytesIn(rs[1..])
  {
  }

  lemma {:induction false} BytesInCovers(rs: seq<ByteRange>, b: nat)
    ensures b in BytesIn(rs) <==> Covers(rs, b)
  {
    if rs != [] {
      assert rs == [rs[0]] + rs[1..];
      BytesInCovers(rs[1..], b);
      CoversConcat([rs[0]], rs[1..], b);
      CoversOne(rs[0], b);
    }
  }

  lemma {:induction false} SizesCountBytes(rs: seq<ByteRange>)
    requires forall i, j | 0 <= i < j < |rs| :: !rs[i].Intersects(rs[j])
    ensures Sum(Sizes(rs)) == |BytesIn(rs)|
  {
    if rs != [] {
      var rest := rs[1..];
      forall i, j | 0 <= i < j < |rest|
        ensures !rest[i].Intersects(rest[j])
      {
        assert !rs[i + 1].Intersects(rs[j + 1]);
      }
      SizesCountBytes(rest);
      FirstIsApart(rs);
      DisjointSizes(Span(rs[0].start, Size(rs[0])), BytesIn(rest));
      BytesInCons(rs);
      assert Sizes(rs) == [Size(rs[0])] + Sizes(rest);
      SumPrepend(Size(rs[0]), Sizes(rest));
    }
  }

  lemma FirstIsApart(rs: seq<ByteRange>)
    requires rs != [] && forall i, j | 0 <= i < j < |rs| :: !rs[i].Intersects(rs[j])
    ensures Span(rs[0].start, Size(rs[0])) !! BytesIn(rs[1..])
  {
    var first := Span(rs[0].start, Size(rs[0]));
    forall b | b in first
      ensures b !in BytesIn(rs[1..])
    {
      BytesInCovers(rs[1..], b);
      forall r | r in rs[1..]
        ensures !r.Contains(b)
      {
        var i :| 0 <= i < |rs[1..]| && rs[1..][i] == r;
        assert !rs[0].Intersects(rs[i + 1]);
      }
    }
  }

  lemma {:induction false} SumPrepend(x: nat, xs: seq<nat>)
    ensures Sum([x] + xs) == x + Sum(xs)
    decreases |xs|
  {
    if xs == [] {
      assert [x] + xs == [x] && [x][..0] == [];
    } else {
      SumPrepend(x, xs[..|xs| - 1]);
      assert ([x] + xs)[..|xs|] == [x] + xs[..|xs| - 1];
    }
  }

  ghost predicate HeldAt(slots: seq<Slot>, b: nat) {
    exists s :: s in slots && s.range.Contains(b)
  }

  ghost predicate DoneAt(slots: seq<Slot>, b: nat) {
    exists s :: s in slots && s.done && s.range.Contains(b)
  }

  /** `r` has `base` bytes, or fewer and ends where a finished range begins or the file ends. */
  ghost predicate Piece(r: ByteRange, base: nat, total: nat, rs: seq<ByteRange>) {
    && r.Valid() && r.Len() <= base
    && (r.Len() < base ==> r.end + 1 == total || Covers(rs, r.end + 1))
  }

  lemma {:induction false} GapOfPiece(gaps: seq<ByteRange>, base: nat, r: ByteRange) returns (g: ByteRange)
    requires base > 0 && r in PiecesOf(gaps, base)
    ensures g in gaps && PieceOf(r, g.start, g.end, base)
  {
    if r in Pieces(gaps[0].start, gaps[0].end, base) {
      PiecesCut(gaps[0].start, gaps[0].end, base);
      return gaps[0];
    }
    g := GapOfPiece(gaps[1..], base, r);
  }

  lemma AfterAMember(rs: seq<ByteRange>, g: ByteRange)
    requires Canonical(rs) && g in rs
    ensures Covers(rs, g.end) && !Covers(rs, g.end + 1)
  {
    assert g.Contains(g.end);
    forall h | h in rs
      ensures !h.Contains(g.end + 1)
    {
      var i :| 0 <= i < |rs| && rs[i] == g;
      var j :| 0 <= j < |rs| && rs[j] == h;
    }
  }

  lemma PiecesEndAtDone(total: nat, base: nat, done: seq<ByteRange>, r: ByteRange)
    requires base > 0 && AllValid(done) && r in PiecesOf(Gaps(total, done), base)
    ensures Piece(r, base, total, done)
  {
    hide Canonical, Gaps, PiecesOf, Covers;
    var gaps := Gaps(total, done);
    GapsAreTheComplement(total, done);
    var g := GapOfPiece(gaps, base, r);
    AfterAMember(gaps, g);
  }

  /** Disjoint and in file order; finished slots the finished ranges, the others pieces between them. */
  ghost predicate GoodLayout(slots: seq<Slot>, total: nat, base: nat, rs: seq<ByteRange>) {
    && Apart(slots) && SortedBy(slots, SlotByStart)
    && (forall s | s in slots :: s.range.Valid() && (!s.done ==> Piece(s.range, base, total, rs)))
    && (forall b: nat :: HeldAt(slots, b) <==> b < total)
    && (forall b: nat :: DoneAt(slots, b) <==> b < total && Covers(rs, b))
  }

  lemma LayoutIsGood(total: nat, base: nat, rs: seq<ByteRange>)
    requires AllValid(rs) && base > 0
    ensures GoodLayout(Layout(total, base, rs), total, base, rs)
  {
    var done := DoneRanges(total, rs);
    var pieces := PiecesOf(Gaps(total, done), base);
    DoneRangesCover(total, rs);
    GapsAreTheComplement(total, done);
    PiecesOfCut(Gaps(total, done), base);
    assert forall b: nat :: Covers(pieces, b) <==> b < total && !Covers(done, b);
    forall r | r in pieces
      ensures Piece(r, base, total, rs)
    {
      PiecesEndAtDone(total, base, done, r);
    }
    SlotsAreGood(done, pieces, total, base, rs);
  }

  lemma SlotsAreGood(done: seq<ByteRange>, pieces: seq<ByteRange>, total: nat, base: nat, rs: seq<ByteRange>)
    requires Canonical(done) && forall b: nat :: Covers(done, b) <==> b < total && Covers(rs, b)
    requires Ascending(pieces) && forall b: nat :: Covers(pieces, b) <==> b < total && !Covers(done, b)
    requires forall r | r in pieces :: Piece(r, base, total, rs)
    ensures GoodLayout(Sort(Slots(done, pieces), SlotByStart), total, base, rs)
  {
    SlotsSort(done, pieces);
    SlotsCover(done, pieces, Sort(Slots(done, pieces), SlotByStart));
  }

  lemma LayoutCounts(total: nat, base: nat, rs: seq<ByteRange>)
    requires base > 0
    ensures Sum(Flags(Layout(total, base, rs))) == |DoneRanges(total, rs)|
  {
    var done := DoneRanges(total, rs);
    SortKeepsFlags(Slots(done, PiecesOf(Gaps(total, done), base)));
    CountDone(done, PiecesOf(Gaps(total, done), base));
  }

  lemma SlotsCover(done: seq<ByteRange>, pieces: seq<ByteRange>, slots: seq<Slot>)
    requires forall s :: s in slots <==> s.range in (if s.done then done else pieces)
    ensures forall b: nat :: HeldAt(slots, b) <==> Covers(done, b) || Covers(pieces, b)
    ensures forall b: nat :: DoneAt(slots, b) <==> Covers(done, b)
  {
    forall b: nat
      ensures HeldAt(slots, b) <==> Covers(done, b) || Covers(pieces, b)
      ensures DoneAt(slots, b) <==> Covers(done, b)
    {
      if Covers(done, b) {
        var r :| r in done && r.Contains(b);
        assert Slot(r, true) in slots && Slot(r, true).range.Contains(b);
      }
      if Covers(pieces, b) {
        var r :| r in pieces && r.Contains(b);
        assert Slot(r, false) in slots && Slot(r, false).range.Contains(b);
      }
    }
  }

  lemma SlotsTile(slots: seq<Slot>, ranges: seq<ByteRange>, total: nat)
    requires Apart(slots) && forall s | s in slots :: s.range.Valid()
    requires forall b: nat :: HeldAt(slots, b) <==> b < total
    requires |ranges| == |slots| && forall i | 0 <= i < |slots| :: ranges[i] == slots[i].range
    ensures Tiles(ranges, total)
  {
    forall b: nat
      ensures Covers(ranges, b) <==> b < total
    {
      if HeldAt(slots, b) {
        var s :| s in slots && s.range.Contains(b);
        var i :| 0 <= i < |slots| && slots[i] == s;
        assert ranges[i] in ranges;
      }
      if Covers(ranges, b) {
        var r :| r in ranges && r.Contains(b);
        var i :| 0 <= i < |ranges| && ranges[i] == r;
        assert slots[i] in slots && HeldAt(slots, b);
      }
    }
    forall i | 0 <= i < |ranges|
      ensures ranges[i].Valid() && ranges[i].end < total
    {
      assert slots[i] in slots && slots[i].range.Contains(ranges[i].end);
      assert HeldAt(slots, ranges[i].end);
    }
    SizesCountBytes(ranges);
    forall b: nat
      ensures b in BytesIn(ranges) <==> b in Span(0, total)
    {
      BytesInCovers(ranges, b);
    }
    assert BytesIn(ranges) == Span(0, total);
  }

  lemma StartRows(total: nat, base: nat, rs: seq<ByteRange>, maxRetries: nat)
    ensures var st := Start(total, base, rs, maxRetries);
            RowsOk(st) && OwnHandles(st) && QueueOk(st) && HandlesInRange(st)
  {
    hide Layout, DoneRanges;
  }

  lemma StartTiles(total: nat, base: nat, rs: seq<ByteRange>, maxRetries: nat)
    requires AllValid(rs)
    ensures Tiles(RangesOf(Start(total, base, rs, maxRetries)), total)
  {
    LayoutIsGood(total, Base(base), rs);
    SlotsTile(Layout(total, Base(base), rs), RangesOf(Start(total, base, rs, maxRetries)), total);
  }

  lemma NewFlags(st: State, slots: seq<Slot>)
    requires st.chunks == NewChunks(slots)
    ensures CompletedFlags(st) == Flags(slots)
  {
  }

  lemma StartCounts(total: nat, base: nat, rs: seq<ByteRange>, maxRetries: nat)
    ensures var st := Start(total, base, rs, maxRetries); st.completed == Sum(CompletedFlags(st))
  {
    LayoutCounts(total, Base(base), rs);
    NewFlags(Start(total, base, rs, maxRetries), Layout(total, Base(base), rs));
  }

  /** A new manager satisfies everything its operations keep. */
  lemma StartIsSound(total: nat, base: nat, rs: seq<ByteRange>, maxRetries: nat)
    requires AllValid(rs)
    ensures Sound(Start(total, base, rs, maxRetries)) && HandlesInRange(Start(total, base, rs, maxRetries))
  {
    StartRows(total, base, rs, maxRetries);
    StartTiles(total, base, rs, maxRetries);
    StartCounts(total, base, rs, maxRetries);
    var st := Start(total, base, rs, maxRetries);
    assert st.total == total;
  }

  lemma NewRecord(st: State, slots: seq<Slot>, b: nat)
    requires HandlesInRange(st) && st.chunks == NewChunks(slots) && st.offsets == NewOffsets(slots)
    ensures Recorded(st, b) <==> DoneAt(slots, b)
  {
    if Recorded(st, b) {
      var i: nat :| i < |st.chunks| && InPrefix(st, i, b);
      assert slots[i] in slots && slots[i].done && slots[i].range.Contains(b);
    }
    if DoneAt(slots, b) {
      var s :| s in slots && s.done && s.range.Contains(b);
      var i: nat :| i < |slots| && slots[i] == s;
      assert InPrefix(st, i, b);
    }
  }

  lemma StartRecord(total: nat, base: nat, rs: seq<ByteRange>, maxRetries: nat)
    requires AllValid(rs) && HandlesInRange(Start(total, base, rs, maxRetries))
    ensures forall b: nat :: Recorded(Start(total, base, rs, maxRetries), b) <==> b < total && Covers(rs, b)
  {
    hide HandlesInRange, Recorded, NewChunks, NewOffsets, NewAttempts;
    LayoutIsGood(total, Base(base), rs);
    forall b: nat
      ensures Recorded(Start(total, base, rs, maxRetries), b) <==> DoneAt(Layout(total, Base(base), rs), b)
    {
      NewRecord(Start(total, base, rs, maxRetries), Layout(total, Base(base), rs), b);
    }
  }

  /**
   New chunks are in file order. Those left to fetch have the base size exactly, 64 KiB at least, but
   for one that ends where a finished range begins or the file ends, which may be shorter.
   */
  lemma StartIsOrdered(total: nat, base: nat, rs: seq<ByteRange>, maxRetries: nat)
    requires AllValid(rs)
    ensures var chunks := Start(total, base, rs, maxRetries).chunks;
            && (forall i, j | 0 <= i < j < |chunks| :: chunks[i].range.end < chunks[j].range.start)
            && (forall i | 0 <= i < |chunks| && !chunks[i].status.Completed? ::
                  Piece(chunks[i].range, if base > 65536 then base else 65536, total, rs))
  {
    var chunks := Start(total, base, rs, maxRetries).chunks;
    var slots := Layout(total, Base(base), rs);
    LayoutIsGood(total, Base(base), rs);
    forall i, j | 0 <= i < j < |chunks|
      ensures chunks[i].range.end < chunks[j].range.start
    {
      assert slots[i] in slots && slots[j] in slots;
      assert SlotByStart(slots[i], slots[j]) && !slots[i].range.Intersects(slots[j].range);
    }
    forall i | 0 <= i < |chunks| && !chunks[i].status.Completed?
      ensures Piece(chunks[i].range, Base(base), total, rs)
    {
      assert slots[i] in slots;
    }
  }

  /**
   For any ranges, however unsorted, overlapping or past the end: the record is exactly their
   union cut to the file, reported in canonical form.
   */
  lemma ResumeIsExact(total: nat, base: nat, rs: seq<ByteRange>, maxRetries: nat)
    requires AllValid(rs)
    ensures var st := Start(total, base, rs, maxRetries);
            && HandlesInRange(st)
            && CompletedRanges(st) == DoneRanges(total, rs)
            && forall b: nat :: Covers(CompletedRanges(st), b) <==> b < total && Covers(rs, b)
  {
    var st := Start(total, base, rs, maxRetries);
    StartIsSound(total, base, rs, maxRetries);
    StartRecord(total, base, rs, maxRetries);
    CompletedRangesAreTheRecord(st);
    DoneRangesCover(total, rs);
    CanonicalIsUnique(CompletedRanges(st), DoneRanges(total, rs));
  }

  /** Saving what a manager reports and resuming from it, with any base size, reports the same again. */
  lemma ResumeRoundTrip(st: State, base: nat, maxRetries: nat)
    requires Sound(st) && HandlesInRange(st)
    ensures var again := Start(st.total, base, CompletedRanges(st), maxRetries);
            && HandlesInRange(again)
            && CompletedRanges(again) == CompletedRanges(st)
            && TotalDownloaded(again) == TotalDownloaded(st)
  {
    CompletedRangesAreTheRecord(st);
    var again := Start(st.total, base, CompletedRanges(st), maxRetries);
    StartIsSound(st.total, base, CompletedRanges(st), maxRetries);
    StartRecord(st.total, base, CompletedRanges(st), maxRetries);
    forall b: nat
      ensures Recorded(again, b) <==> Recorded(st, b)
    {
      if Recorded(st, b) {
        var i: nat :| i < |st.chunks| && InPrefix(st, i, b);
        DoneSpanIsPrefix(st, i, b);
      }
    }
    SameRecordSameReport(st, again);
  }
}
