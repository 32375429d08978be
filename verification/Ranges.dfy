/**
 Inclusive byte ranges, their merge into canonical form and the gaps they leave in a file
 (crates/hyperfetch-core/src/range.rs).
 */
module Ranges {
  import opened Basics
  import opened Sorting

  datatype ByteRange = ByteRange(start: nat, end: nat) {
    /** What the checked constructor guarantees: a range holds at least one byte. */
    predicate Valid() {
      start <= end
    }

    predicate Contains(b: nat) {
      start <= b <= end
    }

    function Len(): nat
      requires Valid()
    {
      end - start + 1
    }

    predicate Intersects(other: ByteRange) {
      start <= other.end && other.start <= end
    }

    function Intersection(other: ByteRange): Option<ByteRange> {
      if Intersects(other) then Some(ByteRange(Max(start, other.start), Min(end, other.end))) else None
    }

    /** One range for both, if they overlap or touch. */
    function Merge(other: ByteRange): Option<ByteRange> {
      if Intersects(other) || end + 1 == other.start || other.end + 1 == start then
        Some(ByteRange(Min(start, other.start), Max(end, other.end)))
      else
        None
    }

  }

  /** The order `derive(Ord)` gives: by start, then by end. */
  predicate ByStart(r: ByteRange, s: ByteRange) {
    r.start < s.start || (r.start == s.start && r.end <= s.end)
  }

  ghost predicate AllValid(rs: seq<ByteRange>) {
    forall r | r in rs :: r.Valid()
  }

  /** Byte `b` lies in one of the ranges. */
  ghost predicate Covers(rs: seq<ByteRange>, b: nat) {
    exists r :: r in rs && r.Contains(b)
  }

  ghost predicate SameBytes(rs: seq<ByteRange>, ss: seq<ByteRange>) {
    forall b: nat :: Covers(rs, b) <==> Covers(ss, b)
  }

  /** Sorted, disjoint and not even adjacent: the one way to write a set of bytes as ranges. */
  ghost predicate Canonical(rs: seq<ByteRange>) {
    && AllValid(rs)
    && forall i, j | 0 <= i < j < |rs| :: rs[i].end + 1 < rs[j].start
  }

  lemma CanonicalCons(r: ByteRange, rs: seq<ByteRange>)
    requires r.Valid() && Canonical(rs)
    requires rs != [] ==> r.end + 1 < rs[0].start
    ensures Canonical([r] + rs)
  {
    var all := [r] + rs;
    forall i, j | 0 <= i < j < |all|
      ensures all[i].end + 1 < all[j].start
    {
      assert all[j] == rs[j - 1] && rs[0] in rs;
      if i > 0 {
        assert all[i] == rs[i - 1];
      } else if j > 1 {
        assert rs[0].end + 1 < rs[j - 1].start;
      }
    }
  }

  lemma CoversConcat(rs: seq<ByteRange>, ss: seq<ByteRange>, b: nat)
    ensures Covers(rs + ss, b) <==> Covers(rs, b) || Covers(ss, b)
  {
    if Covers(rs, b) {
      var r :| r in rs && r.Contains(b);
      assert r in rs + ss;
    }
    if Covers(ss, b) {
      var r :| r in ss && r.Contains(b);
      assert r in rs + ss;
    }
  }

  lemma CoversOne(r: ByteRange, b: nat)
    ensures Covers([r], b) <==> r.Contains(b)
  {
    assert r in [r];
  }

  // ---------------------------------------------------------------- merging

  /** What the merge loop still yields, holding `current` with the sorted `rest` to come. */
  function MergeInto(current: ByteRange, rest: seq<ByteRange>): seq<ByteRange>
    decreases |rest|
  {
    if rest == [] then
      [current]
    else
      match current.Merge(rest[0])
      case Some(m) => MergeInto(m, rest[1..])
      case None => [current] + MergeInto(rest[0], rest[1..])
  }

  function Merged(rs: seq<ByteRange>): seq<ByteRange> {
    if rs == [] then [] else MergeInto(Sort(rs, ByStart)[0], Sort(rs, ByStart)[1..])
  }

  lemma {:induction false} MergeIntoIsCanonical(current: ByteRange, rest: seq<ByteRange>)
    requires current.Valid() && AllValid(rest) && SortedBy(rest, ByStart)
    requires forall r | r in rest :: current.start <= r.start
    ensures Canonical(MergeInto(current, rest))
    ensures MergeInto(current, rest) != [] && MergeInto(current, rest)[0].start == current.start
    ensures forall b: nat :: Covers(MergeInto(current, rest), b) <==> current.Contains(b) || Covers(rest, b)
    decreases |rest|
  {
    if rest == [] {
      forall b: nat {
        CoversOne(current, b);
      }
    } else {
      var first, tail := rest[0], rest[1..];
      assert rest == [first] + tail && first in rest;
      forall b: nat
        ensures Covers(rest, b) <==> first.Contains(b) || Covers(tail, b)
      {
        CoversConcat([first], tail, b);
        CoversOne(first, b);
      }
      match current.Merge(first) {
        case Some(m) =>
          MergeIntoIsCanonical(m, tail);
        case None =>
          assert current.end + 1 < first.start;
          MergeIntoIsCanonical(first, tail);
          var more := MergeInto(first, tail);
          CanonicalCons(current, more);
          forall b: nat
            ensures Covers([current] + more, b) <==> current.Contains(b) || Covers(more, b)
          {
            CoversConcat([current], more, b);
            CoversOne(current, b);
          }
      }
    }
  }

  /** Merging gives the canonical form of exactly the same bytes. */
  lemma MergedIsCanonical(rs: seq<ByteRange>)
    requires AllValid(rs)
    ensures Canonical(Merged(rs)) && SameBytes(Merged(rs), rs)
  {
    if rs != [] {
      var s := Sort(rs, ByStart);
      SortKeepsMembers(rs, ByStart);
      SortSorts(rs, ByStart);
      assert s == [s[0]] + s[1..];
      assert s[0] in s && forall r | r in s[1..] :: r in s;
      forall r | r in s[1..]
        ensures s[0].start <= r.start
      {
        var i :| 0 <= i < |s[1..]| && s[1..][i] == r;
        assert ByStart(s[0], s[i + 1]);
      }
      MergeIntoIsCanonical(s[0], s[1..]);
      forall b: nat
        ensures Covers(Merged(rs), b) <==> Covers(rs, b)
      {
        CoversConcat([s[0]], s[1..], b);
        CoversOne(s[0], b);
      }
    }
  }

  lemma {:induction false} CanonicalCoversFrom(rs: seq<ByteRange>, b: nat)
    requires Canonical(rs) && rs != []
    ensures Covers(rs, b) ==> rs[0].start <= b
    ensures Covers(rs[1..], b) <==> Covers(rs, b) && rs[0].end < b
    ensures rs[0].Contains(b) ==> Covers(rs, b)
  {
    assert rs == [rs[0]] + rs[1..] && rs[0] in rs;
    CoversConcat([rs[0]], rs[1..], b);
    CoversOne(rs[0], b);
    if Covers(rs[1..], b) {
      var r :| r in rs[1..] && r.Contains(b);
      var i :| 0 <= i < |rs[1..]| && rs[1..][i] == r;
      assert rs[i + 1] == r;
    }
  }

  lemma CoversNothing(rs: seq<ByteRange>)
    requires AllValid(rs) && forall b: nat :: !Covers(rs, b)
    ensures rs == []
  {
    if rs != [] {
      assert rs[0] in rs && rs[0].Contains(rs[0].start) ==> Covers(rs, rs[0].start);
    }
  }

  /** Canonical ranges are determined by the bytes they cover. */
  lemma {:induction false} CanonicalIsUnique(rs: seq<ByteRange>, ss: seq<ByteRange>)
    requires Canonical(rs) && Canonical(ss) && SameBytes(rs, ss)
    ensures rs == ss
    decreases |rs|
  {
    if rs == [] {
      CoversNothing(ss);
    } else {
      var r := rs[0];
      assert r in rs && r.Contains(r.start);
      assert Covers(ss, r.start);
      var s := ss[0];
      assert s in ss && s.Contains(s.start);
      CanonicalCoversFrom(rs, s.start);
      CanonicalCoversFrom(ss, r.start);
      assert r.start == s.start;
      FirstEndsTogether(rs, ss);
      FirstEndsTogether(ss, rs);
      forall b: nat
        ensures Covers(rs[1..], b) <==> Covers(ss[1..], b)
      {
        CanonicalCoversFrom(rs, b);
        CanonicalCoversFrom(ss, b);
      }
      CanonicalIsUnique(rs[1..], ss[1..]);
      assert rs == [r] + rs[1..] && ss == [s] + ss[1..];
    }
  }

  lemma GapAfterFirst(rs: seq<ByteRange>)
    requires Canonical(rs) && rs != []
    ensures !Covers(rs, rs[0].end + 1)
  {
    forall r | r in rs
      ensures !r.Contains(rs[0].end + 1)
    {
      var i :| 0 <= i < |rs| && rs[i] == r;
    }
  }

  lemma FirstEndsTogether(rs: seq<ByteRange>, ss: seq<ByteRange>)
    requires Canonical(rs) && Canonical(ss) && SameBytes(rs, ss)
    requires rs != [] && ss != [] && rs[0].start == ss[0].start
    ensures rs[0].end >= ss[0].end
  {
    GapAfterFirst(rs);
    assert rs[0] in rs && !Covers(ss, rs[0].end + 1);
    CanonicalCoversFrom(ss, rs[0].end + 1);
  }

  method MergeRanges(ranges: seq<ByteRange>) returns (merged: seq<ByteRange>)
    ensures merged == Merged(ranges)
  {
    if |ranges| == 0 {
      return [];
    }
    var sorted := Sort(ranges, ByStart);
    merged := [];
    var current := sorted[0];
    for i := 1 to |sorted|
      invariant merged + MergeInto(current, sorted[i..]) == Merged(ranges)
    {
      var next := sorted[i];
      assert sorted[i..][0] == next && sorted[i..][1..] == sorted[i + 1..];
      assert merged + ([current] + MergeInto(next, sorted[i + 1..])) == (merged + [current]) + MergeInto(next, sorted[i + 1..]);
      match current.Merge(next) {
        case Some(m) => current := m;
        case None =>
          merged := merged + [current];
          current := next;
      }
    }
    merged := merged + [current];
  }

  // ---------------------------------------------------------------- gaps

  /** The gaps from `cursor` on that the canonical `rs` leave before `total`. */
  function GapsFrom(cursor: nat, rs: seq<ByteRange>, total: nat): seq<ByteRange>
    decreases |rs|
  {
    if cursor >= total then
      []
    else if rs == [] || rs[0].start >= total then
      [ByteRange(cursor, total - 1)]
    else
      GapBefore(cursor, rs[0]) + GapsFrom(Max(rs[0].end + 1, cursor), rs[1..], total)
  }

  function Gaps(total: nat, done: seq<ByteRange>): seq<ByteRange> {
    if total == 0 then [] else GapsFrom(0, Merged(done), total)
  }

  lemma {:induction false} GapsFromAreTheRest(cursor: nat, rs: seq<ByteRange>, total: nat)
    requires Canonical(rs)
    requires forall r | r in rs :: cursor <= r.start
    ensures Canonical(GapsFrom(cursor, rs, total))
    ensures forall r | r in GapsFrom(cursor, rs, total) :: cursor <= r.start && r.end < total
    ensures forall b: nat :: Covers(GapsFrom(cursor, rs, total), b) <==> cursor <= b < total && !Covers(rs, b)
    decreases |rs|
  {
    if cursor >= total || rs == [] || rs[0].start >= total {
      LastGap(cursor, rs, total);
    } else {
      hide Covers, Canonical;
      var first, tail := rs[0], rs[1..];
      assert first in rs;
      TailIsApart(rs);
      GapsFromAreTheRest(first.end + 1, tail, total);
      var more := GapsFrom(first.end + 1, tail, total);
      assert GapsFrom(cursor, rs, total) == GapBefore(cursor, first) + more;
      GapThenMore(cursor, rs, more, total);
    }
  }

  lemma LastGap(cursor: nat, rs: seq<ByteRange>, total: nat)
    requires Canonical(rs) && (cursor >= total || rs == [] || rs[0].start >= total)
    ensures Canonical(GapsFrom(cursor, rs, total))
    ensures forall r | r in GapsFrom(cursor, rs, total) :: cursor <= r.start && r.end < total
    ensures forall b: nat :: Covers(GapsFrom(cursor, rs, total), b) <==> cursor <= b < total && !Covers(rs, b)
  {
    if cursor < total {
      forall b: nat
        ensures Covers([ByteRange(cursor, total - 1)], b) <==> cursor <= b < total && !Covers(rs, b)
      {
        CoversOne(ByteRange(cursor, total - 1), b);
        if rs != [] {
          CanonicalCoversFrom(rs, b);
        }
      }
    }
  }

  lemma TailIsApart(rs: seq<ByteRange>)
    requires Canonical(rs) && rs != []
    ensures Canonical(rs[1..]) && rs[0].start <= rs[0].end
    ensures forall r | r in rs[1..] :: rs[0].end + 1 < r.start
  {
    assert rs[0] in rs;
    forall r | r in rs[1..]
      ensures rs[0].end + 1 < r.start
    {
      var i :| 0 <= i < |rs[1..]| && rs[1..][i] == r;
      assert rs[i + 1] == r;
    }
  }

  /** The gap before the first range, followed by the gaps after it. */
  lemma GapThenMore(cursor: nat, rs: seq<ByteRange>, more: seq<ByteRange>, total: nat)
    requires Canonical(rs) && rs != [] && cursor <= rs[0].start < total && Canonical(more)
    requires forall r | r in more :: rs[0].end + 1 <= r.start && r.end < total
    requires forall b: nat :: Covers(more, b) <==> rs[0].end + 1 <= b < total && !Covers(rs[1..], b)
    ensures Canonical(GapBefore(cursor, rs[0]) + more)
    ensures forall r | r in GapBefore(cursor, rs[0]) + more :: cursor <= r.start && r.end < total
    ensures forall b: nat :: Covers(GapBefore(cursor, rs[0]) + more, b) <==> cursor <= b < total && !Covers(rs, b)
  {
    var head := GapBefore(cursor, rs[0]);
    assert rs[0] in rs;
    if head != [] {
      assert more != [] ==> more[0] in more;
      CanonicalCons(head[0], more);
    }
    forall b: nat
      ensures Covers(head + more, b) <==> cursor <= b < total && !Covers(rs, b)
    {
      CoversConcat(head, more, b);
      if head != [] {
        CoversOne(head[0], b);
      }
      CanonicalCoversFrom(rs, b);
    }
  }

  /** The gaps are exactly the complement of the given bytes in `[0, total)`, in canonical form. */
  lemma GapsAreTheComplement(total: nat, done: seq<ByteRange>)
    requires AllValid(done)
    ensures Canonical(Gaps(total, done))
    ensures forall b: nat :: Covers(Gaps(total, done), b) <==> b < total && !Covers(done, b)
  {
    MergedIsCanonical(done);
    GapsFromAreTheRest(0, Merged(done), total);
  }

  /** The gap `range` leaves before itself, counted from `cursor`. */
  function GapBefore(cursor: nat, range: ByteRange): seq<ByteRange> {
    if range.start > cursor then [ByteRange(cursor, range.start - 1)] else []
  }

  lemma GapsFromStep(gaps: seq<ByteRange>, cursor: nat, rs: seq<ByteRange>, i: nat, total: nat)
    requires i < |rs| && cursor < total && rs[i].start < total
    ensures gaps + GapsFrom(cursor, rs[i..], total)
         == (gaps + GapBefore(cursor, rs[i])) + GapsFrom(Max(rs[i].end + 1, cursor), rs[i + 1..], total)
  {
    assert rs[i..][0] == rs[i] && rs[i..][1..] == rs[i + 1..];
    assert GapsFrom(cursor, rs[i..], total)
        == GapBefore(cursor, rs[i]) + GapsFrom(Max(rs[i].end + 1, cursor), rs[i + 1..], total);
  }

  lemma NoGaps(done: seq<ByteRange>)
    ensures Gaps(0, done) == []
  {
  }

  lemma GapsStart(total: nat, done: seq<ByteRange>, merged: seq<ByteRange>)
    requires total > 0 && merged == Merged(done)
    ensures [] + GapsFrom(0, merged[0..], total) == Gaps(total, done)
  {
    assert merged[0..] == merged;
  }

  lemma GapsFromEnd(cursor: nat, rs: seq<ByteRange>, total: nat)
    requires cursor >= total || rs == [] || rs[0].start >= total
    ensures GapsFrom(cursor, rs, total) == if cursor < total then [ByteRange(cursor, total - 1)] else []
  {
  }

  method ComputeGaps(total: nat, completed: seq<ByteRange>) returns (gaps: seq<ByteRange>)
    ensures gaps == Gaps(total, completed)
  {
    hide Gaps, GapsFrom, GapBefore, Merged;
    NoGaps(completed);
    if total == 0 {
      return [];
    }
    var merged := MergeRanges(completed);
    gaps := [];
    var cursor: nat := 0;
    var i := 0;
    GapsStart(total, completed, merged);
    while i < |merged|
      invariant 0 <= i <= |merged| && cursor < total
      invariant gaps + GapsFrom(cursor, merged[i..], total) == Gaps(total, completed)
    {
      var range := merged[i];
      if range.start >= total {
        break;
      }
      GapsFromStep(gaps, cursor, merged, i, total);
      gaps := gaps + GapBefore(cursor, range);
      cursor := Max(range.end + 1, cursor);
      i := i + 1;
      if cursor >= total {
        break;
      }
    }
    GapsFromEnd(cursor, merged[i..], total);
    if cursor < total {
      gaps := gaps + [ByteRange(cursor, total - 1)];
    }
  }
}
