/**
 A byte range served from files as if they were one (crates/hyperfetch-core/src/concat_server.rs).
 The files do not change while they are served; each read returns at least one byte before the
 end of its file, but possibly fewer than asked for.
 */
module Concat {
  import opened Basics

  type Bytes = seq<bv8>

  const BUFFER: nat := 65536

  /** The one file all of them make. */
  function Joined(files: seq<Bytes>): Bytes {
    if files == [] then [] else Joined(files[..|files| - 1]) + files[|files| - 1]
  }

  /** Where file `i` starts in it. */
  function StartOf(files: seq<Bytes>, i: nat): nat
    requires i <= |files|
  {
    |Joined(files[..i])|
  }

  lemma StartOfNext(files: seq<Bytes>, i: nat)
    requires i < |files|
    ensures StartOf(files, i + 1) == StartOf(files, i) + |files[i]|
    ensures Joined(files[..i + 1]) == Joined(files[..i]) + files[i]
  {
    assert files[..i + 1][..i] == files[..i];
  }

  lemma {:induction false} JoinedPrefix(files: seq<Bytes>, i: nat)
    requires i <= |files|
    ensures StartOf(files, i) <= |Joined(files)| && Joined(files)[..StartOf(files, i)] == Joined(files[..i])
    decreases |files| - i
  {
    if i == |files| {
      assert files[..i] == files;
    } else {
      JoinedPrefix(files, i + 1);
      StartOfNext(files, i);
    }
  }

  /** Bytes of file `i` are bytes of the joined file. */
  lemma PieceOfJoined(files: seq<Bytes>, i: nat, from: nat, to: nat)
    requires i < |files| && from <= to <= |files[i]|
    ensures StartOf(files, i) + to <= |Joined(files)|
    ensures files[i][from..to] == Joined(files)[StartOf(files, i) + from..StartOf(files, i) + to]
  {
    JoinedPrefix(files, i + 1);
    StartOfNext(files, i);
  }

  // ---------------------------------------------------------------- starting

  ghost predicate AreEnds(ends: seq<nat>, files: seq<Bytes>) {
    |ends| == |files| && forall i | 0 <= i < |ends| :: ends[i] == StartOf(files, i + 1)
  }

  /** Cumulative file boundaries and the total; none without files. */
  method Boundaries(files: seq<Bytes>) returns (started: Option<(seq<nat>, nat)>)
    ensures started.None? <==> files == []
    ensures started.Some? ==> AreEnds(started.value.0, files) && started.value.1 == |Joined(files)|
  {
    if |files| == 0 {
      return None;
    }
    var ends: seq<nat> := [];
    var total: nat := 0;
    assert files[..0] == [];
    for i := 0 to |files|
      invariant |ends| == i && total == StartOf(files, i)
      invariant forall k | 0 <= k < i :: ends[k] == StartOf(files, k + 1)
    {
      StartOfNext(files, i);
      total := total + |files[i]|;
      ends := ends + [total];
    }
    assert files[..|files|] == files;
    return Some((ends, total));
  }

  // ---------------------------------------------------------------- choosing the range

  /** What one range line of a request gives: its start and end, as far as they are numbers. */
  datatype RangeLine = RangeLine(start: Option<nat>, end: Option<nat>)

  datatype Answer = Unsatisfiable | Serve(start: nat, end: nat)

  /** The last number given as a start. */
  function WantedStart(lines: seq<RangeLine>): nat {
    if lines == [] then 0
    else if lines[|lines| - 1].start.Some? then lines[|lines| - 1].start.value
    else WantedStart(lines[..|lines| - 1])
  }

  /** The last number given as an end that lies in the file; its last byte else. */
  function WantedEnd(lines: seq<RangeLine>, total: nat): nat {
    if lines == [] then Max(0, total - 1)
    else if lines[|lines| - 1].end.Some? && lines[|lines| - 1].end.value < total then lines[|lines| - 1].end.value
    else WantedEnd(lines[..|lines| - 1], total)
  }

  predicate IsLastStart(lines: seq<RangeLine>, i: nat)
    requires i < |lines|
  {
    lines[i].start.Some? && forall j | i < j < |lines| :: lines[j].start.None?
  }

  predicate EndsInside(line: RangeLine, total: nat) {
    line.end.Some? && line.end.value < total
  }

  predicate IsLastEnd(lines: seq<RangeLine>, i: nat, total: nat)
    requires i < |lines|
  {
    EndsInside(lines[i], total) && forall j | i < j < |lines| :: !EndsInside(lines[j], total)
  }

  lemma {:induction false} StartIsLast(lines: seq<RangeLine>, i: nat)
    requires i < |lines| && IsLastStart(lines, i)
    ensures WantedStart(lines) == lines[i].start.value
    decreases |lines|
  {
    if i < |lines| - 1 {
      StartIsLast(lines[..|lines| - 1], i);
    }
  }

  lemma {:induction false} NoStart(lines: seq<RangeLine>)
    requires forall i | 0 <= i < |lines| :: lines[i].start.None?
    ensures WantedStart(lines) == 0
  {
    if lines != [] {
      NoStart(lines[..|lines| - 1]);
    }
  }

  lemma {:induction false} EndIsLast(lines: seq<RangeLine>, i: nat, total: nat)
    requires i < |lines| && IsLastEnd(lines, i, total)
    ensures WantedEnd(lines, total) == lines[i].end.value
    decreases |lines|
  {
    if i < |lines| - 1 {
      EndIsLast(lines[..|lines| - 1], i, total);
    }
  }

  lemma {:induction false} NoEnd(lines: seq<RangeLine>, total: nat)
    requires forall i | 0 <= i < |lines| :: !EndsInside(lines[i], total)
    ensures WantedEnd(lines, total) == if total == 0 then 0 else total - 1
  {
    if lines != [] {
      NoEnd(lines[..|lines| - 1], total);
    }
  }

  /**
   Of several lines the last start counts, and the last end that lies in the file; by default the
   range is the whole file.
   */
  lemma LastNumberCounts(lines: seq<RangeLine>, total: nat)
    ensures (forall i | 0 <= i < |lines| :: lines[i].start.None?) ==> WantedStart(lines) == 0
    ensures forall i | 0 <= i < |lines| && IsLastStart(lines, i) :: WantedStart(lines) == lines[i].start.value
    ensures (forall i | 0 <= i < |lines| :: !EndsInside(lines[i], total)) ==>
              WantedEnd(lines, total) == if total == 0 then 0 else total - 1
    ensures forall i | 0 <= i < |lines| && IsLastEnd(lines, i, total) :: WantedEnd(lines, total) == lines[i].end.value
  {
    hide WantedStart, WantedEnd;
    if forall i | 0 <= i < |lines| :: lines[i].start.None? {
      NoStart(lines);
    }
    if forall i | 0 <= i < |lines| :: !EndsInside(lines[i], total) {
      NoEnd(lines, total);
    }
    forall i | 0 <= i < |lines| && IsLastStart(lines, i)
      ensures WantedStart(lines) == lines[i].start.value
    {
      StartIsLast(lines, i);
    }
    forall i | 0 <= i < |lines| && IsLastEnd(lines, i, total)
      ensures WantedEnd(lines, total) == lines[i].end.value
    {
      EndIsLast(lines, i, total);
    }
  }

  /**
   One line: `a-b` within the file is served as it says; `a-` and an end past the file go up to the
   last byte; and `-b`, for which RFC 9110 means the last `b` bytes, is the range from 0 to `b`.
   */
  lemma OneLine(line: RangeLine, total: nat)
    requires total > 0
    ensures var (start, end) := (WantedStart([line]), WantedEnd([line], total));
            match line
            case RangeLine(Some(a), Some(b)) => start == a && (b < total ==> end == b) && (b >= total ==> end == total - 1)
            case RangeLine(Some(a), None) => start == a && end == total - 1
            case RangeLine(None, Some(b)) => start == 0 && (b < total ==> end == b)
            case RangeLine(None, None) => start == 0 && end == total - 1
  {
    LastNumberCounts([line], total);
    assert [line][0] == line;
  }

  method ChooseRange(lines: seq<RangeLine>, total: nat) returns (answer: Answer)
    ensures answer.Serve? <==> WantedStart(lines) <= WantedEnd(lines, total) && WantedStart(lines) < total
    ensures answer.Serve? ==> answer.start == WantedStart(lines) && answer.end == WantedEnd(lines, total)
    ensures answer.Serve? ==> answer.start <= answer.end < total
  {
    var start: nat := 0;
    var end: nat := Max(0, total - 1);
    for i := 0 to |lines|
      invariant start == WantedStart(lines[..i]) && end == WantedEnd(lines[..i], total)
      invariant total > 0 ==> end < total
    {
      assert lines[..i + 1][..i] == lines[..i];
      if lines[i].start.Some? {
        start := lines[i].start.value;
      }
      if lines[i].end.Some? && lines[i].end.value < total {
        end := lines[i].end.value;
      }
    }
    assert lines[..|lines|] == lines;
    if start > end || start >= total {
      return Unsatisfiable;
    }
    return Serve(start, end);
  }

  // ---------------------------------------------------------------- streaming

  /** What a binary search may say of `target`: any index that holds it, or where it would go. */
  datatype Hit = Found(at: nat) | Missing(before: nat)

  ghost predicate MayFind(ends: seq<nat>, target: nat, hit: Hit) {
    match hit
    case Found(at) => at < |ends| && ends[at] == target
    case Missing(before) =>
      && before <= |ends|
      && (forall i | 0 <= i < before :: ends[i] < target)
      && (forall i | before <= i < |ends| :: ends[i] > target)
  }

  lemma {:induction false} StartsRise(files: seq<Bytes>, i: nat, j: nat)
    requires i <= j <= |files|
    ensures StartOf(files, i) <= StartOf(files, j)
    decreases j - i
  {
    if i < j {
      StartsRise(files, i, j - 1);
      StartOfNext(files, j - 1);
    }
  }

  /** Wherever the search lands, streaming starts in the file that holds the byte, or just before it. */
  lemma SearchLandsRight(files: seq<Bytes>, ends: seq<nat>, start: nat, hit: Hit)
    requires AreEnds(ends, files) && start < |Joined(files)| && MayFind(ends, start, hit)
    ensures var at := if hit.Found? then hit.at + 1 else hit.before;
            at < |files| && Around(files, at, start)
  {
    assert files[..|files|] == files;
    var at := if hit.Found? then hit.at + 1 else hit.before;
    if files == [] {
      assert false;
    }
    assert ends[|files| - 1] == |Joined(files)|;
    if hit.Missing? {
      assert ends[at] == StartOf(files, at + 1) && ends[at] > start;
      if at == 0 {
        assert files[..0] == [];
      } else {
        assert ends[at - 1] == StartOf(files, at);
      }
    } else {
      assert ends[hit.at] == StartOf(files, at);
      StartOfNext(files, at);
    }
  }

  /** One read: some of the bytes asked for, at least one unless the file ended. */
  method Read(file: Bytes, at: nat, want: nat) returns (got: Bytes)
    requires want > 0
    ensures at < |file| ==> 0 < |got| <= want && at + |got| <= |file| && got == file[at..at + |got|]
    ensures at >= |file| ==> got == []
  {
    if at >= |file| {
      return [];
    }
    var n: nat :| 0 < n <= want && at + n <= |file|;
    return file[at..at + n];
  }

  /**
   What goes wrong: when a file's turn comes (the server is stopped, or the file does not open), and
   when the bytes from an offset on are to be read and sent (it is stopped then, or that fails).
   */
  datatype Faults = Faults(file: nat -> bool, read: nat -> bool)

  /** Byte `offset` is in file `i`, or where it ends. */
  ghost predicate Around(files: seq<Bytes>, i: nat, offset: nat) {
    i <= |files| && StartOf(files, i) <= offset && (i < |files| ==> offset <= StartOf(files, i + 1))
  }

  /** Nothing goes wrong while `[start, end]` is sent: at none of its files, and at none of its bytes. */
  ghost predicate Faultless(files: seq<Bytes>, faults: Faults, start: nat, end: nat) {
    && (forall i: nat | i < |files| && StartOf(files, i) <= end && start <= StartOf(files, i + 1) :: !faults.file(i))
    && (forall offset: nat | start <= offset <= end :: !faults.read(offset))
  }

  /** Sending from `start` on stops at `offset` for a fault: there, or at the file whose turn it is there. */
  ghost predicate StoppedBy(files: seq<Bytes>, faults: Faults, start: nat, offset: nat) {
    || faults.read(offset)
    || exists i: nat :: i < |files| && faults.file(i) && Around(files, i, offset)
                        && (offset == start || offset == StartOf(files, i))
  }

  lemma FaultlessGoesOn(files: seq<Bytes>, faults: Faults, start: nat, end: nat, offset: nat)
    requires StoppedBy(files, faults, start, offset) && start <= offset <= end
    ensures !Faultless(files, faults, start, end)
  {
  }

  lemma StoppedAtFile(files: seq<Bytes>, faults: Faults, start: nat, offset: nat, i: nat)
    requires i < |files| && faults.file(i) && Around(files, i, offset) && (offset == start || offset == StartOf(files, i))
    ensures StoppedBy(files, faults, start, offset)
  {
  }

  lemma StoppedAtRead(files: seq<Bytes>, faults: Faults, start: nat, offset: nat)
    requires faults.read(offset)
    ensures StoppedBy(files, faults, start, offset)
  {
  }

  /**
   Sends `[start, end]` of the joined file. The body is always a prefix of that slice, and it is all
   of it, as long as announced, unless a fault at the offset reached cut it short.
   */
  method Stream(files: seq<Bytes>, ends: seq<nat>, start: nat, end: nat, hit: Hit, faults: Faults)
    returns (body: Bytes, announced: nat)
    requires AreEnds(ends, files) && start <= end < |Joined(files)| && MayFind(ends, start, hit)
    ensures announced == end + 1 - start
    ensures |body| <= announced && body == Joined(files)[start..start + |body|]
    ensures |body| < announced ==> StoppedBy(files, faults, start, start + |body|)
    ensures Faultless(files, faults, start, end) ==> body == Joined(files)[start..end + 1] && |body| == announced
  {
    hide Around, Joined, StartOf, AreEnds, MayFind, StoppedBy, Faultless;
    announced := end - start + 1;
    body := [];
    var offset: nat := start;
    SearchLandsRight(files, ends, start, hit);
    var i: nat := if hit.Found? then hit.at + 1 else hit.before;
    while announced - |body| > 0 && i < |files|
      invariant offset == start + |body| <= end + 1 && body == Joined(files)[start..offset]
      invariant i <= |files| && (offset <= end ==> Around(files, i, offset))
      invariant offset == start || offset == StartOf(files, i) || offset == end + 1
    {
      if faults.file(i) {
        StoppedAtFile(files, faults, start, offset, i);
        FaultlessGoesOn(files, faults, start, end, offset);
        return;
      }
      AroundMeans(files, i, offset);
      var sent := SendFrom(files, ends, i, offset, announced - |body|, faults);
      SliceJoins(Joined(files), start, offset, offset + |sent|);
      body := body + sent;
      offset := offset + |sent|;
      if |sent| < Min(StartOf(files, i + 1) - (offset - |sent|), announced - (offset - |sent| - start)) {
        StoppedAtRead(files, faults, start, offset);
        FaultlessGoesOn(files, faults, start, end, offset);
        return;
      }
      AroundNext(files, i);
      i := i + 1;
    }
    NotPastTheEnd(files, i, offset);
  }

  lemma AroundNext(files: seq<Bytes>, i: nat)
    requires i < |files|
    ensures Around(files, i + 1, StartOf(files, i + 1))
  {
    if i + 1 < |files| {
      StartOfNext(files, i + 1);
    }
  }

  lemma NotPastTheEnd(files: seq<Bytes>, i: nat, offset: nat)
    ensures Around(files, i, offset) && offset < |Joined(files)| ==> i < |files|
  {
    assert files[..|files|] == files;
  }

  lemma SliceJoins(all: Bytes, a: nat, b: nat, c: nat)
    requires a <= b <= c <= |all|
    ensures all[a..b] + all[b..c] == all[a..c]
  {
  }

  lemma AroundMeans(files: seq<Bytes>, i: nat, offset: nat)
    requires Around(files, i, offset) && i < |files|
    ensures StartOf(files, i) <= offset <= StartOf(files, i + 1)
  {
  }

  /** Sends what file `i` holds from `offset` of the joined file on, at most `remaining` bytes of it. */
  method SendFrom(files: seq<Bytes>, ends: seq<nat>, i: nat, offset: nat, remaining: nat, faults: Faults) returns (sent: Bytes)
    requires AreEnds(ends, files) && i < |files| && StartOf(files, i) <= offset <= StartOf(files, i + 1)
    ensures offset + |sent| <= |Joined(files)| && sent == Joined(files)[offset..offset + |sent|]
    ensures |sent| <= Min(StartOf(files, i + 1) - offset, remaining)
    ensures |sent| < Min(StartOf(files, i + 1) - offset, remaining) ==> faults.read(offset + |sent|)
  {
    StartOfNext(files, i);
    assert files[..0] == [];
    var fileStart := if i == 0 then 0 else ends[i - 1];
    assert fileStart == StartOf(files, i) && ends[i] == StartOf(files, i + 1);
    var fileLen := ends[i] - fileStart;
    var inFile := offset - fileStart;
    sent := StreamFile(files[i], inFile, Min(fileLen - inFile, remaining), fileStart, faults);
    PieceOfJoined(files, i, inFile, inFile + |sent|);
  }

  /** Sends `count` bytes of one file from `from` on, in whatever pieces the reads come. */
  method StreamFile(file: Bytes, from: nat, count: nat, fileStart: nat, faults: Faults) returns (sent: Bytes)
    requires from + count <= |file|
    ensures |sent| <= count && sent == file[from..from + |sent|]
    ensures |sent| < count ==> faults.read(fileStart + from + |sent|)
  {
    sent := [];
    while |sent| < count
      invariant |sent| <= count && sent == file[from..from + |sent|]
    {
      if faults.read(fileStart + from + |sent|) {
        return;
      }
      var got := Read(file, from + |sent|, Min(count - |sent|, BUFFER));
      sent := sent + got;
    }
  }

  datatype Response = NotSatisfiable(total: nat) | Partial(start: nat, end: nat, length: nat, body: Bytes)

  /** Answers one request, whichever equal index the library's binary search returns. */
  method HandleClient(files: seq<Bytes>, ends: seq<nat>, total: nat, lines: seq<RangeLine>, isHead: bool,
                      search: nat -> Hit, faults: Faults)
    returns (response: Response)
    requires AreEnds(ends, files) && total == |Joined(files)|
    requires forall target :: MayFind(ends, target, search(target))
    ensures response.Partial? <==> WantedStart(lines) <= WantedEnd(lines, total) && WantedStart(lines) < total
    ensures response.NotSatisfiable? ==> response.total == total
    ensures response.Partial? ==>
              && response.start == WantedStart(lines) && response.end == WantedEnd(lines, total) < total
              && response.length == response.end + 1 - response.start
              && |response.body| <= response.length
              && response.body == Joined(files)[response.start..response.start + |response.body|]
              && (isHead ==> response.body == [])
              && (!isHead && |response.body| < response.length ==>
                    StoppedBy(files, faults, response.start, response.start + |response.body|))
              && (!isHead && Faultless(files, faults, response.start, response.end) ==>
                    response.body == Joined(files)[response.start..response.end + 1] && |response.body| == response.length)
  {
    var answer := ChooseRange(lines, total);
    if answer.Unsatisfiable? {
      return NotSatisfiable(total);
    }
    if isHead {
      return Partial(answer.start, answer.end, answer.end + 1 - answer.start, []);
    }
    var body, announced := Stream(files, ends, answer.start, answer.end, search(answer.start), faults);
    return Partial(answer.start, answer.end, announced, body);
  }
}
