/**
 The chunk scheduler's state as a value, and what each of its operations does to it
 (crates/hyperfetch-core/src/chunk.rs). The class in ChunkManager.dfy keeps the same state in
 mutable fields and shared cells and is proved to do exactly this.
 */
module Chunks {
  import opened Basics
  import opened Ranges
  import opened Sorting

  /** Smallest chunk length the manager accepts (64 KiB). */
  const MIN_BASE: nat := 65536
  const BACKOFF_BASE: real := 0.5
  const BACKOFF_CAP: real := 30.0
  const STEAL_MIN_STARTUPS: real := 2.0
  const LAG_WINDOW: real := 5.0
  const LAG_SHARE: real := 0.3
  const LAG_PEERS: nat := 4
  const DEFAULT_RETRIES: nat := 8

  datatype Status =
    | Unassigned
    | Assigned(worker: nat, mirror: nat)
    | Completed
    | Failed(reason: string, retries: nat)

  /** The offsets a chunk shares with its worker, and whether the attempt was revoked. */
  datatype Offsets = Offsets(cur: nat, end: nat, revoked: bool)

  /** A worker's notes on its attempt: its answer, its wait, how far it got, its last measured speed. */
  datatype Attempt = Attempt(answered: Option<(real, nat)>, waiting: Option<real>, received: nat, windowRate: Option<real>)

  const NEW_ATTEMPT: Attempt := Attempt(None, None, 0, None)

  /**
   A chunk. `O` and `A` stand for the handles of its shared offsets and attempt record: indices
   here, object references in the class.
   */
  datatype Chunk<O, A> = Chunk(
    id: nat,
    range: ByteRange,
    status: Status,
    retries: nat,
    offsets: O,
    attempt: A,
    notBefore: Option<real>,
    assignedAt: Option<real>)

  type ChunkRow = Chunk<nat, nat>

  /** A mirror's time to first byte, and its bytes per second after that. */
  datatype StealTiming = StealTiming(startup: real, rate: real)

  datatype StealRule = StealRule(minBytes: nat, timing: Option<seq<StealTiming>>)

  datatype State = State(
    total: nat,
    base: nat,
    chunks: seq<ChunkRow>,
    completed: nat,
    nextFresh: nat,
    retryQueue: seq<nat>,
    maxRetries: nat,
    fatal: Option<(nat, string)>,
    replacedAt: Option<real>,
    offsets: seq<Offsets>,
    attempts: seq<Attempt>)

  // ---------------------------------------------------------------- reading one chunk

  /** Bytes up to the end that have not reached the worker, be they on disk or in its memory. */
  function Unreceived<O, A>(c: Chunk<O, A>, o: Offsets, a: Attempt): (n: nat)
    ensures n <= o.end + 1
  {
    Max(0, o.end + 1 - Max(Max(o.cur, c.range.start), a.received))
  }

  /** Bytes still to be written. */
  function Remaining<O, A>(c: Chunk<O, A>, o: Offsets): nat {
    Max(0, o.end + 1 - Max(o.cur, c.range.start))
  }

  /** Time from `since` to `now`, none if the clock says it is yet to come. */
  function Elapsed(since: real, now: real): real {
    if now > since then now - since else 0.0
  }

  function Silence(a: Attempt, now: real): real {
    match a.waiting
    case Some(since) => Elapsed(since, now)
    case None => 0.0
  }

  function WrittenPrefix<O, A>(c: Chunk<O, A>, o: Offsets): Option<ByteRange> {
    if c.status.Completed? then
      Some(c.range)
    else
      var pos := Min(o.cur, c.range.end + 1);
      if pos > c.range.start then Some(ByteRange(c.range.start, pos - 1)) else None
  }

  function DoneBytes<O, A>(c: Chunk<O, A>, o: Offsets): nat {
    match WrittenPrefix(c, o)
    case Some(r) => if r.Valid() then r.Len() else 0
    case None => 0
  }

  /** Bytes per second since the answer came, once a first batch is on disk. */
  function Rate(o: Offsets, a: Attempt, now: real): (rate: Option<real>)
    ensures rate.Some? ==> rate.value > 0.0
  {
    match a.answered
    case None => None
    case Some((at, from)) =>
      var received := Max(0, o.cur - from);
      var elapsed := Elapsed(at, now);
      if received > 0 && elapsed > 0.0 then
        PositiveQuotient(received as real, elapsed);
        Some(received as real / elapsed)
      else
        None
  }

  lemma PositiveQuotient(x: real, y: real)
    requires x > 0.0 && y > 0.0
    ensures x / y > 0.0
  {
  }

  /** How long before bytes flow and how fast they do then: measured, else as its mirror is expected to go. */
  function Pace<O, A>(c: Chunk<O, A>, o: Offsets, a: Attempt, now: real, expected: Option<StealTiming>)
    : (pace: Option<(real, real)>)
    ensures pace.Some? ==> pace.value.1 > 0.0
  {
    match Rate(o, a, now)
    case Some(rate) => Some((0.0, rate))
    case None =>
      match expected
      case Some(t) =>
        if t.rate > 0.0 then
          var waited := match c.assignedAt case Some(at) => Elapsed(at, now) case None => 0.0;
          Some((if t.startup > waited then t.startup - waited else 0.0, t.rate))
        else
          None
      case None => None
  }

  /** Seconds until `remaining` bytes are written; None is forever. */
  function EtaSecs(remaining: nat, pace: Option<(real, real)>): Option<real>
    requires pace.Some? ==> pace.value.1 > 0.0
  {
    match pace
    case Some((wait, rate)) => Some(wait + remaining as real / rate)
    case None => None
  }

  predicate EtaAtMost(a: Option<real>, b: Option<real>) {
    b.None? || (a.Some? && a.value <= b.value)
  }

  // ---------------------------------------------------------------- reading the whole state

  ghost predicate HandlesInRange(st: State) {
    forall i | 0 <= i < |st.chunks| ::
      st.chunks[i].offsets < |st.offsets| && st.chunks[i].attempt < |st.attempts|
  }

  function OffsetsOf(st: State, id: nat): Offsets
    requires HandlesInRange(st) && id < |st.chunks|
  {
    st.offsets[st.chunks[id].offsets]
  }

  function AttemptOf(st: State, id: nat): Attempt
    requires HandlesInRange(st) && id < |st.chunks|
  {
    st.attempts[st.chunks[id].attempt]
  }

  /** The written prefixes of the first `n` chunks. */
  function Prefixes(st: State, n: nat): seq<ByteRange>
    requires HandlesInRange(st) && n <= |st.chunks|
  {
    if n == 0 then
      []
    else
      match WrittenPrefix(st.chunks[n - 1], OffsetsOf(st, n - 1))
      case Some(r) => Prefixes(st, n - 1) + [r]
      case None => Prefixes(st, n - 1)
  }

  function CompletedRanges(st: State): seq<ByteRange>
    requires HandlesInRange(st)
  {
    Merged(Prefixes(st, |st.chunks|))
  }

  function DoneLengths(st: State): seq<nat>
    requires HandlesInRange(st)
  {
    seq(|st.chunks|, i requires 0 <= i < |st.chunks| => DoneBytes(st.chunks[i], OffsetsOf(st, i)))
  }

  function TotalDownloaded(st: State): nat
    requires HandlesInRange(st)
  {
    Min(Sum(DoneLengths(st)), st.total)
  }

  predicate IsAllCompleted(st: State) {
    st.completed == |st.chunks|
  }

  // ---------------------------------------------------------------- building the chunk list

  datatype Slot = Slot(range: ByteRange, done: bool)

  predicate SlotByStart(s: Slot, t: Slot) {
    s.range.start <= t.range.start
  }

  /** `[start, end]` cut into pieces of `base` bytes, the last one shorter. */
  function Pieces(start: nat, end: nat, base: nat): seq<ByteRange>
    requires base > 0
    decreases end + 1 - start
  {
    if start > end then
      []
    else
      var len := Min(end - start + 1, base);
      [ByteRange(start, start + len - 1)] + Pieces(start + len, end, base)
  }

  function PiecesOf(gaps: seq<ByteRange>, base: nat): seq<ByteRange>
    requires base > 0
  {
    if gaps == [] then [] else Pieces(gaps[0].start, gaps[0].end, base) + PiecesOf(gaps[1..], base)
  }

  /** The given ranges as far as they lie in the file. */
  function InFile(rs: seq<ByteRange>, total: nat): seq<ByteRange>
    requires total > 0
  {
    if rs == [] then
      []
    else
      match rs[0].Intersection(ByteRange(0, total - 1))
      case Some(r) => [r] + InFile(rs[1..], total)
      case None => InFile(rs[1..], total)
  }

  function DoneRanges(total: nat, rs: seq<ByteRange>): seq<ByteRange> {
    if total == 0 then [] else Merged(InFile(rs, total))
  }

  function Tagged(rs: seq<ByteRange>, done: bool): seq<Slot> {
    seq(|rs|, i requires 0 <= i < |rs| => Slot(rs[i], done))
  }

  /** Finished ranges and the pieces of the gaps between them, in file order. */
  function Layout(total: nat, base: nat, rs: seq<ByteRange>): seq<Slot>
    requires base > 0
  {
    var done := DoneRanges(total, rs);
    Sort(Tagged(done, true) + Tagged(PiecesOf(Gaps(total, done), base), false), SlotByStart)
  }

  function Base(base: nat): nat {
    Max(base, MIN_BASE)
  }

  function SlotStatus(slot: Slot): Status {
    if slot.done then Completed else Unassigned
  }

  function NewChunks(slots: seq<Slot>): seq<ChunkRow> {
    seq(|slots|, i requires 0 <= i < |slots| => Chunk(i, slots[i].range, SlotStatus(slots[i]), 0, i, i, None, None))
  }

  function NewOffsets(slots: seq<Slot>): seq<Offsets> {
    seq(|slots|, i requires 0 <= i < |slots| => Offsets(slots[i].range.start, slots[i].range.end, false))
  }

  function NewAttempts(n: nat): seq<Attempt> {
    seq(n, i => NEW_ATTEMPT)
  }

  /** A manager that resumes a download whose ranges `rs` are on disk. */
  function Start(total: nat, base: nat, rs: seq<ByteRange>, maxRetries: nat): State {
    var slots := Layout(total, Base(base), rs);
    State(total, Base(base), NewChunks(slots), |DoneRanges(total, rs)|, 0, [], maxRetries, None, None,
          NewOffsets(slots), NewAttempts(|slots|))
  }

  // ---------------------------------------------------------------- operations

  /** A new chunk at the end of the list, with offsets and an attempt record of its own. */
  function Push(st: State, range: ByteRange, status: Status): State {
    st.(chunks := st.chunks
          + [Chunk(|st.chunks|, range, status, 0, |st.offsets|, |st.attempts|, None, None)],
        offsets := st.offsets + [Offsets(range.start, range.end, false)],
        attempts := st.attempts + [NEW_ATTEMPT],
        completed := st.completed + if status.Completed? then 1 else 0)
  }

  function Update(st: State, id: nat, c: ChunkRow): State
    requires id < |st.chunks|
  {
    st.(chunks := st.chunks[id := c])
  }

  function Assign(st: State, id: nat, worker: nat, mirror: nat, now: real): State
    requires id < |st.chunks|
  {
    Update(st, id, st.chunks[id].(
        status := Assigned(worker, mirror),
        notBefore := None,
        assignedAt := Some(now),
        attempt := |st.attempts|))
    .(attempts := st.attempts + [NEW_ATTEMPT])
  }

  predicate Ready<O, A>(c: Chunk<O, A>, now: real) {
    c.notBefore.None? || c.notBefore.value <= now
  }

  ghost predicate QueueInRange(st: State) {
    forall k | 0 <= k < |st.retryQueue| :: st.retryQueue[k] < |st.chunks|
  }

  /** Where in the retry queue, from place `k` on, the first chunk past its backoff waits. */
  function FirstReady(st: State, k: nat, now: real): (pos: Option<nat>)
    requires QueueInRange(st) && k <= |st.retryQueue|
    ensures pos.Some? ==> k <= pos.value < |st.retryQueue| && Ready(st.chunks[st.retryQueue[pos.value]], now)
    ensures forall j | k <= j < (if pos.Some? then pos.value else |st.retryQueue|) ::
              !Ready(st.chunks[st.retryQueue[j]], now)
    decreases |st.retryQueue| - k
  {
    if k == |st.retryQueue| then None
    else if Ready(st.chunks[st.retryQueue[k]], now) then Some(k)
    else FirstReady(st, k + 1, now)
  }

  /** The first unassigned chunk from index `k` on. */
  function FirstFresh(st: State, k: nat): (id: Option<nat>)
    ensures id.Some? ==> k <= id.value < |st.chunks| && st.chunks[id.value].status.Unassigned?
    ensures forall j | k <= j < (if id.Some? then id.value else |st.chunks|) :: !st.chunks[j].status.Unassigned?
    decreases |st.chunks| - k
  {
    if k >= |st.chunks| then None
    else if st.chunks[k].status.Unassigned? then Some(k)
    else FirstFresh(st, k + 1)
  }

  function GetNextWork(st: State, worker: nat, mirror: nat, now: real): (State, Option<nat>)
    requires QueueInRange(st)
  {
    if st.fatal.Some? then
      (st, None)
    else
      match FirstReady(st, 0, now)
      case Some(pos) =>
        var id := st.retryQueue[pos];
        (Assign(st.(retryQueue := st.retryQueue[..pos] + st.retryQueue[pos + 1..]), id, worker, mirror, now), Some(id))
      case None =>
        match FirstFresh(st, st.nextFresh)
        case Some(id) => (Assign(st.(nextFresh := id + 1), id, worker, mirror, now), Some(id))
        case None => (st.(nextFresh := Max(st.nextFresh, |st.chunks|)), None)
  }

  /** The first unassigned chunk from index `k` on that starts at byte `start`. */
  function FreshAt(st: State, k: nat, start: nat): (id: Option<nat>)
    ensures id.Some? ==> k <= id.value < |st.chunks| && st.chunks[id.value].status.Unassigned?
                         && st.chunks[id.value].range.start == start
    ensures id.None? ==> forall j | k <= j < |st.chunks| :: !(st.chunks[j].status.Unassigned? && st.chunks[j].range.start == start)
    decreases |st.chunks| - k
  {
    if k >= |st.chunks| then None
    else if st.chunks[k].status.Unassigned? && st.chunks[k].range.start == start then Some(k)
    else FreshAt(st, k + 1, start)
  }

  /** Lowers the end of chunk `id`, in its range and in its shared offsets alike. */
  function Truncate(st: State, id: nat, end: nat): State
    requires HandlesInRange(st) && id < |st.chunks|
  {
    var c := st.chunks[id];
    Update(st, id, c.(range := ByteRange(c.range.start, end)))
    .(offsets := st.offsets[c.offsets := st.offsets[c.offsets].(end := end)])
  }

  function AssignAt(st: State, worker: nat, mirror: nat, start: nat, end: nat, now: real): (State, Option<nat>)
    requires HandlesInRange(st)
  {
    if st.fatal.Some? || end < start then
      (st, None)
    else
      match FreshAt(st, 0, start)
      case None => (st, None)
      case Some(id) =>
        var chunkEnd := st.chunks[id].range.end;
        var cut := if chunkEnd > end
                   then Push(Truncate(st, id, end), ByteRange(end + 1, chunkEnd), Unassigned)
                   else st;
        (Assign(cut, id, worker, mirror, now), Some(id))
  }

  /** Whether chunk `i` may be taken over: in flight, bytes left, silent long enough. */
  predicate Takeable(st: State, i: nat, now: real, minSilence: nat -> real)
    requires HandlesInRange(st) && i < |st.chunks|
  {
    && st.chunks[i].status.Assigned?
    && Remaining(st.chunks[i], OffsetsOf(st, i)) > 0
    && Silence(AttemptOf(st, i), now) >= minSilence(st.chunks[i].status.mirror)
  }

  /** Of the first `n` chunks, the takeable one silent longest (the last of several). */
  function LongestSilent(st: State, n: nat, now: real, minSilence: nat -> real): (id: Option<nat>)
    requires HandlesInRange(st) && n <= |st.chunks|
    ensures id.Some? ==> id.value < n && Takeable(st, id.value, now, minSilence)
  {
    if n == 0 then
      None
    else
      var best := LongestSilent(st, n - 1, now, minSilence);
      if Takeable(st, n - 1, now, minSilence)
         && (best.None? || Silence(AttemptOf(st, best.value), now) <= Silence(AttemptOf(st, n - 1), now))
      then Some(n - 1)
      else best
  }

  function SetOffsets(st: State, handle: nat, o: Offsets): State
    requires handle < |st.offsets|
  {
    st.(offsets := st.offsets[handle := o])
  }

  /** Splits the written `[start, pos)` off chunk `id` as a completed chunk of its own. */
  function SplitOff(st: State, id: nat, pos: nat): State
    requires id < |st.chunks| && pos > 0
  {
    var c := st.chunks[id];
    Push(Update(st, id, c.(range := ByteRange(pos, c.range.end))), ByteRange(c.range.start, pos - 1), Completed)
  }

  function Complete(st: State, id: nat): State
    requires id < |st.chunks|
  {
    Update(st, id, st.chunks[id].(status := Completed)).(completed := st.completed + 1)
  }

  /** Hands `[pos, end]` of chunk `id` to a worker under new offsets; what lies before is completed. */
  function PassOn(st: State, id: nat, pos: nat, end: nat, worker: nat, mirror: nat, now: real): State
    requires id < |st.chunks|
  {
    var split := if pos > st.chunks[id].range.start then SplitOff(st, id, pos) else st;
    var renewed := Update(split, id, split.chunks[id].(offsets := |split.offsets|))
                   .(offsets := split.offsets + [Offsets(pos, end, false)]);
    Assign(renewed, id, worker, mirror, now)
  }

  /**
   Takes the in-flight chunk `id` from its worker. The offset is read after revoking: its worker
   may have written the last byte since the chunk was picked.
   */
  function TakeOver(st: State, id: nat, worker: nat, mirror: nat, now: real): (State, Option<nat>)
    requires HandlesInRange(st) && id < |st.chunks|
  {
    var c := st.chunks[id];
    var o := OffsetsOf(st, id);
    var revoked := SetOffsets(st, c.offsets, o.(revoked := true));
    var pos := Max(o.cur, c.range.start);
    if pos > o.end then
      (Complete(revoked, id), None)
    else
      (PassOn(revoked, id, pos, o.end, worker, mirror, now), Some(id))
  }

  function TakeOverSilent(st: State, worker: nat, mirror: nat, minSilence: nat -> real, now: real): (State, Option<nat>)
    requires HandlesInRange(st)
  {
    if st.fatal.Some? then
      (st, None)
    else
      match LongestSilent(st, |st.chunks|, now, minSilence)
      case None => (st, None)
      case Some(id) => TakeOver(st, id, worker, mirror, now)
  }

  // ---------------------------------------------------------------- stealing

  function Expected(rule: StealRule, mirror: nat): Option<StealTiming> {
    match rule.timing
    case Some(t) => if mirror < |t| then Some(t[mirror]) else None
    case None => None
  }

  /** What the thief's mirror costs, if that is known and it is expected to move at all. */
  function ExpectedThief(rule: StealRule, mirror: nat): Option<StealTiming> {
    match Expected(rule, mirror)
    case Some(t) => if t.rate > 0.0 then Some(t) else None
    case None => None
  }

  function MinSteal(rule: StealRule): nat {
    Max(rule.minBytes, 1)
  }

  predicate Stealable(st: State, i: nat, rule: StealRule)
    requires HandlesInRange(st) && i < |st.chunks|
  {
    st.chunks[i].status.Assigned? && Unreceived(st.chunks[i], OffsetsOf(st, i), AttemptOf(st, i)) > MinSteal(rule)
  }

  function UnreceivedOf(st: State, i: nat): nat
    requires HandlesInRange(st) && i < |st.chunks|
  {
    Unreceived(st.chunks[i], OffsetsOf(st, i), AttemptOf(st, i))
  }

  function PaceOf(st: State, i: nat, rule: StealRule, now: real): (pace: Option<(real, real)>)
    requires HandlesInRange(st) && i < |st.chunks|
    ensures pace.Some? ==> pace.value.1 > 0.0
  {
    var c := st.chunks[i];
    Pace(c, OffsetsOf(st, i), AttemptOf(st, i), now,
         if c.status.Assigned? then Expected(rule, c.status.mirror) else None)
  }

  function EtaOf(st: State, i: nat, rule: StealRule, now: real): Option<real>
    requires HandlesInRange(st) && i < |st.chunks|
  {
    EtaSecs(UnreceivedOf(st, i), PaceOf(st, i, rule, now))
  }

  /** Chunk `j` is expected to finish no earlier than `i`; on a tie it has no fewer bytes left. */
  predicate NoSooner(st: State, i: nat, j: nat, rule: StealRule, now: real)
    requires HandlesInRange(st) && i < |st.chunks| && j < |st.chunks|
  {
    var (a, b) := (EtaOf(st, i, rule, now), EtaOf(st, j, rule, now));
    if a == b then UnreceivedOf(st, i) <= UnreceivedOf(st, j) else EtaAtMost(a, b)
  }

  /** Of the first `n` chunks, the stealable one expected to finish last. */
  function LastToFinish(st: State, n: nat, rule: StealRule, now: real): (id: Option<nat>)
    requires HandlesInRange(st) && n <= |st.chunks|
    ensures id.Some? ==> id.value < n && Stealable(st, id.value, rule)
  {
    if n == 0 then
      None
    else
      var best := LastToFinish(st, n - 1, rule, now);
      if Stealable(st, n - 1, rule) && (best.None? || NoSooner(st, best.value, n - 1, rule, now))
      then Some(n - 1)
      else best
  }

  /** The cast of a float to an unsigned integer: towards zero, negative ones to 0. */
  function AsUnsigned(x: real): nat {
    if x <= 0.0 then 0 else x.Floor
  }

  /** Where both sides finish together: `wait + keep / rate == startup + (left - keep) / thief.rate`. */
  function EvenShare(left: real, wait: real, rate: real, thief: StealTiming): real
    requires rate > 0.0 && thief.rate > 0.0
  {
    ((thief.startup - wait) * thief.rate + left) * rate / (rate + thief.rate)
  }

  /** Bytes of the `remaining` the victim keeps; None leaves the chunk alone. */
  function Keep(remaining: nat, thief: Option<StealTiming>, pace: Option<(real, real)>): Option<nat>
    requires thief.Some? ==> thief.value.rate > 0.0
    requires pace.Some? ==> pace.value.1 > 0.0
  {
    if thief.Some? && pace.Some? then
      var (wait, rate) := pace.value;
      if wait + remaining as real / rate <= STEAL_MIN_STARTUPS * thief.value.startup then
        None
      else
        Some(AsUnsigned(EvenShare(remaining as real, wait, rate, thief.value)))
    else
      Some(remaining / 2)
  }

  /** The length of the tail that is stolen; None leaves the chunk whole. */
  function Stolen(remaining: nat, minBytes: nat, thief: Option<StealTiming>, pace: Option<(real, real)>): (n: Option<nat>)
    requires thief.Some? ==> thief.value.rate > 0.0
    requires pace.Some? ==> pace.value.1 > 0.0
    ensures n.Some? ==> minBytes <= n.value < remaining
  {
    if remaining == 0 then
      None
    else
      match Keep(remaining, thief, pace)
      case None => None
      case Some(keep) =>
        var kept := Max(keep, 1);
        if kept <= remaining && remaining - kept >= minBytes then Some(remaining - kept) else None
  }

  /** Hands `[split, end]` of the in-flight chunk `victim` to a thief as a chunk of its own. */
  function SplitForThief(st: State, victim: nat, split: nat, worker: nat, mirror: nat, now: real): State
    requires HandlesInRange(st) && victim < |st.chunks| && split > 0
  {
    var end := OffsetsOf(st, victim).end;
    Assign(Push(Truncate(st, victim, split - 1), ByteRange(split, end), Unassigned), |st.chunks|, worker, mirror, now)
  }

  /** Splits chunk `victim` for a thief, unless its share is too small or its worker done too soon. */
  function StealFrom(st: State, victim: nat, worker: nat, mirror: nat, rule: StealRule, now: real): (State, Option<(nat, nat)>)
    requires HandlesInRange(st) && victim < |st.chunks|
  {
    match Stolen(UnreceivedOf(st, victim), MinSteal(rule), ExpectedThief(rule, mirror), PaceOf(st, victim, rule, now))
    case None => (st, None)
    case Some(stolen) =>
      var split := OffsetsOf(st, victim).end + 1 - stolen;
      (SplitForThief(st, victim, split, worker, mirror, now), Some((victim, |st.chunks|)))
  }

  function StealWork(st: State, worker: nat, mirror: nat, rule: StealRule, now: real): (State, Option<(nat, nat)>)
    requires HandlesInRange(st)
  {
    if st.fatal.Some? then
      (st, None)
    else
      match LastToFinish(st, |st.chunks|, rule, now)
      case None => (st, None)
      case Some(victim) => StealFrom(st, victim, worker, mirror, rule, now)
  }

  // ---------------------------------------------------------------- slow connections

  /** Whether chunk `i` is another chunk in flight on `mirror`. */
  predicate IsPeer(st: State, i: nat, chunk: nat, mirror: nat)
    requires i < |st.chunks|
  {
    i != chunk && st.chunks[i].status.Assigned? && st.chunks[i].status.mirror == mirror
  }

  function PeerRate(st: State, i: nat, now: real): Option<real>
    requires HandlesInRange(st) && i < |st.chunks|
  {
    if AttemptOf(st, i).windowRate.Some? then AttemptOf(st, i).windowRate
    else Rate(OffsetsOf(st, i), AttemptOf(st, i), now)
  }

  /** The measured speeds of the peers among the first `n` chunks. */
  function PeerRates(st: State, n: nat, chunk: nat, mirror: nat, now: real): seq<real>
    requires HandlesInRange(st) && n <= |st.chunks|
  {
    if n == 0 then
      []
    else
      var before := PeerRates(st, n - 1, chunk, mirror, now);
      if IsPeer(st, n - 1, chunk, mirror) && PeerRate(st, n - 1, now).Some?
      then before + [PeerRate(st, n - 1, now).value]
      else before
  }

  predicate AtMost(x: real, y: real) {
    x <= y
  }

  function Median(rates: seq<real>): real
    requires rates != []
  {
    Sort(rates, AtMost)[|rates| / 2]
  }

  /** Answers whether `chunk` is to go on over a fresh connection; a yes is noted with its time. */
  function Replaces(st: State, chunk: nat, mirror: nat, rate: real, now: real): (State, bool)
    requires HandlesInRange(st)
  {
    if st.replacedAt.Some? && Elapsed(st.replacedAt.value, now) < LAG_WINDOW then
      (st, false)
    else
      var others := PeerRates(st, |st.chunks|, chunk, mirror, now);
      if |others| + 1 < LAG_PEERS then
        (st, false)
      else
        var median := Median(others);
        var left := if chunk < |st.chunks| then UnreceivedOf(st, chunk) else 0;
        if rate >= LAG_SHARE * median || left as real < median * LAG_WINDOW then
          (st, false)
        else
          (st.(replacedAt := Some(now)), true)
  }

  // ---------------------------------------------------------------- settling

  /** Whether a settled id names a chunk at all. */
  datatype Outcome = Ok | NotFound

  function MarkCompleted(st: State, id: nat): (State, Outcome) {
    if id >= |st.chunks| then (st, NotFound)
    else if st.chunks[id].status.Completed? then (st, Ok)
    else (Complete(st, id), Ok)
  }

  function Power2(n: nat): (p: nat)
    ensures p >= 1
  {
    if n == 0 then 1 else 2 * Power2(n - 1)
  }

  /** Exponential backoff with equal jitter; `fraction` is the random part, in `[0, 1)`. */
  function BackoffDelay(attempt: nat, fraction: real): real {
    var grown := BACKOFF_BASE * Power2(Min(Max(attempt - 1, 0), 16)) as real;
    var full := if grown <= BACKOFF_CAP then grown else BACKOFF_CAP;
    full / 2.0 + full / 2.0 * fraction
  }

  function MaxReal(x: real, y: real): real {
    if x >= y then x else y
  }

  /** Puts chunk `id`, which lacks bytes, into the retry queue. */
  function Requeue(st: State, id: nat, reason: string, minDelay: real, counted: bool, now: real, fraction: real): State
    requires id < |st.chunks|
  {
    var retries := st.chunks[id].retries + if counted then 1 else 0;
    var delay := if counted then MaxReal(minDelay, BackoffDelay(retries, fraction)) else minDelay;
    Update(st, id, st.chunks[id].(
        retries := retries,
        notBefore := Some(now + delay),
        status := Failed(reason, retries)))
    .(fatal := if retries > st.maxRetries && st.fatal.None? then Some((id, reason)) else st.fatal,
      retryQueue := st.retryQueue + [id])
  }

  function MarkFailed(st: State, id: nat, reason: string, minDelay: real, counts: bool, now: real, fraction: real)
    : (State, Outcome)
    requires HandlesInRange(st)
  {
    if id >= |st.chunks| then
      (st, NotFound)
    else if st.chunks[id].status.Completed? then
      (st, Ok)
    else
      var c := st.chunks[id];
      var pos := Max(c.range.start, Min(OffsetsOf(st, id).cur, c.range.end + 1));
      if pos > c.range.end then
        MarkCompleted(st, id)
      else if pos > c.range.start then
        var split := SplitOff(Update(st, id, c.(retries := 0)), id, pos);
        (Requeue(split, id, reason, minDelay, false, now, fraction), Ok)
      else
        (Requeue(st, id, reason, minDelay, counts, now, fraction), Ok)
  }

  function Abort(st: State, id: nat, reason: string): State {
    if st.fatal.None? then st.(fatal := Some((id, reason))) else st
  }
}
