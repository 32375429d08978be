/**
 Capture inside the page (extension/content/hook.js): messages for the bridge are held, within a
 budget of bytes, as long as there is no port; a player's appends become chunks, and the first
 chunk lost is the end of its recording.
 */
module Hook {
  import opened Basics
  import opened Sorting

  const HOLD_LIMIT: nat := 64 * 1024 * 1024
  const MAX_TRACKS: nat := 16
  const MAX_PART: nat := 255

  type Byte = b: nat | b < 256
  type Bytes = seq<Byte>

  /** `Note` stands for the messages that carry neither bytes nor text. */
  datatype Msg =
    | Chunk(ms: nat, track: nat, part: nat, mime: string, buf: Bytes)
    | Playlist(url: string, text: string)
    | RecEnd(ended: nat)
    | Note(what: string)

  datatype Stream = Stream(tracks: nat, bytes: nat, ended: bool)

  /** A source buffer's stream and track, its current part and whether that has media yet. */
  datatype Info = Info(ms: nat, track: nat, mime: string, part: nat, media: bool)

  /** What the player appended to a stream. */
  datatype Feed = Feed(track: nat, mime: string, data: Bytes)

  /**
   The hook between two events. `delivered` is what went over the port, `appended` everything the
   player appended to each stream, `waited` the streams of which a chunk once had to wait.
   */
  datatype State = State(
    port: Option<string>, held: seq<Msg>, heldBytes: nat, capturing: bool,
    streams: seq<Stream>, sources: map<nat, nat>, buffers: map<nat, Info>,
    delivered: seq<Msg>, appended: seq<seq<Feed>>, waited: set<nat>)

  function SizeOf(msg: Msg): nat {
    match msg
    case Chunk(_, _, _, _, buf) => |buf|
    case Playlist(_, text) => |text|
    case _ => 0
  }

  function Sizes(held: seq<Msg>): seq<nat> {
    seq(|held|, i requires 0 <= i < |held| => SizeOf(held[i]))
  }

  // ---------------------------------------------------------------- init segments and media

  function BoxSize(b: Bytes, at: nat): nat
    requires at + 4 <= |b|
  {
    ((b[at] as int * 256 + b[at + 1]) * 256 + b[at + 2]) * 256 + b[at + 3]
  }

  predicate IsBox(b: Bytes, at: nat, name: string)
    requires |name| == 4
  {
    at + 8 <= |b| && forall i | 0 <= i < 4 :: b[at + 4 + i] == name[i] as int
  }

  predicate IsEbml(b: Bytes) {
    |b| >= 4 && b[..4] == [0x1a, 0x45, 0xdf, 0xa3]
  }

  predicate StartsWithInit(b: Bytes) {
    |b| >= 8 && (IsBox(b, 0, "ftyp") || IsBox(b, 0, "moov") || IsEbml(b))
  }

  /** `at` is where a box starts when the boxes before it are laid one after the other from 0. */
  ghost predicate BoxAt(b: Bytes, from: nat, at: nat)
    requires from <= at
    decreases at - from
  {
    from == at || (from + 8 <= |b| && 8 <= BoxSize(b, from) <= at - from && BoxAt(b, from + BoxSize(b, from), at))
  }

  predicate IsMedia(b: Bytes, at: nat) {
    IsBox(b, at, "moof") || IsBox(b, at, "mdat")
  }

  predicate IsCluster(b: Bytes, at: nat) {
    at + 4 <= |b| && b[at..at + 4] == [0x1f, 0x43, 0xb6, 0x75]
  }

  /** Media after an init segment: a WebM cluster anywhere after the header, or an fMP4 media box. */
  ghost predicate HasMedia(b: Bytes) {
    if IsEbml(b) then
      exists at: nat :: 4 <= at && IsCluster(b, at)
    else
      exists at: nat :: BoxAt(b, 0, at) && IsMedia(b, at)
  }

  /** The boxes from `from` on hold media: the first media box in reach before one of no size. */
  function MediaFrom(b: Bytes, from: nat): (found: bool)
    ensures found <==> exists at: nat :: from <= at && BoxAt(b, from, at) && IsMedia(b, at)
    decreases |b| - from
  {
    if from + 8 > |b| then
      NoMediaPast(b, from);
      false
    else if IsMedia(b, from) then
      assert BoxAt(b, from, from);
      true
    else if BoxSize(b, from) < 8 then
      NoMediaPast(b, from);
      false
    else
      MediaNext(b, from);
      MediaFrom(b, from + BoxSize(b, from))
  }

  lemma NoMediaPast(b: Bytes, from: nat)
    requires from + 8 > |b| || (!IsMedia(b, from) && BoxSize(b, from) < 8)
    ensures !exists at: nat :: from <= at && BoxAt(b, from, at) && IsMedia(b, at)
  {
  }

  lemma MediaNext(b: Bytes, from: nat)
    requires from + 8 <= |b| && !IsMedia(b, from) && BoxSize(b, from) >= 8
    ensures (exists at: nat :: from <= at && BoxAt(b, from, at) && IsMedia(b, at))
       <==> (exists at: nat :: from + BoxSize(b, from) <= at && BoxAt(b, from + BoxSize(b, from), at) && IsMedia(b, at))
  {
    var next := from + BoxSize(b, from);
    forall at: nat | next <= at && BoxAt(b, next, at) && IsMedia(b, at)
      ensures BoxAt(b, from, at)
    {
    }
    forall at: nat | from <= at && BoxAt(b, from, at) && IsMedia(b, at)
      ensures next <= at && BoxAt(b, next, at)
    {
    }
  }

  function ClusterFrom(b: Bytes, from: nat): (found: bool)
    ensures found <==> exists at: nat :: from <= at && IsCluster(b, at)
    decreases |b| - from
  {
    if from + 4 > |b| then false
    else if IsCluster(b, from) then true
    else ClusterFrom(b, from + 1)
  }

  function HoldsMedia(b: Bytes): (found: bool)
    ensures found <==> HasMedia(b)
  {
    if IsEbml(b) then ClusterFrom(b, 4) else MediaFrom(b, 0)
  }

  // ---------------------------------------------------------------- parts

  datatype PartState = PartState(part: nat, media: bool)

  /** The part after one more append: an init counts only once there was media. */
  function NextPart(p: PartState, b: Bytes): PartState {
    if !StartsWithInit(b) then PartState(p.part, true)
    else PartState(if p.media && p.part < MAX_PART then p.part + 1 else p.part, HoldsMedia(b))
  }

  /** The part a track is in after these appends. */
  function PartAfter(datas: seq<Bytes>): (p: PartState)
    ensures p.part <= MAX_PART
  {
    if datas == [] then PartState(0, false) else NextPart(PartAfter(datas[..|datas| - 1]), datas[|datas| - 1])
  }

  lemma {:induction false} PartsOnlyRise(datas: seq<Bytes>, n: nat)
    requires n <= |datas|
    ensures PartAfter(datas[..n]).part <= PartAfter(datas).part
    decreases |datas|
  {
    if n < |datas| {
      var m := |datas| - 1;
      PartsOnlyRise(datas[..m], n);
      assert datas[..m][..n] == datas[..n];
    } else {
      assert datas[..n] == datas;
    }
  }

  /** Append `j` brings media: it starts with no init, or has media after the one it starts with. */
  ghost predicate BringsMedia(datas: seq<Bytes>, j: nat)
    requires j < |datas|
  {
    !StartsWithInit(datas[j]) || HasMedia(datas[j])
  }

  /** Some append before the `n`th brings media, and none after that one and before the `n`th starts with an init. */
  ghost predicate MediaBefore(datas: seq<Bytes>, n: nat)
    requires n <= |datas|
  {
    exists j: nat :: j < n && BringsMedia(datas, j) && forall k | j < k < n :: !StartsWithInit(datas[k])
  }

  /** The appends that start with an init after media. */
  ghost function Turns(datas: seq<Bytes>): set<nat> {
    set n: nat | n < |datas| && StartsWithInit(datas[n]) && MediaBefore(datas, n)
  }

  lemma MediaBeforeOneMore(datas: seq<Bytes>)
    requires datas != []
    ensures MediaBefore(datas, |datas|) <==> BringsMedia(datas, |datas| - 1)
  {
    var m := |datas| - 1;
    assert BringsMedia(datas, m) || StartsWithInit(datas[m]);
  }

  lemma MediaBeforeInPrefix(datas: seq<Bytes>, m: nat, n: nat)
    requires n <= m <= |datas|
    ensures MediaBefore(datas[..m], n) <==> MediaBefore(datas, n)
  {
    assert forall k | 0 <= k < m :: datas[..m][k] == datas[k];
    assert forall j: nat | j < m :: BringsMedia(datas[..m], j) == BringsMedia(datas, j);
    if MediaBefore(datas[..m], n) {
      var j: nat :| j < n && BringsMedia(datas[..m], j) && forall k | j < k < n :: !StartsWithInit(datas[..m][k]);
      assert forall k | j < k < n :: !StartsWithInit(datas[k]);
    }
  }

  lemma TurnsOneMore(datas: seq<Bytes>)
    requires datas != []
    ensures var m := |datas| - 1;
            Turns(datas) == Turns(datas[..m]) + if StartsWithInit(datas[m]) && MediaBefore(datas, m) then {m} else {}
  {
    var m := |datas| - 1;
    forall n: nat | n < m
      ensures MediaBefore(datas[..m], n) <==> MediaBefore(datas, n)
    {
      MediaBeforeInPrefix(datas, m, n);
    }
  }

  lemma TurnsCountOneMore(datas: seq<Bytes>)
    requires datas != []
    ensures var m := |datas| - 1;
            && |Turns(datas)| == |Turns(datas[..m])| + (if StartsWithInit(datas[m]) && MediaBefore(datas[..m], m) then 1 else 0)
            && (MediaBefore(datas, |datas|) <==> !StartsWithInit(datas[m]) || HoldsMedia(datas[m]))
  {
    hide MediaBefore, HasMedia, StartsWithInit;
    var m := |datas| - 1;
    TurnsOneMore(datas);
    assert m !in Turns(datas[..m]);
    MediaBeforeInPrefix(datas, m, m);
    MediaBeforeOneMore(datas);
  }

  lemma NoTurns()
    ensures Turns([]) == {} && !MediaBefore([], 0)
  {
  }

  lemma PartOneMore(datas: seq<Bytes>)
    requires datas != []
    ensures PartAfter(datas) == NextPart(PartAfter(datas[..|datas| - 1]), datas[|datas| - 1])
  {
  }

  /** The part a track is in is how often an init came after media, up to 255. */
  lemma {:induction false} PartCountsTurns(datas: seq<Bytes>)
    ensures PartAfter(datas).part == Min(255, |Turns(datas)|)
    ensures PartAfter(datas).media <==> MediaBefore(datas, |datas|)
  {
    if datas != [] {
      hide MediaBefore, Turns, HasMedia, HoldsMedia, StartsWithInit, PartAfter;
      PartCountsTurns(datas[..|datas| - 1]);
      PartOneMore(datas);
      TurnsCountOneMore(datas);
    } else {
      NoTurns();
    }
  }

  // ---------------------------------------------------------------- what happens

  function Recorded(held: seq<Msg>): seq<Msg> {
    if held == [] then []
    else Recorded(held[..|held| - 1]) + if held[|held| - 1].Playlist? then [] else [held[|held| - 1]]
  }

  /** Out of room for a chunk, playlist reports are given up. */
  function MakeRoom(st: State, msg: Msg): State {
    if st.heldBytes + SizeOf(msg) > HOLD_LIMIT && msg.Chunk? then
      st.(held := Recorded(st.held), heldBytes := Sum(Sizes(Recorded(st.held))))
    else
      st
  }

  predicate Fits(st: State, msg: Msg) {
    st.port.Some? || MakeRoom(st, msg).heldBytes + SizeOf(msg) <= HOLD_LIMIT
  }

  /** Over the port, or held until there is one, or dropped. */
  function Post(st: State, msg: Msg): State {
    if st.port.Some? then
      st.(delivered := st.delivered + [msg])
    else
      var room := MakeRoom(st, msg);
      if Fits(st, msg) then room.(held := room.held + [msg], heldBytes := room.heldBytes + SizeOf(msg)) else room
  }

  /** A bridge's offer of a port: the first one is kept, and what waited goes over it. */
  function TakePort(st: State, id: string, hasPort: bool): State {
    if st.port.Some? || !hasPort then st
    else st.(port := Some(id), delivered := st.delivered + st.held, held := [], heldBytes := 0)
  }

  function EndStream(st: State, ms: nat): (st': State)
    requires ms < |st.streams|
    ensures |st'.streams| == |st.streams|
  {
    if st.streams[ms].ended then
      st
    else
      var ended := st.(streams := st.streams[ms := st.streams[ms].(ended := true)]);
      if st.streams[ms].bytes > 0 then Post(ended, RecEnd(ms)) else ended
  }

  function EndAll(st: State, n: nat): (st': State)
    requires n <= |st.streams|
    ensures |st'.streams| == |st.streams|
  {
    if n == 0 then st else EndStream(EndAll(st, n - 1), n - 1)
  }

  function StopCapture(st: State): State {
    if !st.capturing then st else EndAll(st.(capturing := false), |st.streams|)
  }

  function NewStream(st: State, source: nat): State {
    st.(streams := st.streams + [Stream(0, 0, false)], sources := st.sources[source := |st.streams|],
        appended := st.appended + [[]])
  }

  /** A new source buffer gets the next track of its media source, up to the sixteenth. */
  function AddBuffer(st: State, ms: nat, buffer: nat, mime: string): State
    requires ms < |st.streams|
  {
    var stream := st.streams[ms];
    if stream.tracks >= MAX_TRACKS then
      st
    else
      st.(streams := st.streams[ms := stream.(tracks := stream.tracks + 1)],
          buffers := st.buffers[buffer := Info(ms, stream.tracks, mime, 0, false)])
  }

  function Adopt(st: State, source: nat, buffer: nat, mime: string): State
    requires source in st.sources ==> st.sources[source] < |st.streams|
  {
    if source in st.sources then AddBuffer(st, st.sources[source], buffer, mime)
    else AddBuffer(NewStream(st, source), |st.streams|, buffer, mime)
  }

  /** The part a buffer is in once `data` is appended. */
  function Turned(info: Info, data: Bytes): Info {
    var p := NextPart(PartState(info.part, info.media), data);
    info.(part := p.part, media := p.media)
  }

  /** A buffer's bytes are gone once handed over the port, so only chunks that wait are counted. */
  function CountBytes(st: State, ms: nat, buf: Bytes): State
    requires ms < |st.streams|
  {
    if st.port.Some? then
      st
    else
      st.(streams := st.streams[ms := st.streams[ms].(bytes := st.streams[ms].bytes + |buf|)], waited := st.waited + {ms})
  }

  function Record(st: State, buffer: nat, data: Bytes): State
    requires buffer in st.buffers && st.buffers[buffer].ms < |st.streams|
  {
    var info := st.buffers[buffer];
    if !st.capturing || st.streams[info.ms].ended || data == [] then
      st
    else
      var turned := Turned(info, data);
      var msg := Chunk(info.ms, info.track, turned.part, info.mime, data);
      var next := Post(st.(buffers := st.buffers[buffer := turned]), msg);
      if Fits(st, msg) then CountBytes(next, info.ms, data) else EndStream(next, info.ms)
  }

  /** The player's append, noted for its stream, and then recorded. */
  function Append(st: State, buffer: nat, data: Bytes): State
    requires buffer in st.buffers ==> st.buffers[buffer].ms < |st.streams| == |st.appended|
  {
    if buffer !in st.buffers then
      st
    else
      var info := st.buffers[buffer];
      var fed := st.(appended := st.appended[info.ms := st.appended[info.ms] + NonEmpty(info, data)]);
      Record(fed, buffer, data)
  }

  function NonEmpty(info: Info, data: Bytes): seq<Feed> {
    if data == [] then [] else [Feed(info.track, info.mime, data)]
  }

  /** `Report` is any message but a chunk or a recording's end; a buffer is new when it is added. */
  datatype Event =
    | Offer(id: string, hasPort: bool)
    | Report(msg: Msg)
    | Added(source: nat, buffer: nat, mime: string)
    | Appended(buffer: nat, data: Bytes)
    | SourceEnded(ms: nat)
    | StopAsked

  predicate Enabled(st: State, e: Event) {
    match e
    case Report(msg) => msg.Playlist? || msg.Note?
    case Added(source, buffer, _) =>
      buffer !in st.buffers && (source in st.sources ==> st.sources[source] < |st.streams|)
    case Appended(buffer, _) => buffer in st.buffers ==> st.buffers[buffer].ms < |st.streams| == |st.appended|
    case SourceEnded(ms) => ms < |st.streams|
    case _ => true
  }

  function Step(st: State, e: Event): State
    requires Enabled(st, e)
  {
    match e
    case Offer(id, hasPort) => TakePort(st, id, hasPort)
    case Report(msg) => Post(st, msg)
    case Added(source, buffer, mime) => Adopt(st, source, buffer, mime)
    case Appended(buffer, data) => Append(st, buffer, data)
    case SourceEnded(ms) => EndStream(st, ms)
    case StopAsked => StopCapture(st)
  }

  /** A page starts with nothing held; an armed one says that it captures. */
  function Initial(armed: bool): State {
    State(None, if armed then [Note("rec-active")] else [], 0, armed, [], map[], map[], [], [], {})
  }

  // ---------------------------------------------------------------- what the messages say

  /** Everything told so far, over the port or waiting for it. */
  function Told(st: State): seq<Msg> {
    st.delivered + st.held
  }

  /** What the chunks of one stream carry, in order. */
  function FedBy(msgs: seq<Msg>, ms: nat): seq<Feed> {
    if msgs == [] then
      []
    else
      var last := msgs[|msgs| - 1];
      FedBy(msgs[..|msgs| - 1], ms)
      + if last.Chunk? && last.ms == ms then [Feed(last.track, last.mime, last.buf)] else []
  }

  function DataOf(feeds: seq<Feed>, track: nat): seq<Bytes> {
    if feeds == [] then
      []
    else
      var last := feeds[|feeds| - 1];
      DataOf(feeds[..|feeds| - 1], track) + if last.track == track then [last.data] else []
  }

  /** Each chunk says the part its track is in with it, and none follows its recording's end. */
  ghost predicate WellTold(msgs: seq<Msg>) {
    msgs == [] || (
      var rest, last := msgs[..|msgs| - 1], msgs[|msgs| - 1];
      && WellTold(rest)
      && (last.Chunk? ==>
            && last.part == PartAfter(DataOf(FedBy(msgs, last.ms), last.track)).part
            && RecEnd(last.ms) !in rest)
      && (last.RecEnd? ==> last !in rest))
  }

  ghost predicate SameTale(a: seq<Msg>, b: seq<Msg>) {
    && (forall ms: nat :: FedBy(a, ms) == FedBy(b, ms))
    && (forall ms: nat :: RecEnd(ms) in a <==> RecEnd(ms) in b)
    && (WellTold(a) ==> WellTold(b))
  }

  lemma ToldOne(msgs: seq<Msg>, msg: Msg)
    ensures (msgs + [msg])[..|msgs|] == msgs
    ensures forall ms: nat :: FedBy(msgs + [msg], ms)
              == FedBy(msgs, ms) + if msg.Chunk? && msg.ms == ms then [Feed(msg.track, msg.mime, msg.buf)] else []
  {
    assert (msgs + [msg])[..|msgs|] == msgs;
  }

  lemma RecordedStep(held: seq<Msg>)
    requires held != []
    ensures var rest, last := Recorded(held[..|held| - 1]), held[|held| - 1];
            Recorded(held) == if last.Playlist? then rest else rest + [last]
  {
  }

  /** One more message keeps two lists telling the same, told in both. */
  lemma SameFed(a: seq<Msg>, b: seq<Msg>, msg: Msg, ms: nat)
    requires FedBy(a, ms) == FedBy(b, ms)
    ensures FedBy(a + [msg], ms) == FedBy(b + [msg], ms)
  {
    ToldOne(a, msg);
    ToldOne(b, msg);
  }

  lemma SameWell(a: seq<Msg>, b: seq<Msg>, msg: Msg)
    requires SameTale(a, b) && WellTold(a + [msg])
    ensures WellTold(a) && WellTold(b + [msg])
  {
    hide FedBy, DataOf, PartAfter;
    assert (a + [msg])[..|a|] == a && (b + [msg])[..|b|] == b;
    assert WellTold(a);
    if msg.Chunk? {
      SameFed(a, b, msg, msg.ms);
      assert RecEnd(msg.ms) in a <==> RecEnd(msg.ms) in b;
    } else if msg.RecEnd? {
      assert RecEnd(msg.ended) in a <==> RecEnd(msg.ended) in b;
    }
  }

  lemma SameTaleGoesOn(a: seq<Msg>, b: seq<Msg>, msg: Msg)
    requires SameTale(a, b)
    ensures SameTale(a + [msg], b + [msg])
  {
    hide FedBy, WellTold;
    forall ms: nat
      ensures FedBy(a + [msg], ms) == FedBy(b + [msg], ms)
    {
      SameFed(a, b, msg, ms);
    }
    if WellTold(a + [msg]) {
      SameWell(a, b, msg);
    }
  }

  /** A playlist report is no part of the tale. */
  lemma ReportIsNoTale(a: seq<Msg>, b: seq<Msg>, msg: Msg)
    requires SameTale(a, b) && msg.Playlist?
    ensures SameTale(a + [msg], b)
  {
    forall ms: nat
      ensures FedBy(a + [msg], ms) == FedBy(a, ms)
    {
      ToldOne(a, msg);
    }
    assert (a + [msg])[..|a|] == a;
    assert WellTold(a + [msg]) ==> WellTold(a);
    hide FedBy, WellTold;
  }

  /** Giving up playlist reports takes nothing from any recording. */
  lemma {:induction false} DroppingReportsIsHarmless(held: seq<Msg>)
    ensures SameTale(held, Recorded(held))
  {
    if held != [] {
      var n := |held| - 1;
      hide FedBy, WellTold, SameTale;
      DroppingReportsIsHarmless(held[..n]);
      RecordedStep(held);
      assert held == held[..n] + [held[n]];
      if held[n].Playlist? {
        ReportIsNoTale(held[..n], Recorded(held[..n]), held[n]);
      } else {
        SameTaleGoesOn(held[..n], Recorded(held[..n]), held[n]);
      }
    }
  }

  lemma {:induction false} RecordedIsSmaller(held: seq<Msg>)
    ensures Sum(Sizes(Recorded(held))) <= Sum(Sizes(held))
  {
    if held != [] {
      var n := |held| - 1;
      RecordedIsSmaller(held[..n]);
      RecordedStep(held);
      SizesAppend(held[..n], held[n]);
      SizesAppend(Recorded(held[..n]), held[n]);
      assert held == held[..n] + [held[n]];
    }
  }

  lemma SizesAppend(held: seq<Msg>, msg: Msg)
    ensures Sum(Sizes(held + [msg])) == Sum(Sizes(held)) + SizeOf(msg)
  {
    assert Sizes(held + [msg]) == Sizes(held) + [SizeOf(msg)];
    SumAppend(Sizes(held), SizeOf(msg));
  }

  // ---------------------------------------------------------------- what always holds

  /** What waits is counted, stays within the budget, and waits only while there is no port. */
  ghost predicate QueueOk(st: State) {
    && (if st.port.Some? then st.held == [] else st.delivered == [])
    && st.heldBytes == Sum(Sizes(st.held)) <= HOLD_LIMIT
  }

  ghost predicate BufferOk(st: State, buffer: nat)
    requires buffer in st.buffers
  {
    var info := st.buffers[buffer];
    && info.ms < |st.streams| && info.track < st.streams[info.ms].tracks
    && (forall other | other in st.buffers && other != buffer ::
          st.buffers[other].ms != info.ms || st.buffers[other].track != info.track)
  }

  ghost predicate ShapeOk(st: State) {
    && |st.appended| == |st.streams|
    && (forall source | source in st.sources :: st.sources[source] < |st.streams|)
    && (forall buffer | buffer in st.buffers :: BufferOk(st, buffer))
    && (forall ms | 0 <= ms < |st.streams| :: st.streams[ms].tracks <= MAX_TRACKS && TracksOk(st, ms))
  }

  ghost predicate TracksOk(st: State, ms: nat)
    requires ms < |st.streams| == |st.appended|
  {
    forall k | 0 <= k < |st.appended[ms]| :: st.appended[ms][k].track < st.streams[ms].tracks
  }

  predicate Live(st: State, ms: nat)
    requires ms < |st.streams|
  {
    st.capturing && !st.streams[ms].ended
  }

  /**
   What is told of a stream is a prefix of what was appended to it, and all of it while it records;
   its end is told once it ended, if it has bytes to its count. `lost` is a stream that just lost
   a chunk, and is about to end.
   */
  ghost predicate StreamOk(st: State, ms: nat, lost: Option<nat>)
    requires ms < |st.streams| == |st.appended|
  {
    && FedBy(Told(st), ms) <= st.appended[ms]
    && (Live(st, ms) && lost != Some(ms) ==> FedBy(Told(st), ms) == st.appended[ms])
    && (RecEnd(ms) in Told(st) <==> st.streams[ms].ended && st.streams[ms].bytes > 0)
    && (st.streams[ms].bytes > 0 <==> ms in st.waited)
  }

  ghost predicate Unheard(st: State, ms: nat) {
    FedBy(Told(st), ms) == [] && RecEnd(ms) !in Told(st) && ms !in st.waited
  }

  /** A recording buffer knows the part its track is in. */
  ghost predicate PartOk(st: State, buffer: nat, lost: Option<nat>)
    requires buffer in st.buffers && st.buffers[buffer].ms < |st.streams| == |st.appended|
  {
    var info := st.buffers[buffer];
    Live(st, info.ms) && lost != Some(info.ms) ==>
      PartState(info.part, info.media) == PartAfter(DataOf(st.appended[info.ms], info.track))
  }

  ghost predicate StreamsOk(st: State, lost: Option<nat>)
    requires |st.appended| == |st.streams|
  {
    && (forall ms | 0 <= ms < |st.streams| :: StreamOk(st, ms, lost))
    && (forall ms: nat | ms >= |st.streams| :: Unheard(st, ms))
  }

  ghost predicate PartsOk(st: State, lost: Option<nat>)
    requires ShapeOk(st)
  {
    forall buffer | buffer in st.buffers :: BufferOk(st, buffer) && PartOk(st, buffer, lost)
  }

  ghost predicate InvBut(st: State, lost: Option<nat>) {
    QueueOk(st) && ShapeOk(st) && WellTold(Told(st)) && StreamsOk(st, lost) && PartsOk(st, lost)
  }

  ghost predicate Inv(st: State) {
    InvBut(st, None)
  }

  // ---------------------------------------------------------------- posting

  lemma RoomIsMade(st: State, msg: Msg)
    requires QueueOk(st) && st.port.None?
    ensures QueueOk(MakeRoom(st, msg)) && SameTale(Told(st), Told(MakeRoom(st, msg)))
  {
    DroppingReportsIsHarmless(st.held);
    RecordedIsSmaller(st.held);
    assert Told(st) == st.held && Told(MakeRoom(st, msg)) == MakeRoom(st, msg).held;
  }

  /** Posting adds the message after all that was told, or drops it; either way nothing recorded is lost. */
  lemma PostTells(st: State, msg: Msg) returns (before: seq<Msg>)
    requires QueueOk(st)
    ensures QueueOk(Post(st, msg)) && SameTale(Told(st), before)
    ensures Told(Post(st, msg)) == if Fits(st, msg) then before + [msg] else before
  {
    if st.port.Some? {
      before := Told(st);
      assert Told(Post(st, msg)) == before + [msg];
    } else {
      RoomIsMade(st, msg);
      var room := MakeRoom(st, msg);
      before := Told(room);
      SizesAppend(room.held, msg);
      assert Told(Post(st, msg)) == if Fits(st, msg) then before + [msg] else before;
    }
  }

  /** A message that is neither a chunk nor an end leaves every recording as it was. */
  lemma ReportKeeps(st: State, msg: Msg)
    requires Inv(st) && (msg.Playlist? || msg.Note?)
    ensures Inv(Post(st, msg))
  {
    var before := PostTells(st, msg);
    ToldOne(before, msg);
    var st' := Post(st, msg);
    assert SameTale(Told(st), Told(st'));
    SameTaleKeeps(st, st');
  }

  lemma SameTaleKeeps(st: State, st': State)
    requires Inv(st) && QueueOk(st') && SameTale(Told(st), Told(st'))
    requires st'.capturing == st.capturing && st'.streams == st.streams && st'.sources == st.sources
    requires st'.buffers == st.buffers && st'.appended == st.appended && st'.waited == st.waited
    ensures Inv(st')
  {
    SameShape(st, st');
    forall ms | 0 <= ms < |st.streams|
      ensures StreamOk(st', ms, None)
    {
      assert StreamOk(st, ms, None);
    }
    forall ms: nat | ms >= |st.streams|
      ensures Unheard(st', ms)
    {
      assert Unheard(st, ms);
    }
    forall buffer | buffer in st'.buffers
      ensures PartOk(st', buffer, None)
    {
      assert PartOk(st, buffer, None);
    }
  }

  /** Streams only gain tracks, and buffers keep their tracks. */
  lemma SameShape(st: State, st': State)
    requires ShapeOk(st) && st'.sources == st.sources && st'.appended == st.appended
    requires |st'.streams| == |st.streams| && st'.buffers.Keys == st.buffers.Keys
    requires forall ms | 0 <= ms < |st.streams| :: st'.streams[ms].tracks == st.streams[ms].tracks
    requires forall b | b in st.buffers :: st'.buffers[b].ms == st.buffers[b].ms && st'.buffers[b].track == st.buffers[b].track
    ensures ShapeOk(st')
  {
    forall buffer | buffer in st'.buffers
      ensures BufferOk(st', buffer)
    {
      assert BufferOk(st, buffer);
    }
    forall ms | 0 <= ms < |st'.streams|
      ensures TracksOk(st', ms)
    {
      assert TracksOk(st, ms);
    }
  }

  lemma OfferKeeps(st: State, id: string, hasPort: bool)
    requires Inv(st)
    ensures Inv(TakePort(st, id, hasPort))
  {
    var st' := TakePort(st, id, hasPort);
    if st.port.None? && hasPort {
      assert Told(st') == Told(st);
      assert Sizes([]) == [];
      SameTaleKeeps(st, st');
    }
  }

  // ---------------------------------------------------------------- ending

  lemma EndFits(st: State, ms: nat)
    requires QueueOk(st)
    ensures Fits(st, RecEnd(ms))
  {
  }

  lemma MarkedKeeps(st: State, ms: nat, lost: Option<nat>)
    requires InvBut(st, lost) && ms < |st.streams| && (lost.Some? ==> lost == Some(ms)) && !st.streams[ms].ended
    ensures var st' := st.(streams := st.streams[ms := st.streams[ms].(ended := true)]);
            && QueueOk(st') && ShapeOk(st') && PartsOk(st', None)
            && (forall other | 0 <= other < |st.streams| && other != ms :: StreamOk(st', other, None))
            && (forall other: nat | other >= |st.streams| :: Unheard(st', other))
  {
    var st' := st.(streams := st.streams[ms := st.streams[ms].(ended := true)]);
    SameShape(st, st');
    forall other | 0 <= other < |st.streams| && other != ms
      ensures StreamOk(st', other, None)
    {
      assert StreamOk(st, other, lost);
    }
    forall other: nat | other >= |st.streams|
      ensures Unheard(st', other)
    {
      assert Unheard(st, other);
    }
    forall buffer | buffer in st'.buffers
      ensures PartOk(st', buffer, None)
    {
      assert PartOk(st, buffer, lost);
    }
  }

  /** Ending a stream, also one that just lost a chunk. */
  lemma EndStreamKeeps(st: State, ms: nat, lost: Option<nat>)
    requires InvBut(st, lost) && ms < |st.streams|
    requires lost.Some? ==> lost == Some(ms) && !st.streams[ms].ended
    ensures Inv(EndStream(st, ms))
  {
    if !st.streams[ms].ended {
      assert StreamOk(st, ms, lost);
      var ended := st.(streams := st.streams[ms := st.streams[ms].(ended := true)]);
      MarkedKeeps(st, ms, lost);
      if st.streams[ms].bytes > 0 {
        EndIsTold(st, ended, ms);
      } else {
        assert Told(ended) == Told(st);
        assert StreamOk(ended, ms, None);
      }
    }
  }

  lemma EndIsTold(st: State, ended: State, ms: nat)
    requires QueueOk(ended) && ShapeOk(ended) && PartsOk(ended, None) && ms < |ended.streams|
    requires Told(ended) == Told(st) && WellTold(Told(st))
    requires ended.streams[ms].ended && ended.streams[ms].bytes > 0 && ms in ended.waited
    requires FedBy(Told(ended), ms) <= ended.appended[ms] && RecEnd(ms) !in Told(ended)
    requires forall other | 0 <= other < |ended.streams| && other != ms :: StreamOk(ended, other, None)
    requires forall other: nat | other >= |ended.streams| :: Unheard(ended, other)
    ensures Inv(Post(ended, RecEnd(ms)))
  {
    hide WellTold, FedBy, StreamOk, Unheard, PartsOk, QueueOk, Fits, MakeRoom;
    EndFits(ended, ms);
    var before := PostTells(ended, RecEnd(ms));
    var st' := Post(ended, RecEnd(ms));
    assert Told(st') == before + [RecEnd(ms)];
    EndIsWellTold(ended, before, ms);
    PostKeepsBooks(ended, RecEnd(ms));
    SameShape(ended, st');
    EndStreams(ended, st', before, ms);
    PartsStay(ended, st');
  }

  lemma PostKeepsBooks(st: State, msg: Msg)
    ensures var st' := Post(st, msg);
            && st'.streams == st.streams && st'.sources == st.sources && st'.buffers == st.buffers
            && st'.appended == st.appended && st'.waited == st.waited && st'.capturing == st.capturing && st'.port == st.port
  {
    hide Recorded, SizeOf, Sizes;
  }

  lemma FitsAlike(a: State, b: State, msg: Msg)
    requires a.port == b.port && a.held == b.held && a.heldBytes == b.heldBytes
    ensures Fits(a, msg) == Fits(b, msg)
  {
  }

  lemma EndIsWellTold(st: State, before: seq<Msg>, ms: nat)
    requires SameTale(Told(st), before) && WellTold(Told(st)) && RecEnd(ms) !in Told(st)
    ensures WellTold(before + [RecEnd(ms)])
  {
    assert (before + [RecEnd(ms)])[..|before|] == before;
    hide FedBy;
  }

  lemma PartsStay(st: State, st': State)
    requires ShapeOk(st) && ShapeOk(st') && PartsOk(st, None)
    requires st'.streams == st.streams && st'.appended == st.appended && st'.buffers == st.buffers && st'.capturing == st.capturing
    ensures PartsOk(st', None)
  {
    forall buffer | buffer in st'.buffers
      ensures PartOk(st', buffer, None)
    {
      assert PartOk(st, buffer, None);
    }
  }

  lemma EndStreams(ended: State, st': State, before: seq<Msg>, ms: nat)
    requires ms < |ended.streams| == |ended.appended| && SameTale(Told(ended), before)
    requires Told(st') == before + [RecEnd(ms)]
    requires st'.streams == ended.streams && st'.appended == ended.appended && st'.waited == ended.waited
    requires st'.capturing == ended.capturing
    requires ended.streams[ms].ended && ended.streams[ms].bytes > 0 && ms in ended.waited
    requires FedBy(Told(ended), ms) <= ended.appended[ms]
    requires forall other | 0 <= other < |ended.streams| && other != ms :: StreamOk(ended, other, None)
    requires forall other: nat | other >= |ended.streams| :: Unheard(ended, other)
    ensures StreamsOk(st', None)
  {
    ToldOne(before, RecEnd(ms));
    hide Told, FedBy, WellTold;
    assert RecEnd(ms) in Told(st');
    forall other | 0 <= other < |st'.streams|
      ensures StreamOk(st', other, None)
    {
      assert other != ms ==> StreamOk(ended, other, None);
    }
    forall other: nat | other >= |st'.streams|
      ensures Unheard(st', other)
    {
      assert Unheard(ended, other);
    }
  }

  lemma {:induction false} EndAllKeeps(st: State, n: nat)
    requires Inv(st) && n <= |st.streams|
    ensures Inv(EndAll(st, n))
  {
    if n > 0 {
      hide InvBut, EndStream;
      EndAllKeeps(st, n - 1);
      EndStreamKeeps(EndAll(st, n - 1), n - 1, None);
    }
  }

  lemma QuietKeeps(st: State)
    requires Inv(st)
    ensures Inv(st.(capturing := false))
  {
    var st' := st.(capturing := false);
    SameShape(st, st');
    forall ms | 0 <= ms < |st.streams|
      ensures StreamOk(st', ms, None)
    {
      assert StreamOk(st, ms, None);
    }
    forall ms: nat | ms >= |st.streams|
      ensures Unheard(st', ms)
    {
      assert Unheard(st, ms);
    }
    assert forall buffer | buffer in st'.buffers :: PartOk(st', buffer, None);
  }

  lemma StopKeeps(st: State)
    requires Inv(st)
    ensures Inv(StopCapture(st))
  {
    if st.capturing {
      QuietKeeps(st);
      EndAllKeeps(st.(capturing := false), |st.streams|);
    }
  }

  // ---------------------------------------------------------------- adding buffers

  lemma NewStreamKeeps(st: State, source: nat)
    requires Inv(st) && source !in st.sources
    ensures Inv(NewStream(st, source))
  {
    var st' := NewStream(st, source);
    assert Told(st') == Told(st);
    forall buffer | buffer in st'.buffers
      ensures BufferOk(st', buffer) && PartOk(st', buffer, None)
    {
      assert BufferOk(st, buffer) && PartOk(st, buffer, None);
    }
    forall ms | 0 <= ms < |st'.streams|
      ensures TracksOk(st', ms) && StreamOk(st', ms, None)
    {
      if ms < |st.streams| {
        assert TracksOk(st, ms) && StreamOk(st, ms, None);
      } else {
        assert Unheard(st, ms);
      }
    }
    forall ms: nat | ms >= |st'.streams|
      ensures Unheard(st', ms)
    {
      assert Unheard(st, ms);
    }
  }

  lemma {:induction false} NoDataOf(feeds: seq<Feed>, track: nat)
    requires forall k | 0 <= k < |feeds| :: feeds[k].track != track
    ensures DataOf(feeds, track) == []
  {
    if feeds != [] {
      NoDataOf(feeds[..|feeds| - 1], track);
    }
  }

  lemma AddBufferKeeps(st: State, ms: nat, buffer: nat, mime: string)
    requires Inv(st) && ms < |st.streams| && buffer !in st.buffers
    ensures Inv(AddBuffer(st, ms, buffer, mime))
  {
    var st' := AddBuffer(st, ms, buffer, mime);
    if st.streams[ms].tracks < MAX_TRACKS {
      assert Told(st') == Told(st);
      assert TracksOk(st, ms);
      NoDataOf(st.appended[ms], st.streams[ms].tracks);
      forall other | other in st'.buffers
        ensures BufferOk(st', other) && PartOk(st', other, None)
      {
        if other != buffer {
          assert BufferOk(st, other) && PartOk(st, other, None);
        } else {
          forall b | b in st.buffers
            ensures st.buffers[b].ms != ms || st.buffers[b].track != st.streams[ms].tracks
          {
            assert BufferOk(st, b);
          }
        }
      }
      forall other | 0 <= other < |st'.streams|
        ensures TracksOk(st', other) && StreamOk(st', other, None)
      {
        assert TracksOk(st, other) && StreamOk(st, other, None);
      }
      forall other: nat | other >= |st'.streams|
        ensures Unheard(st', other)
      {
        assert Unheard(st, other);
      }
    }
  }

  lemma AdoptKeeps(st: State, source: nat, buffer: nat, mime: string)
    requires Inv(st) && buffer !in st.buffers && (source in st.sources ==> st.sources[source] < |st.streams|)
    ensures Inv(Adopt(st, source, buffer, mime))
  {
    if source in st.sources {
      AddBufferKeeps(st, st.sources[source], buffer, mime);
    } else {
      NewStreamKeeps(st, source);
      AddBufferKeeps(NewStream(st, source), |st.streams|, buffer, mime);
    }
  }

  // ---------------------------------------------------------------- appending

  /** `st` with `feed` appended to stream `ms`, and not yet told. */
  function Fed(st: State, ms: nat, feed: Feed): State
    requires ms < |st.appended|
  {
    st.(appended := st.appended[ms := st.appended[ms] + [feed]])
  }

  lemma DataOfAppend(feeds: seq<Feed>, feed: Feed, track: nat)
    ensures DataOf(feeds + [feed], track) == if feed.track == track then DataOf(feeds, track) + [feed.data] else DataOf(feeds, track)
  {
    assert (feeds + [feed])[..|feeds|] == feeds;
  }

  lemma FedShape(st: State, ms: nat, feed: Feed)
    requires ShapeOk(st) && ms < |st.streams| && feed.track < st.streams[ms].tracks
    ensures ShapeOk(Fed(st, ms, feed))
  {
    var st' := Fed(st, ms, feed);
    forall buffer | buffer in st'.buffers
      ensures BufferOk(st', buffer)
    {
      assert BufferOk(st, buffer);
    }
    forall other | 0 <= other < |st'.streams|
      ensures TracksOk(st', other)
    {
      assert TracksOk(st, other);
    }
  }

  /** What is appended and not told, to a stream that records no more, or loses it, breaks nothing else. */
  lemma UntoldKeeps(st: State, ms: nat, feed: Feed, lost: Option<nat>)
    requires Inv(st) && ms < |st.streams| && feed.track < st.streams[ms].tracks
    requires !Live(st, ms) || lost == Some(ms)
    ensures InvBut(Fed(st, ms, feed), lost)
  {
    var st' := Fed(st, ms, feed);
    FedShape(st, ms, feed);
    assert Told(st') == Told(st);
    forall other | 0 <= other < |st'.streams|
      ensures StreamOk(st', other, lost)
    {
      assert StreamOk(st, other, None);
    }
    forall other: nat | other >= |st'.streams|
      ensures Unheard(st', other)
    {
      assert Unheard(st, other);
    }
    forall buffer | buffer in st'.buffers
      ensures PartOk(st', buffer, lost)
    {
      assert PartOk(st, buffer, None);
    }
  }

  /** `st'` is what `st` becomes once a live buffer's chunk is told. */
  ghost predicate Tells(st: State, buffer: nat, data: Bytes, st': State, before: seq<Msg>)
    requires ShapeOk(st) && buffer in st.buffers && st.buffers[buffer].ms < |st.streams|
  {
    var info := st.buffers[buffer];
    var turned := Turned(info, data);
    && SameTale(Told(st), before)
    && Told(st') == before + [Chunk(info.ms, info.track, turned.part, info.mime, data)]
    && st'.appended == Fed(st, info.ms, Feed(info.track, info.mime, data)).appended
    && st'.capturing && st'.sources == st.sources && st'.buffers == st.buffers[buffer := turned]
    && |st'.streams| == |st.streams|
    && (forall ms | 0 <= ms < |st.streams| && ms != info.ms :: st'.streams[ms] == st.streams[ms])
    && st'.streams[info.ms].tracks == st.streams[info.ms].tracks && !st'.streams[info.ms].ended
    && (st'.streams[info.ms].bytes > 0 <==> info.ms in st'.waited)
    && (forall ms | ms != info.ms :: ms in st'.waited <==> ms in st.waited)
  }

  lemma ToldKeeps(st: State, buffer: nat, data: Bytes, st': State, before: seq<Msg>)
    requires Inv(st) && buffer in st.buffers && st.buffers[buffer].ms < |st.streams| && Live(st, st.buffers[buffer].ms)
    requires Tells(st, buffer, data, st', before) && QueueOk(st')
    ensures Inv(st')
  {
    var info := st.buffers[buffer];
    assert BufferOk(st, buffer);
    FedShape(st, info.ms, Feed(info.track, info.mime, data));
    SameShape(Fed(st, info.ms, Feed(info.track, info.mime, data)), st');
    ChunkIsWellTold(st, buffer, data, before);
    ToldStreams(st, buffer, data, st', before);
    ToldParts(st, buffer, data, st', before);
  }

  lemma ToldStreams(st: State, buffer: nat, data: Bytes, st': State, before: seq<Msg>)
    requires Inv(st) && buffer in st.buffers && st.buffers[buffer].ms < |st.streams| && Live(st, st.buffers[buffer].ms)
    requires Tells(st, buffer, data, st', before)
    ensures StreamsOk(st', None)
  {
    hide WellTold, PartsOk, QueueOk;
    var info := st.buffers[buffer];
    ToldOne(before, Chunk(info.ms, info.track, Turned(info, data).part, info.mime, data));
    forall ms | 0 <= ms < |st'.streams|
      ensures StreamOk(st', ms, None)
    {
      assert StreamOk(st, ms, None);
    }
    forall ms: nat | ms >= |st'.streams|
      ensures Unheard(st', ms)
    {
      assert Unheard(st, ms);
    }
  }

  lemma ToldParts(st: State, buffer: nat, data: Bytes, st': State, before: seq<Msg>)
    requires Inv(st) && buffer in st.buffers && st.buffers[buffer].ms < |st.streams| && Live(st, st.buffers[buffer].ms)
    requires Tells(st, buffer, data, st', before) && ShapeOk(st')
    ensures PartsOk(st', None)
  {
    forall other | other in st'.buffers
      ensures BufferOk(st', other) && PartOk(st', other, None)
    {
      hide WellTold, StreamsOk, QueueOk;
      assert BufferOk(st, other) && PartOk(st, other, None);
      if st.buffers[other].ms == st.buffers[buffer].ms {
        PartFollows(st, buffer, data, other);
      }
    }
  }

  lemma WellToldMore(before: seq<Msg>, msg: Msg)
    requires WellTold(before) && msg.Chunk? && RecEnd(msg.ms) !in before
    requires msg.part == PartAfter(DataOf(FedBy(before + [msg], msg.ms), msg.track)).part
    ensures WellTold(before + [msg])
  {
    hide FedBy, DataOf, PartAfter;
    assert (before + [msg])[..|before|] == before;
  }

  /** The bytes told of a recording stream, with one more chunk, are those appended, with one more append. */
  lemma ToldIsAppended(st: State, ms: nat, before: seq<Msg>, msg: Msg)
    requires |st.appended| == |st.streams| && ms < |st.streams| && StreamOk(st, ms, None) && Live(st, ms)
    requires SameTale(Told(st), before) && msg.Chunk? && msg.ms == ms
    ensures FedBy(before + [msg], ms) == st.appended[ms] + [Feed(msg.track, msg.mime, msg.buf)]
    ensures RecEnd(ms) !in before
  {
    hide WellTold;
    ToldOne(before, msg);
    hide FedBy;
    assert FedBy(before, ms) == st.appended[ms];
  }

  lemma PartOfMore(feeds: seq<Feed>, info: Info, data: Bytes)
    requires PartState(info.part, info.media) == PartAfter(DataOf(feeds, info.track))
    ensures Turned(info, data).part == PartAfter(DataOf(feeds + [Feed(info.track, info.mime, data)], info.track)).part
  {
    DataOfAppend(feeds, Feed(info.track, info.mime, data), info.track);
    var datas := DataOf(feeds, info.track);
    assert (datas + [data])[..|datas|] == datas;
    hide DataOf, NextPart;
  }

  lemma ChunkIsWellTold(st: State, buffer: nat, data: Bytes, before: seq<Msg>)
    requires Inv(st) && buffer in st.buffers && st.buffers[buffer].ms < |st.streams| && Live(st, st.buffers[buffer].ms)
    requires SameTale(Told(st), before)
    ensures var info := st.buffers[buffer];
            WellTold(before + [Chunk(info.ms, info.track, Turned(info, data).part, info.mime, data)])
  {
    var info := st.buffers[buffer];
    var msg := Chunk(info.ms, info.track, Turned(info, data).part, info.mime, data);
    assert StreamOk(st, info.ms, None) && PartOk(st, buffer, None) && WellTold(before);
    hide WellTold, FedBy, DataOf, PartAfter, Turned, Told;
    ToldIsAppended(st, info.ms, before, msg);
    PartOfMore(st.appended[info.ms], info, data);
    WellToldMore(before, msg);
  }

  /** After `data`, a buffer of a recording stream is in the part its own appends say. */
  lemma PartFollows(st: State, buffer: nat, data: Bytes, other: nat)
    requires Inv(st) && buffer in st.buffers && other in st.buffers
    requires st.buffers[buffer].ms < |st.streams| && Live(st, st.buffers[buffer].ms)
    requires st.buffers[other].ms == st.buffers[buffer].ms
    ensures var info := st.buffers[buffer];
            var feeds := st.appended[info.ms] + [Feed(info.track, info.mime, data)];
            var now := if other == buffer then Turned(info, data) else st.buffers[other];
            PartState(now.part, now.media) == PartAfter(DataOf(feeds, now.track))
  {
    var info := st.buffers[buffer];
    assert BufferOk(st, buffer) && PartOk(st, buffer, None) && PartOk(st, other, None);
    DataOfAppend(st.appended[info.ms], Feed(info.track, info.mime, data), st.buffers[other].track);
    if other == buffer {
      var datas := DataOf(st.appended[info.ms], info.track);
      assert (datas + [data])[..|datas|] == datas;
      assert PartAfter(datas + [data]) == NextPart(PartAfter(datas), data);
    } else {
      assert st.buffers[other].track != info.track;
    }
  }

  lemma AppendKeeps(st: State, buffer: nat, data: Bytes)
    requires Inv(st) && (buffer in st.buffers ==> st.buffers[buffer].ms < |st.streams| == |st.appended|)
    ensures Inv(Append(st, buffer, data))
  {
    if buffer in st.buffers && data != [] {
      var info := st.buffers[buffer];
      var feed := Feed(info.track, info.mime, data);
      assert BufferOk(st, buffer);
      if !Live(st, info.ms) {
        UntoldKeeps(st, info.ms, feed, None);
        assert Append(st, buffer, data) == Fed(st, info.ms, feed);
      } else {
        RecordKeeps(st, buffer, data);
      }
    } else if buffer in st.buffers {
      var ms := st.buffers[buffer].ms;
      assert st.appended[ms] + [] == st.appended[ms];
      assert st.appended[ms := st.appended[ms]] == st.appended;
    }
  }

  /** A live buffer's append, not yet posted: the buffer knows the chunk's part. */
  function Turning(st: State, buffer: nat, data: Bytes): State
    requires buffer in st.buffers && st.buffers[buffer].ms < |st.appended|
  {
    var info := st.buffers[buffer];
    Fed(st, info.ms, Feed(info.track, info.mime, data)).(buffers := st.buffers[buffer := Turned(info, data)])
  }

  function ChunkOf(info: Info, data: Bytes): Msg {
    Chunk(info.ms, info.track, Turned(info, data).part, info.mime, data)
  }

  lemma RecordSteps(st: State, buffer: nat, data: Bytes)
    requires buffer in st.buffers && st.buffers[buffer].ms < |st.streams| == |st.appended|
    requires data != [] && Live(st, st.buffers[buffer].ms)
    ensures var info := st.buffers[buffer];
            var turning, msg := Turning(st, buffer, data), ChunkOf(info, data);
            Append(st, buffer, data)
            == if Fits(turning, msg) then CountBytes(Post(turning, msg), info.ms, data) else EndStream(Post(turning, msg), info.ms)
  {
  }

  lemma RecordKeeps(st: State, buffer: nat, data: Bytes)
    requires Inv(st) && buffer in st.buffers && st.buffers[buffer].ms < |st.streams| && data != []
    requires Live(st, st.buffers[buffer].ms)
    ensures Inv(Append(st, buffer, data))
  {
    hide FedBy, DataOf, PartAfter, NextPart, WellTold, Append, Post, Fits, Turned, EndStream, CountBytes;
    RecordSteps(st, buffer, data);
    var turning, msg := Turning(st, buffer, data), ChunkOf(st.buffers[buffer], data);
    var before := TurningTells(st, buffer, data);
    PostKeepsBooks(turning, msg);
    if Fits(turning, msg) {
      FitsTells(st, buffer, data, before);
      ToldKeeps(st, buffer, data, CountBytes(Post(turning, msg), st.buffers[buffer].ms, data), before);
    } else {
      LostKeeps(st, buffer, data, before);
      EndStreamKeeps(Post(turning, msg), st.buffers[buffer].ms, Some(st.buffers[buffer].ms));
    }
  }

  lemma TurningTells(st: State, buffer: nat, data: Bytes) returns (before: seq<Msg>)
    requires Inv(st) && buffer in st.buffers && st.buffers[buffer].ms < |st.streams|
    ensures var turning, msg := Turning(st, buffer, data), ChunkOf(st.buffers[buffer], data);
            && SameTale(Told(st), before) && QueueOk(Post(turning, msg))
            && Told(Post(turning, msg)) == if Fits(turning, msg) then before + [msg] else before
  {
    hide FedBy, DataOf, PartAfter, NextPart, WellTold, Post, Fits, Turned, StreamsOk, PartsOk;
    var turning := Turning(st, buffer, data);
    assert Told(turning) == Told(st);
    before := PostTells(turning, ChunkOf(st.buffers[buffer], data));
  }

  lemma FitsTells(st: State, buffer: nat, data: Bytes, before: seq<Msg>)
    requires Inv(st) && buffer in st.buffers && st.buffers[buffer].ms < |st.streams| && data != []
    requires Live(st, st.buffers[buffer].ms) && SameTale(Told(st), before)
    requires var turning, msg := Turning(st, buffer, data), ChunkOf(st.buffers[buffer], data);
             QueueOk(Post(turning, msg)) && Told(Post(turning, msg)) == before + [msg] && Fits(turning, msg)
    ensures var info := st.buffers[buffer];
            var st' := CountBytes(Post(Turning(st, buffer, data), ChunkOf(info, data)), info.ms, data);
            Tells(st, buffer, data, st', before) && QueueOk(st')
  {
    hide FedBy, DataOf, PartAfter, NextPart, WellTold, PartsOk, Turned, Post, Fits, SameTale;
    PostKeepsBooks(Turning(st, buffer, data), ChunkOf(st.buffers[buffer], data));
    assert StreamOk(st, st.buffers[buffer].ms, None);
  }

  /** A chunk of a recording stream that there is no room for; what was told before it is `before`. */
  ghost predicate Loses(st: State, buffer: nat, data: Bytes, before: seq<Msg>)
    requires buffer in st.buffers && st.buffers[buffer].ms < |st.streams| == |st.appended|
  {
    var turning, msg := Turning(st, buffer, data), ChunkOf(st.buffers[buffer], data);
    && Live(st, st.buffers[buffer].ms) && !Fits(turning, msg) && SameTale(Told(st), before)
    && QueueOk(Post(turning, msg)) && Told(Post(turning, msg)) == before
  }

  /** What an append leaves that has no room: the buffer's part, and the appends noted. */
  lemma LostIs(st: State, buffer: nat, data: Bytes, before: seq<Msg>)
    requires Inv(st) && buffer in st.buffers && st.buffers[buffer].ms < |st.streams| && Loses(st, buffer, data, before)
    ensures var info := st.buffers[buffer];
            var feed := Feed(info.track, info.mime, data);
            var st' := Post(Turning(st, buffer, data), ChunkOf(info, data));
            && st'.streams == st.streams && st'.waited == st.waited && st'.capturing == st.capturing
            && st'.buffers == st.buffers[buffer := Turned(info, data)]
            && st'.sources == st.sources && st'.appended == Fed(st, info.ms, feed).appended
            && Told(st') == before && QueueOk(st')
  {
    hide Turned, QueueOk, SameTale, Inv;
  }

  /** A chunk there is no room for leaves everything in order but its own stream, which must end. */
  lemma LostKeeps(st: State, buffer: nat, data: Bytes, before: seq<Msg>)
    requires Inv(st) && buffer in st.buffers && st.buffers[buffer].ms < |st.streams| && Loses(st, buffer, data, before)
    ensures InvBut(Post(Turning(st, buffer, data), ChunkOf(st.buffers[buffer], data)), Some(st.buffers[buffer].ms))
  {
    hide Post, Turning, QueueOk, FedBy, DataOf, PartAfter, WellTold, Fits, ChunkOf;
    var info := st.buffers[buffer];
    var feed := Feed(info.track, info.mime, data);
    var st' := Post(Turning(st, buffer, data), ChunkOf(info, data));
    LostIs(st, buffer, data, before);
    assert BufferOk(st, buffer);
    FedShape(st, info.ms, feed);
    assert WellTold(before);
    SameShape(Fed(st, info.ms, feed), st');
    LostStreams(st, st', info.ms, feed);
    LostParts(st, st', info.ms, feed, buffer);
  }

  lemma LostStreams(st: State, st': State, lost: nat, feed: Feed)
    requires ShapeOk(st) && StreamsOk(st, None) && lost < |st.streams| && SameTale(Told(st), Told(st'))
    requires st'.streams == st.streams && st'.waited == st.waited && st'.capturing == st.capturing
    requires st'.appended == Fed(st, lost, feed).appended
    ensures StreamsOk(st', Some(lost))
  {
    hide WellTold, FedBy, Told;
    forall ms | 0 <= ms < |st'.streams|
      ensures StreamOk(st', ms, Some(lost))
    {
      assert StreamOk(st, ms, None);
    }
    forall ms: nat | ms >= |st'.streams|
      ensures Unheard(st', ms)
    {
      assert Unheard(st, ms);
    }
  }

  lemma LostParts(st: State, st': State, lost: nat, feed: Feed, buffer: nat)
    requires ShapeOk(st) && ShapeOk(st') && PartsOk(st, None) && lost < |st.streams|
    requires buffer in st.buffers && st.buffers[buffer].ms == lost
    requires st'.streams == st.streams && st'.capturing == st.capturing
    requires st'.appended == Fed(st, lost, feed).appended
    requires st'.buffers.Keys == st.buffers.Keys && st'.buffers[buffer].ms == lost
    requires forall other | other in st.buffers && other != buffer :: st'.buffers[other] == st.buffers[other]
    ensures PartsOk(st', Some(lost))
  {
    forall other | other in st'.buffers
      ensures PartOk(st', other, Some(lost))
    {
      assert PartOk(st, other, None);
    }
  }

  // ---------------------------------------------------------------- whole runs

  lemma StepKeeps(st: State, e: Event)
    requires Inv(st) && Enabled(st, e)
    ensures Inv(Step(st, e))
  {
    match e {
      case Offer(id, hasPort) => OfferKeeps(st, id, hasPort);
      case Report(msg) => ReportKeeps(st, msg);
      case Added(source, buffer, mime) => AdoptKeeps(st, source, buffer, mime);
      case Appended(buffer, data) => AppendKeeps(st, buffer, data);
      case SourceEnded(ms) => EndStreamKeeps(st, ms, None);
      case StopAsked => StopKeeps(st);
    }
  }

  lemma InitialHolds(armed: bool)
    ensures Inv(Initial(armed))
  {
    var st := Initial(armed);
    if armed {
      SizesAppend([], Note("rec-active"));
      ToldOne([], Note("rec-active"));
      assert [] + [Note("rec-active")] == [Note("rec-active")];
    }
    assert Sizes([]) == [];
  }

  ghost function After(armed: bool, events: seq<Event>): (st: State)
    ensures Inv(st)
  {
    if events == [] then
      InitialHolds(armed);
      Initial(armed)
    else
      var st := After(armed, events[..|events| - 1]);
      if Enabled(st, events[|events| - 1]) then
        StepKeeps(st, events[|events| - 1]);
        Step(st, events[|events| - 1])
      else
        st
  }

  lemma {:induction false} FedByPrefix(a: seq<Msg>, b: seq<Msg>, ms: nat)
    ensures FedBy(a, ms) <= FedBy(a + b, ms)
    decreases |b|
  {
    if b == [] {
      assert a + b == a;
    } else {
      var n := |b| - 1;
      FedByPrefix(a, b[..n], ms);
      assert a + b == (a + b[..n]) + [b[n]];
      ToldOne(a + b[..n], b[n]);
    }
  }

  /**
   Whenever the port arrives, what reaches the bridge of one stream is a prefix, in order and once
   each, of what was appended to it: there are no holes.
   */
  lemma CaptureHasNoHoles(armed: bool, events: seq<Event>, ms: nat)
    requires ms < |After(armed, events).streams|
    ensures var st := After(armed, events);
            && ms < |st.appended| && FedBy(st.delivered, ms) <= st.appended[ms]
            && (st.port.Some? && Live(st, ms) ==> FedBy(st.delivered, ms) == st.appended[ms])
            && st.heldBytes == Sum(Sizes(st.held)) <= HOLD_LIMIT
  {
    var st := After(armed, events);
    assert StreamOk(st, ms, None);
    FedByPrefix(st.delivered, st.held, ms);
    assert st.port.Some? ==> Told(st) == st.delivered;
  }

  /**
   The bridge is told of a recording's end exactly when the stream has ended and a chunk of it once
   waited for the port: bytes handed over at once are not counted.
   */
  lemma EndIsToldOnlyAfterWaiting(armed: bool, events: seq<Event>, ms: nat)
    requires ms < |After(armed, events).streams|
    ensures var st := After(armed, events);
            RecEnd(ms) in Told(st) <==> st.streams[ms].ended && ms in st.waited
  {
    assert StreamOk(After(armed, events), ms, None);
  }

  // ---------------------------------------------------------------- what is held, and what ends

  /** The bytes of what waits, but for playlist reports. */
  function BytesKept(held: seq<Msg>): nat {
    if held == [] then 0
    else BytesKept(held[..|held| - 1]) + if held[|held| - 1].Playlist? then 0 else SizeOf(held[|held| - 1])
  }

  lemma {:induction false} RecordedAreKept(held: seq<Msg>)
    ensures Sum(Sizes(Recorded(held))) == BytesKept(held) <= Sum(Sizes(held))
  {
    if held != [] {
      hide Recorded, Sizes, Sum;
      var n := |held| - 1;
      RecordedAreKept(held[..n]);
      RecordedStep(held);
      SizesAppend(held[..n], held[n]);
      SizesAppend(Recorded(held[..n]), held[n]);
      assert held == held[..n] + [held[n]];
    } else {
      NothingHeld();
    }
  }

  lemma NothingHeld()
    ensures Recorded([]) == [] && Sum(Sizes([])) == 0
  {
  }

  lemma {:induction false} RecordedAreThere(held: seq<Msg>)
    ensures forall m :: multiset(Recorded(held))[m] == if m.Playlist? then 0 else multiset(held)[m]
  {
    if held != [] {
      var n := |held| - 1;
      RecordedAreThere(held[..n]);
      RecordedStep(held);
      assert held == held[..n] + [held[n]];
    }
  }

  /**
   Without a port a message waits if it fits beside all that does. If not, a chunk makes all playlist
   reports go, and nothing else, and waits if it fits then; any other message is dropped.
   */
  lemma HeldIfItFits(st: State, msg: Msg)
    requires QueueOk(st) && st.port.None?
    ensures var (st', size) := (Post(st, msg), SizeOf(msg));
            if st.heldBytes + size <= 64 * 1024 * 1024 then
              st'.held == st.held + [msg]
            else if !msg.Chunk? then
              st'.held == st.held
            else
              forall m :: multiset(st'.held)[m] ==
                (if m.Playlist? then 0 else multiset(st.held)[m])
                + if m == msg && BytesKept(st.held) + size <= 64 * 1024 * 1024 then 1 else 0
  {
    RecordedAreKept(st.held);
    RecordedAreThere(st.held);
    hide Recorded, BytesKept, Sizes;
  }

  /** A recording goes on exactly as long as there is a port, or the chunk fits beside all but the playlist reports. */
  lemma RecordingGoesOn(st: State, buffer: nat, data: Bytes)
    requires Inv(st) && buffer in st.buffers && st.buffers[buffer].ms < |st.streams| && data != []
    requires Live(st, st.buffers[buffer].ms)
    ensures var (st', ms) := (Step(st, Appended(buffer, data)), st.buffers[buffer].ms);
            && ms < |st'.streams|
            && (Live(st', ms) <==> st.port.Some? || BytesKept(st.held) + |data| <= 64 * 1024 * 1024)
  {
    hide Inv, Recorded, BytesKept, Turned, Sizes;
    QueueIsOk(st);
    RecordedAreKept(st.held);
    var info := st.buffers[buffer];
    var turned := Turned(info, data);
    var msg := Chunk(info.ms, info.track, turned.part, info.mime, data);
    var fed := st.(appended := st.appended[info.ms := st.appended[info.ms] + NonEmpty(info, data)]);
    PostKeepsBooks(fed.(buffers := fed.buffers[buffer := turned]), msg);
    PostKeepsBooks(Post(fed.(buffers := fed.buffers[buffer := turned]), msg), RecEnd(info.ms));
  }

  lemma QueueIsOk(st: State)
    requires Inv(st)
    ensures QueueOk(st) && |st.appended| == |st.streams|
  {
  }

  predicate Offers(events: seq<Event>, k: nat)
    requires k < |events|
  {
    events[k].Offer? && events[k].hasPort
  }

  lemma {:induction false} EndAllLeaves(st: State, n: nat)
    requires n <= |st.streams|
    ensures EndAll(st, n).port == st.port && EndAll(st, n).capturing == st.capturing
    ensures forall ms | 0 <= ms < |st.streams| :: EndAll(st, n).streams[ms].ended <==> st.streams[ms].ended || ms < n
  {
    if n > 0 {
      EndAllLeaves(st, n - 1);
      EndStreamLeaves(EndAll(st, n - 1), n - 1);
    }
  }

  lemma EndStreamLeaves(st: State, ms: nat)
    requires ms < |st.streams|
    ensures EndStream(st, ms).port == st.port && EndStream(st, ms).capturing == st.capturing
    ensures forall other | 0 <= other < |st.streams| ::
              EndStream(st, ms).streams[other].ended <==> st.streams[other].ended || other == ms
  {
    PostKeepsBooks(st.(streams := st.streams[ms := st.streams[ms].(ended := true)]), RecEnd(ms));
  }

  /** A stop while capturing ends every stream, and a second one changes nothing. */
  lemma StopEndsAll(st: State)
    ensures !StopCapture(st).capturing && |StopCapture(st).streams| == |st.streams|
    ensures st.capturing ==> forall ms | 0 <= ms < |st.streams| :: StopCapture(st).streams[ms].ended
    ensures StopCapture(StopCapture(st)) == StopCapture(st)
  {
    if st.capturing {
      EndAllLeaves(st.(capturing := false), |st.streams|);
    }
  }

  lemma PortStays(st: State, e: Event)
    requires Enabled(st, e)
    ensures Step(st, e).port == if e.Offer? && e.hasPort && st.port.None? then Some(e.id) else st.port
  {
    hide Fits, MakeRoom, Turned;
    match e
    case Report(msg) => PostKeepsBooks(st, msg);
    case SourceEnded(ms) => EndStreamLeaves(st, ms);
    case StopAsked => EndAllLeaves(st.(capturing := false), |st.streams|);
    case Appended(buffer, data) => AppendKeepsPort(st, buffer, data);
    case _ =>
  }

  lemma AppendKeepsPort(st: State, buffer: nat, data: Bytes)
    requires buffer in st.buffers ==> st.buffers[buffer].ms < |st.streams| == |st.appended|
    ensures Append(st, buffer, data).port == st.port
  {
    hide Turned, Recorded;
  }

  /** The first offer of a port, if there is one, made this the port. */
  ghost predicate IsFirstOffered(events: seq<Event>, port: Option<string>) {
    && (port.None? <==> forall k | 0 <= k < |events| :: !Offers(events, k))
    && forall k | 0 <= k < |events| && Offers(events, k) && (forall j | 0 <= j < k :: !Offers(events, j)) :: port == Some(events[k].id)
  }

  lemma FirstStays(events: seq<Event>, e: Event, port: Option<string>)
    requires IsFirstOffered(events, port)
    ensures IsFirstOffered(events + [e], if e.Offer? && e.hasPort && port.None? then Some(e.id) else port)
  {
    var all := events + [e];
    assert forall k | 0 <= k < |events| :: all[k] == events[k] && Offers(all, k) == Offers(events, k);
    var first := if e.Offer? && e.hasPort && port.None? then Some(e.id) else port;
    if port.Some? {
      var k :| 0 <= k < |events| && Offers(events, k);
      assert Offers(all, k);
    }
    assert Offers(all, |events|) <==> e.Offer? && e.hasPort;
    forall k | 0 <= k < |all| && Offers(all, k) && forall j | 0 <= j < k :: !Offers(all, j)
      ensures first == Some(all[k].id)
    {
      if k < |events| {
        assert forall j | 0 <= j < k :: Offers(all, j) == Offers(events, j);
      }
    }
  }

  lemma PortAfterOne(armed: bool, events: seq<Event>, e: Event)
    ensures After(armed, events + [e]).port
         == if e.Offer? && e.hasPort && After(armed, events).port.None? then Some(e.id) else After(armed, events).port
  {
    assert (events + [e])[..|events|] == events;
    var st := After(armed, events);
    if Enabled(st, e) {
      PortStays(st, e);
    }
    hide Step, Inv;
  }

  /** The port a bridge offers first is the one that is kept. */
  lemma {:induction false} ThePortIsTheFirst(armed: bool, events: seq<Event>)
    ensures IsFirstOffered(events, After(armed, events).port)
  {
    if events != [] {
      hide *;
      var n := |events| - 1;
      ThePortIsTheFirst(armed, events[..n]);
      PortAfterOne(armed, events[..n], events[n]);
      FirstStays(events[..n], events[n], After(armed, events[..n]).port);
      assert events == events[..n] + [events[n]];
    } else {
      StartsInitial(armed);
      hide After;
    }
  }

  /**
   A new source buffer belongs to the stream of its media source, which is a new one for a new source,
   and gets the next of its sixteen tracks; past those it is left alone, and never recorded.
   */
  lemma BufferGetsTrack(st: State, source: nat, buffer: nat, mime: string)
    requires Inv(st) && Enabled(st, Added(source, buffer, mime))
    ensures var st' := Step(st, Added(source, buffer, mime));
            var known := source in st.sources;
            var ms := if known then st.sources[source] else |st.streams|;
            var tracks := if known then st.streams[ms].tracks else 0;
            && st'.sources == st.sources[source := ms] && |st'.streams| == |st.streams| + (if known then 0 else 1)
            && (forall other | 0 <= other < |st.streams| && other != ms :: st'.streams[other] == st.streams[other])
            && st'.streams[ms].tracks == (if tracks < 16 then tracks + 1 else 16)
            && st'.buffers == (if tracks < 16 then st.buffers[buffer := Info(ms, tracks, mime, 0, false)] else st.buffers)
            && Told(st') == Told(st)
  {
    assert source in st.sources ==> st.streams[st.sources[source]].tracks <= MAX_TRACKS;
  }

  /** A recorded stream can end untold: its only chunk goes over the port at once, and the capture is stopped. */
  lemma AnEndCanStayUntold() returns (events: seq<Event>)
    ensures var st := After(true, events);
            && |st.streams| == 1 && st.streams[0].ended && st.port.Some?
            && FedBy(st.delivered, 0) == st.appended[0] == [Feed(0, "video/mp4", [0])]
            && RecEnd(0) !in Told(st)
  {
    hide Inv, After, FedBy, NextPart;
    var st := Initial(true);
    events := [];
    StartsInitial(true);
    events, st := Happens(true, events, st, Offer("bridge", true));
    events, st := Happens(true, events, st, Added(0, 0, "video/mp4"));
    assert st.buffers == map[0 := Info(0, 0, "video/mp4", 0, false)] && st.streams == [Stream(1, 0, false)];
    events, st := Happens(true, events, st, Appended(0, [0]));
    assert st.appended[0] == [Feed(0, "video/mp4", [0])] && st.streams == [Stream(1, 0, false)];
    var part := Turned(Info(0, 0, "video/mp4", 0, false), [0]).part;
    assert st.delivered == [Note("rec-active")] + [Chunk(0, 0, part, "video/mp4", [0])];
    events, st := Happens(true, events, st, StopAsked);
    StopsTheOne(part, st.delivered);
  }

  lemma StartsInitial(armed: bool)
    ensures After(armed, []) == Initial(armed)
  {
  }

  lemma Happens(armed: bool, events: seq<Event>, st: State, e: Event) returns (more: seq<Event>, next: State)
    requires st == After(armed, events) && Enabled(st, e)
    ensures more == events + [e] && next == After(armed, more) && next == Step(st, e)
  {
    more := events + [e];
    assert more[..|events|] == events;
    StepKeeps(st, e);
    next := Step(st, e);
  }

  lemma StopsTheOne(part: nat, msgs: seq<Msg>)
    requires msgs == [Note("rec-active")] + [Chunk(0, 0, part, "video/mp4", [0])]
    ensures FedBy(msgs, 0) == [Feed(0, "video/mp4", [0])]
  {
    ToldOne([Note("rec-active")], Chunk(0, 0, part, "video/mp4", [0]));
    ToldOne([], Note("rec-active"));
    assert [] + [Note("rec-active")] == [Note("rec-active")];
  }

  lemma {:induction false} WellToldAt(msgs: seq<Msg>, k: nat)
    requires WellTold(msgs) && k < |msgs|
    ensures msgs[k].Chunk? ==>
              && msgs[k].part == PartAfter(DataOf(FedBy(msgs[..k + 1], msgs[k].ms), msgs[k].track)).part
              && RecEnd(msgs[k].ms) !in msgs[..k]
    decreases |msgs|
  {
    var n := |msgs| - 1;
    if k < n {
      WellToldAt(msgs[..n], k);
      assert msgs[..n][..k + 1] == msgs[..k + 1] && msgs[..n][..k] == msgs[..k];
    } else {
      assert msgs[..n + 1] == msgs;
    }
  }

  lemma {:induction false} DataOfPrefix(feeds: seq<Feed>, n: nat, track: nat)
    requires n <= |feeds|
    ensures DataOf(feeds[..n], track) <= DataOf(feeds, track)
    decreases |feeds|
  {
    if n < |feeds| {
      var m := |feeds| - 1;
      DataOfPrefix(feeds[..m], n, track);
      assert feeds[..m][..n] == feeds[..n];
    } else {
      assert feeds[..n] == feeds;
    }
  }

  /** The parts of a track's chunks never go down nor past 255, and no chunk follows its stream's end. */
  lemma PartsNeverGoDown(armed: bool, events: seq<Event>, i: nat, j: nat)
    requires i < j < |Told(After(armed, events))|
    ensures var msgs := Told(After(armed, events));
            msgs[j].Chunk? ==>
              && msgs[j].part <= MAX_PART
              && msgs[i] != RecEnd(msgs[j].ms)
              && (msgs[i].Chunk? && msgs[i].ms == msgs[j].ms && msgs[i].track == msgs[j].track ==>
                    msgs[i].part <= msgs[j].part)
  {
    var msgs := Told(After(armed, events));
    WellToldAt(msgs, i);
    WellToldAt(msgs, j);
    assert msgs[i] in msgs[..j];
    if msgs[j].Chunk? && msgs[i].Chunk? && msgs[i].ms == msgs[j].ms && msgs[i].track == msgs[j].track {
      PartsRise(msgs, i, j);
    }
  }

  /**
   The part of every chunk told is the number of appends to its track, up to its own, that start with
   an init after media, up to 255.
   */
  lemma PartsAreTurns(armed: bool, events: seq<Event>, j: nat)
    requires j < |Told(After(armed, events))| && Told(After(armed, events))[j].Chunk?
    ensures var msgs := Told(After(armed, events));
            var datas := DataOf(FedBy(msgs[..j + 1], msgs[j].ms), msgs[j].track);
            && datas != [] && datas[|datas| - 1] == msgs[j].buf
            && msgs[j].part == Min(255, |Turns(datas)|)
  {
    hide FedBy, DataOf, PartAfter, Turns, Step, BufferOk, ShapeOk, StreamsOk, PartsOk, QueueOk;
    var msgs := Told(After(armed, events));
    var (ms, track) := (msgs[j].ms, msgs[j].track);
    WellToldAt(msgs, j);
    assert msgs[..j + 1] == msgs[..j] + [msgs[j]];
    ToldOne(msgs[..j], msgs[j]);
    DataOfAppend(FedBy(msgs[..j], ms), Feed(track, msgs[j].mime, msgs[j].buf), track);
    PartCountsTurns(DataOf(FedBy(msgs[..j + 1], ms), track));
  }

  lemma PartsRise(msgs: seq<Msg>, i: nat, j: nat)
    requires i < j < |msgs| && msgs[j].Chunk?
    ensures var ms, track := msgs[j].ms, msgs[j].track;
            PartAfter(DataOf(FedBy(msgs[..i + 1], ms), track)).part <= PartAfter(DataOf(FedBy(msgs[..j + 1], ms), track)).part
  {
    var ms, track := msgs[j].ms, msgs[j].track;
    assert msgs[..j + 1] == msgs[..i + 1] + msgs[i + 1..j + 1];
    FedByPrefix(msgs[..i + 1], msgs[i + 1..j + 1], ms);
    var a, b := FedBy(msgs[..i + 1], ms), FedBy(msgs[..j + 1], ms);
    assert b[..|a|] == a;
    DataOfPrefix(b, |a|, track);
    var x, y := DataOf(a, track), DataOf(b, track);
    assert y[..|x|] == x;
    PartsOnlyRise(y, |x|);
  }

  // ---------------------------------------------------------------- the script

  /** The walk over boxes, or over the bytes for a WebM cluster. */
  method ScanMedia(b: Bytes) returns (found: bool)
    requires |b| >= 8
    ensures found == HoldsMedia(b)
  {
    if IsEbml(b) {
      for at := 4 to |b| - 3
        invariant ClusterFrom(b, 4) == ClusterFrom(b, at)
      {
        if IsCluster(b, at) {
          return true;
        }
      }
      return false;
    }
    var at: nat := 0;
    while at + 8 <= |b|
      invariant MediaFrom(b, 0) == MediaFrom(b, at)
      decreases |b| - at
    {
      if IsMedia(b, at) {
        return true;
      }
      if BoxSize(b, at) < 8 {
        return false;
      }
      at := at + BoxSize(b, at);
    }
    return false;
  }

  /** Computes `Turned`, scanning the bytes of an init for media. */
  method Turn(info: Info, data: Bytes) returns (turned: Info)
    ensures turned == Turned(info, data)
  {
    turned := info;
    if !StartsWithInit(data) {
      turned := turned.(media := true);
    } else {
      if turned.media && turned.part < MAX_PART {
        turned := turned.(part := turned.part + 1);
      }
      var media := ScanMedia(data);
      turned := turned.(media := media);
    }
  }

  /** The hook's variables, with what went over the port and what was appended as ghost history. */
  class Script {
    var port: Option<string>
    var held: seq<Msg>
    var heldBytes: nat
    var capturing: bool
    var streams: seq<Stream>
    var sources: map<nat, nat>
    var buffers: map<nat, Info>
    ghost var delivered: seq<Msg>
    ghost var appended: seq<seq<Feed>>
    ghost var waited: set<nat>

    ghost function View(): State
      reads this
    {
      State(port, held, heldBytes, capturing, streams, sources, buffers, delivered, appended, waited)
    }

    constructor (armed: bool)
      ensures View() == Initial(armed)
    {
      port, heldBytes, capturing := None, 0, armed;
      held := if armed then [Note("rec-active")] else [];
      streams, sources, buffers := [], map[], map[];
      delivered, appended, waited := [], [], {};
    }

    /** Gives up the playlist reports held. */
    method DropReports()
      requires heldBytes == Sum(Sizes(held))
      modifies this`held, this`heldBytes
      ensures held == Recorded(old(held)) && heldBytes == Sum(Sizes(held))
    {
      var all := held;
      var kept: seq<Msg> := [];
      var bytes: nat := heldBytes;
      for i := 0 to |all|
        invariant kept == Recorded(all[..i])
        invariant bytes == Sum(Sizes(kept)) + Sum(Sizes(all)) - Sum(Sizes(all[..i]))
      {
        assert all[..i + 1] == all[..i] + [all[i]] && all[..i + 1][..i] == all[..i];
        SizesAppend(all[..i], all[i]);
        SizesAppend(kept, all[i]);
        RecordedStep(all[..i + 1]);
        RecordedIsSmaller(all[..i + 1]);
        SumGrows(all, i + 1);
        if all[i].Playlist? {
          bytes := bytes - SizeOf(all[i]);
        } else {
          kept := kept + [all[i]];
        }
      }
      assert all[..|all|] == all;
      assert kept == Recorded(all) && bytes == Sum(Sizes(kept));
      held, heldBytes := kept, bytes;
    }

    /** The script's `post`. */
    method Send(msg: Msg) returns (sent: bool)
      requires heldBytes == Sum(Sizes(held))
      modifies this
      ensures View() == Post(old(View()), msg) && sent == Fits(old(View()), msg)
      ensures port == old(port) && streams == old(streams) && buffers == old(buffers)
      ensures heldBytes == Sum(Sizes(held))
    {
      if port.Some? {
        delivered := delivered + [msg];
        return true;
      }
      var size := SizeOf(msg);
      if heldBytes + size > HOLD_LIMIT && msg.Chunk? {
        DropReports();
      }
      if heldBytes + size > HOLD_LIMIT {
        return false;
      }
      SizesAppend(held, msg);
      held := held + [msg];
      heldBytes := heldBytes + size;
      return true;
    }

    method Offer(id: string, hasPort: bool)
      modifies this
      ensures View() == TakePort(old(View()), id, hasPort)
    {
      if port.Some? || !hasPort {
        return;
      }
      port := Some(id);
      delivered := delivered + held;
      held, heldBytes := [], 0;
    }

    method End(ms: nat)
      requires ms < |streams| && heldBytes == Sum(Sizes(held))
      modifies this
      ensures View() == EndStream(old(View()), ms)
      ensures |streams| == |old(streams)| && heldBytes == Sum(Sizes(held))
    {
      if streams[ms].ended {
        return;
      }
      streams := streams[ms := streams[ms].(ended := true)];
      if streams[ms].bytes > 0 {
        var _ := Send(RecEnd(ms));
      }
    }

    method Stop()
      requires heldBytes == Sum(Sizes(held))
      modifies this
      ensures View() == StopCapture(old(View()))
    {
      if !capturing {
        return;
      }
      capturing := false;
      ghost var quiet := View();
      for ms := 0 to |streams|
        invariant |streams| == |quiet.streams| && heldBytes == Sum(Sizes(held))
        invariant View() == EndAll(quiet, ms)
      {
        End(ms);
      }
    }

    method Add(source: nat, buffer: nat, mime: string)
      requires source in sources ==> sources[source] < |streams|
      modifies this
      ensures View() == Adopt(old(View()), source, buffer, mime)
    {
      var ms: nat;
      if source in sources {
        ms := sources[source];
      } else {
        ms := |streams|;
        streams := streams + [Stream(0, 0, false)];
        sources := sources[source := ms];
        appended := appended + [[]];
      }
      var stream := streams[ms];
      if stream.tracks < MAX_TRACKS {
        buffers := buffers[buffer := Info(ms, stream.tracks, mime, 0, false)];
        streams := streams[ms := stream.(tracks := stream.tracks + 1)];
      }
    }

    /** The player's append, recorded while its stream is. */
    method Record(buffer: nat, data: Bytes)
      requires heldBytes == Sum(Sizes(held))
      requires buffer in buffers ==> buffers[buffer].ms < |streams| == |appended|
      modifies this
      ensures View() == Append(old(View()), buffer, data)
    {
      hide Turned, Sizes, Recorded, EndStream, Post, Fits;
      if buffer !in buffers {
        return;
      }
      var info := buffers[buffer];
      appended := appended[info.ms := appended[info.ms] + NonEmpty(info, data)];
      if !capturing || streams[info.ms].ended || data == [] {
        return;
      }
      var turned := Turn(info, data);
      ghost var before := View();
      buffers := buffers[buffer := turned];
      var msg := Chunk(info.ms, info.track, turned.part, info.mime, data);
      FitsAlike(before, View(), msg);
      PostKeepsBooks(View(), msg);
      var sent := Send(msg);
      if !sent {
        End(info.ms);
      } else if port.None? {
        streams := streams[info.ms := streams[info.ms].(bytes := streams[info.ms].bytes + |data|)];
        waited := waited + {info.ms};
      }
    }
  }

  lemma {:induction false} SumGrows(held: seq<Msg>, n: nat)
    requires n <= |held|
    ensures Sum(Sizes(held[..n])) <= Sum(Sizes(held))
    decreases |held|
  {
    if n < |held| {
      var m := |held| - 1;
      SumGrows(held[..m], n);
      assert held == held[..m] + [held[m]] && held[..m][..n] == held[..n];
      SizesAppend(held[..m], held[m]);
    } else {
      assert held[..n] == held;
    }
  }
}
