/**
 Downloading an HLS track inside the page (extension/content/bridge.js): its segments are fetched a
 few at a time and handed over in order, slice by slice, with an init section before each segment
 that changes it.
 */
module HlsDownload {
  import opened Basics
  import opened Hls

  const IN_FLIGHT: nat := 2
  const SLICE: nat := 8 * 1024 * 1024
  const MAX_PART: nat := 255
  const PACKET: nat := 188

  // ---------------------------------------------------------------- MPEG-TS in disguise

  predicate Sync(data: Bytes, at: nat) {
    at < |data| && data[at] == 0x47
  }

  /** Sync bytes at `at` and at the next four packet distances. */
  predicate Run(data: Bytes, at: nat) {
    && Sync(data, at) && Sync(data, at + PACKET) && Sync(data, at + 2 * PACKET)
    && Sync(data, at + 3 * PACKET) && Sync(data, at + 4 * PACKET)
  }

  /** From the first run to the end of the last whole packet from there that begins as one. */
  ghost predicate Cut(data: Bytes, start: nat, end: nat) {
    && Run(data, start) && (forall at: nat | at < start :: !Run(data, at))
    && start < end <= |data| && (end - start) % PACKET == 0 && Sync(data, end - PACKET)
    && forall packet: nat | (end - start) / PACKET <= packet < (|data| - start) / PACKET ::
         !Sync(data, start + packet * PACKET)
  }

  /** Without a run the data is kept whole. */
  ghost predicate IsStripped(data: Bytes, stripped: Bytes) {
    if exists at: nat :: Run(data, at) then
      exists start: nat, end: nat | start <= end <= |data| :: Cut(data, start, end) && stripped == data[start..end]
    else
      stripped == data
  }

  /** The first run from `at` on. */
  function FirstRun(data: Bytes, at: nat): (start: Option<nat>)
    ensures start.Some? ==> at <= start.value && Run(data, start.value) && forall k: nat | at <= k < start.value :: !Run(data, k)
    ensures start.None? ==> forall k: nat | at <= k :: !Run(data, k)
    decreases |data| - at
  {
    if at + 4 * PACKET >= |data| then None
    else if Run(data, at) then Some(at)
    else FirstRun(data, at + 1)
  }

  /** Of `packets` packets from `start` on, how many there are up to the last that begins as one. */
  function WholePackets(data: Bytes, start: nat, packets: nat): (n: nat)
    requires Sync(data, start) && packets >= 1
    ensures 1 <= n <= packets && Sync(data, start + (n - 1) * PACKET)
    ensures forall packet: nat | n <= packet < packets :: !Sync(data, start + packet * PACKET)
  {
    if Sync(data, start + (packets - 1) * PACKET) then packets else WholePackets(data, start, packets - 1)
  }

  function Stripped(data: Bytes): (stripped: Bytes)
    ensures IsStripped(data, stripped)
  {
    var start := FirstRun(data, 0);
    if start.None? then
      data
    else
      var n := WholePackets(data, start.value, (|data| - start.value) / PACKET);
      CutThere(data, start.value, n);
      data[start.value..start.value + n * PACKET]
  }

  lemma CutThere(data: Bytes, start: nat, n: nat)
    requires Run(data, start) && forall at: nat | at < start :: !Run(data, at)
    requires 1 <= n <= (|data| - start) / PACKET && Sync(data, start + (n - 1) * PACKET)
    requires forall packet: nat | n <= packet < (|data| - start) / PACKET :: !Sync(data, start + packet * PACKET)
    ensures start + n * PACKET <= |data| && Cut(data, start, start + n * PACKET)
  {
  }

  method StripDisguise(data: Bytes) returns (stripped: Bytes)
    ensures stripped == Stripped(data) && IsStripped(data, stripped)
  {
    hide Cut, IsStripped, FirstRun, WholePackets;
    var start := FindRun(data);
    if start.None? {
      return data;
    }
    var packets := CountPackets(data, start.value);
    stripped := data[start.value..start.value + packets * PACKET];
  }

  method FindRun(data: Bytes) returns (start: Option<nat>)
    ensures start == FirstRun(data, 0)
  {
    hide Run;
    var at: nat := 0;
    while at + 4 * PACKET < |data| && !Run(data, at)
      invariant FirstRun(data, at) == FirstRun(data, 0)
      decreases |data| - at
    {
      at := at + 1;
    }
    return if at + 4 * PACKET >= |data| then None else Some(at);
  }

  method CountPackets(data: Bytes, start: nat) returns (packets: nat)
    requires Run(data, start) && forall at: nat | at < start :: !Run(data, at)
    ensures (|data| - start) / PACKET >= 1 && packets == WholePackets(data, start, (|data| - start) / PACKET)
    ensures start + packets * PACKET <= |data|
  {
    packets := (|data| - start) / PACKET;
    ghost var all := packets;
    while !Sync(data, start + (packets - 1) * PACKET)
      invariant 1 <= packets <= all
      invariant WholePackets(data, start, packets) == WholePackets(data, start, all)
      decreases packets
    {
      packets := packets - 1;
    }
  }

  // ---------------------------------------------------------------- what the network gives

  /** What the network answers: bytes of a URL, and their decryption under a key and an IV; None for a failure. */
  datatype Net = Net(fetch: (string, Option<Range>) -> Option<Bytes>, decrypt: (string, Bytes, Bytes) -> Option<Bytes>)

  /** What a resource is decrypted under: the key's own IV, else its number. */
  predicate IsIv(iv: Bytes, key: KeyRef, sequence: nat) {
    if key.iv.Some? then iv == key.iv.value else IsSequenceIv(iv, sequence)
  }

  function IvOf(key: KeyRef, sequence: nat): (iv: Bytes)
    ensures IsIv(iv, key, sequence)
  {
    IvIsTheSequence(sequence);
    if key.iv.Some? then key.iv.value else SequenceIv(sequence)
  }

  lemma OneIv(a: Bytes, b: Bytes, key: KeyRef, sequence: nat)
    requires IsIv(a, key, sequence) && IsIv(b, key, sequence)
    ensures a == b
  {
    if key.iv.None? {
      BytesReadApart(a, b);
    }
  }

  function Decrypted(net: Net, key: Option<KeyRef>, sequence: nat, data: Option<Bytes>): Option<Bytes> {
    if data.None? || key.None? then data
    else net.decrypt(key.value.url, IvOf(key.value, sequence), data.value)
  }

  function InitOf(net: Net, m: MapRef): Option<Bytes> {
    Decrypted(net, m.key, m.sequence, net.fetch(m.url, m.range))
  }

  /** A segment's bytes; only one without an init section may be in disguise. */
  function DataOf(net: Net, s: Segment): Option<Bytes> {
    var data := Decrypted(net, s.key, s.sequence, net.fetch(s.url, s.range));
    if data.Some? && s.map_.None? then Some(Stripped(data.value)) else data
  }

  /** `plain` is what was fetched, decrypted if there is a key. */
  ghost predicate IsPlain(net: Net, key: Option<KeyRef>, sequence: nat, fetched: Option<Bytes>, plain: Option<Bytes>) {
    if fetched.None? || key.None? then
      plain == fetched
    else
      forall iv | IsIv(iv, key.value, sequence) :: plain == net.decrypt(key.value.url, iv, fetched.value)
  }

  /** Bytes that no init section comes with may be in disguise, which is taken off; others are left as they are. */
  ghost predicate Undisguised(plain: Option<Bytes>, withInit: bool, data: Option<Bytes>) {
    if plain.None? || withInit then data == plain else data.Some? && IsStripped(plain.value, data.value)
  }

  ghost predicate Gives(net: Net, s: Segment, data: Option<Bytes>) {
    exists plain :: IsPlain(net, s.key, s.sequence, net.fetch(s.url, s.range), plain) && Undisguised(plain, s.map_.Some?, data)
  }

  lemma DecryptedIsPlain(net: Net, key: Option<KeyRef>, sequence: nat, fetched: Option<Bytes>)
    ensures IsPlain(net, key, sequence, fetched, Decrypted(net, key, sequence, fetched))
  {
    if fetched.Some? && key.Some? {
      forall iv | IsIv(iv, key.value, sequence)
        ensures iv == IvOf(key.value, sequence)
      {
        OneIv(iv, IvOf(key.value, sequence), key.value, sequence);
      }
    }
  }

  /** A segment gives its range of its address, decrypted under its key and undisguised. */
  lemma DataIsGiven(net: Net, s: Segment)
    ensures Gives(net, s, DataOf(net, s))
  {
    DecryptedIsPlain(net, s.key, s.sequence, net.fetch(s.url, s.range));
    hide IsPlain, Stripped;
  }

  method FetchSegment(net: Net, s: Segment) returns (data: Option<Bytes>)
    ensures data == DataOf(net, s) && Gives(net, s, data)
  {
    hide Gives;
    DataIsGiven(net, s);
    data := Decrypted(net, s.key, s.sequence, net.fetch(s.url, s.range));
    if data.Some? && s.map_.None? {
      var stripped := StripDisguise(data.value);
      data := Some(stripped);
    }
  }

  // ---------------------------------------------------------------- init sections

  /** The init section a segment needs, told apart by where it is. */
  function InitStart(m: MapRef): Option<nat> {
    if m.range.Some? then Some(m.range.value.start) else None
  }

  predicate SameInit(a: MapRef, b: MapRef) {
    a.url == b.url && InitStart(a) == InitStart(b)
  }

  /** The init section in force before segment `n`: that of the latest segment with one. */
  function InitBefore(segments: seq<Segment>, n: nat): Option<MapRef>
    requires n <= |segments|
  {
    if n == 0 then None
    else if segments[n - 1].map_.Some? then segments[n - 1].map_
    else InitBefore(segments, n - 1)
  }

  /** A segment whose init section is not the one in force. */
  predicate Changes(segments: seq<Segment>, n: nat)
    requires n < |segments|
  {
    segments[n].map_.Some?
    && (InitBefore(segments, n).None? || !SameInit(segments[n].map_.value, InitBefore(segments, n).value))
  }

  function CountChanges(segments: seq<Segment>, n: nat): nat
    requires n <= |segments|
  {
    if n == 0 then 0 else CountChanges(segments, n - 1) + if Changes(segments, n - 1) then 1 else 0
  }

  /** The init section handed over last before segment `n`. */
  function GivenBefore(segments: seq<Segment>, n: nat): Option<MapRef>
    requires n <= |segments|
  {
    if n == 0 then None
    else if Changes(segments, n - 1) then segments[n - 1].map_
    else GivenBefore(segments, n - 1)
  }

  lemma {:induction false} GivenIsInForce(segments: seq<Segment>, n: nat)
    requires n <= |segments|
    ensures GivenBefore(segments, n).Some? <==> InitBefore(segments, n).Some?
    ensures GivenBefore(segments, n).Some? <==> CountChanges(segments, n) > 0
    ensures GivenBefore(segments, n).Some? ==> SameInit(GivenBefore(segments, n).value, InitBefore(segments, n).value)
    decreases n
  {
    if n > 0 {
      GivenIsInForce(segments, n - 1);
    }
  }

  /** Two init sections are fetched alike: from the same bytes, under the same key and IV. */
  ghost predicate SameRequest(a: MapRef, b: MapRef) {
    && a.url == b.url && a.range == b.range
    && a.key.Some? == b.key.Some?
    && (a.key.Some? ==>
          && a.key.value.url == b.key.value.url
          && forall iv | IsIv(iv, a.key.value, a.sequence) :: IsIv(iv, b.key.value, b.sequence))
  }

  lemma SameIv(a: MapRef, b: MapRef)
    requires a.key.Some? && b.key.Some?
    ensures (forall iv | IsIv(iv, a.key.value, a.sequence) :: IsIv(iv, b.key.value, b.sequence))
       <==> IvOf(a.key.value, a.sequence) == IvOf(b.key.value, b.sequence)
  {
    var (ours, theirs) := (IvOf(a.key.value, a.sequence), IvOf(b.key.value, b.sequence));
    if IsIv(ours, b.key.value, b.sequence) {
      OneIv(ours, theirs, b.key.value, b.sequence);
    }
    forall iv | IsIv(iv, a.key.value, a.sequence)
      ensures iv == ours
    {
      OneIv(iv, ours, a.key.value, a.sequence);
    }
  }

  /**
   The init section a segment follows starts where its own does. It is its own, whatever the network
   answers, exactly when both are fetched alike: one with another end or key is not told apart.
   */
  lemma FollowsItsOwnInit(net: Net, segments: seq<Segment>, n: nat)
    requires n < |segments| && segments[n].map_.Some?
    ensures GivenBefore(segments, n + 1).Some? && SameInit(GivenBefore(segments, n + 1).value, segments[n].map_.value)
    ensures SameRequest(GivenBefore(segments, n + 1).value, segments[n].map_.value) ==>
              InitOf(net, GivenBefore(segments, n + 1).value) == InitOf(net, segments[n].map_.value)
  {
    GivenIsInForce(segments, n + 1);
    var (a, b) := (GivenBefore(segments, n + 1).value, segments[n].map_.value);
    if a.key.Some? && b.key.Some? {
      SameIv(a, b);
    }
  }

  /** A network for which it follows another one. */
  lemma MayFollowAnother(segments: seq<Segment>, n: nat) returns (net: Net)
    requires n < |segments| && segments[n].map_.Some? && GivenBefore(segments, n + 1).Some?
    requires !SameRequest(GivenBefore(segments, n + 1).value, segments[n].map_.value)
    ensures InitOf(net, GivenBefore(segments, n + 1).value) != InitOf(net, segments[n].map_.value)
  {
    var a, b := GivenBefore(segments, n + 1).value, segments[n].map_.value;
    if a.url != b.url || a.range != b.range {
      net := Net((url, range) => if url == a.url && range == a.range then Some([0]) else Some([1]), (key, iv, data) => Some(data));
      assert net.fetch(a.url, a.range) == Some([0]) && net.fetch(b.url, b.range) == Some([1]);
    } else if a.key.Some? && b.key.Some? {
      SameIv(a, b);
      var key, iv := a.key.value.url, IvOf(a.key.value, a.sequence);
      net := Net((url, range) => Some([0]), (k, i, data) => if k == key && i == iv then Some([0]) else Some([1]));
    } else {
      net := Net((url, range) => Some([0]), (k, i, data) => Some([1]));
    }
  }

  /** Two segments whose init sections start alike and end elsewhere: the second follows the first one's. */
  lemma AnotherEndIsNoChange() returns (segments: seq<Segment>)
    ensures |segments| == 2 && segments[1].map_.Some? && !Changes(segments, 1)
    ensures GivenBefore(segments, 2).Some? && !SameRequest(GivenBefore(segments, 2).value, segments[1].map_.value)
  {
    var a, b := MapRef("m", Some(Range(0, 9)), None, 0), MapRef("m", Some(Range(0, 19)), None, 1);
    segments := [Segment("a", 0, None, Some(a), None), Segment("b", 1, None, Some(b), None)];
    assert InitBefore(segments, 0) == None && InitBefore(segments, 1) == Some(a);
    assert GivenBefore(segments, 1) == Some(a) && GivenBefore(segments, 2) == Some(a);
  }

  // ---------------------------------------------------------------- pieces

  /** What the background is handed, and what of it. */
  datatype Piece = Init(segment: nat, part: nat) | Data(segment: nat, part: nat)

  /** Each init section after the first starts a part; the last part takes all that is over. */
  function PartOf(segments: seq<Segment>, n: nat): nat
    requires n <= |segments|
  {
    Min(Max(CountChanges(segments, n) - 1, 0), MAX_PART)
  }

  function InitPiece(segments: seq<Segment>, n: nat): Piece
    requires n < |segments|
  {
    Init(n, PartOf(segments, n + 1))
  }

  function DataPiece(segments: seq<Segment>, n: nat): Piece
    requires n < |segments|
  {
    Data(n, PartOf(segments, n + 1))
  }

  /** What segment `n` comes with: its init section first, if it changes it. */
  function PiecesAt(segments: seq<Segment>, n: nat): seq<Piece>
    requires n < |segments|
  {
    (if Changes(segments, n) then [InitPiece(segments, n)] else []) + [DataPiece(segments, n)]
  }

  /** The first `n` segments in order, an init section before each that changes it. */
  function Pieces(segments: seq<Segment>, n: nat): seq<Piece>
    requires n <= |segments|
  {
    if n == 0 then [] else Pieces(segments, n - 1) + PiecesAt(segments, n - 1)
  }

  /**
   The pieces are every segment once, and an init section exactly where the latest one before is
   another; the part is one less than the init sections so far, up to the last part.
   */
  lemma {:induction false} PieceIsHandedOver(segments: seq<Segment>, n: nat, p: Piece)
    requires n <= |segments|
    ensures |Pieces(segments, n)| == n + CountChanges(segments, n)
    ensures p in Pieces(segments, n) <==>
            p.segment < n && p.part == PartOf(segments, p.segment + 1) && (p.Init? ==> Changes(segments, p.segment))
    decreases n
  {
    if n > 0 {
      PieceIsHandedOver(segments, n - 1, p);
      PieceAt(segments, n - 1, p);
      hide PartOf, Changes, PiecesAt;
      assert p in Pieces(segments, n) <==> p in Pieces(segments, n - 1) || p in PiecesAt(segments, n - 1);
    }
  }

  /** Both are at one address and start at one byte there, or neither says where. */
  predicate StartAlike(a: MapRef, b: MapRef) {
    a.url == b.url && a.range.Some? == b.range.Some? && (a.range.Some? ==> a.range.value.start == b.range.value.start)
  }

  /** Segment `n` has an init section, and the latest one before, if any, starts elsewhere. */
  predicate NeedsInit(segments: seq<Segment>, n: nat)
    requires n < |segments|
  {
    && segments[n].map_.Some?
    && forall m | 0 <= m < n && segments[m].map_.Some? && (forall k | m < k < n :: segments[k].map_.None?) ::
         !StartAlike(segments[m].map_.value, segments[n].map_.value)
  }

  ghost function Inits(segments: seq<Segment>, n: nat): set<nat>
    requires n <= |segments|
  {
    set m: nat | m < n && NeedsInit(segments, m)
  }

  lemma {:induction false} InitBeforeIs(segments: seq<Segment>, n: nat) returns (m: nat)
    requires n <= |segments|
    ensures InitBefore(segments, n).None? <==> forall k | 0 <= k < n :: segments[k].map_.None?
    ensures InitBefore(segments, n).Some? ==>
              m < n && InitBefore(segments, n) == segments[m].map_ && forall k | m < k < n :: segments[k].map_.None?
    decreases n
  {
    m := 0;
    if n > 0 {
      m := InitBeforeIs(segments, n - 1);
      if segments[n - 1].map_.Some? {
        m := n - 1;
      }
    }
  }

  lemma ChangesIfNeeded(segments: seq<Segment>, n: nat)
    requires n < |segments|
    ensures Changes(segments, n) <==> NeedsInit(segments, n)
  {
    var m := InitBeforeIs(segments, n);
    hide InitBefore;
  }

  lemma {:induction false} ChangesAreInits(segments: seq<Segment>, n: nat)
    requires n <= |segments|
    ensures CountChanges(segments, n) == |Inits(segments, n)|
  {
    if n > 0 {
      hide Changes, NeedsInit, Inits;
      ChangesAreInits(segments, n - 1);
      ChangesIfNeeded(segments, n - 1);
      InitsOneMore(segments, n - 1);
    }
  }

  lemma InitsOneMore(segments: seq<Segment>, n: nat)
    requires n < |segments|
    ensures |Inits(segments, n + 1)| == |Inits(segments, n)| + if NeedsInit(segments, n) then 1 else 0
  {
    hide NeedsInit;
    var before, here := Inits(segments, n), NeedsInit(segments, n);
    assert n !in before;
    if here {
      assert Inits(segments, n + 1) == before + {n};
    } else {
      assert Inits(segments, n + 1) == before;
    }
  }

  /**
   A track is handed over as every segment once, and an init section exactly with each that needs it;
   all of a segment is in the part that counts the init sections up to it, from 0 and up to 255.
   */
  lemma PiecesAreTheTrack(segments: seq<Segment>, p: Piece)
    ensures |Pieces(segments, |segments|)| == |segments| + |Inits(segments, |segments|)|
    ensures p in Pieces(segments, |segments|) <==>
            && p.segment < |segments| && (p.Init? ==> NeedsInit(segments, p.segment))
            && var inits := |Inits(segments, p.segment + 1)|;
               p.part == if inits == 0 then 0 else if inits <= 256 then inits - 1 else 255
  {
    hide Changes, NeedsInit, CountChanges, Inits;
    PieceIsHandedOver(segments, |segments|, p);
    ChangesAreInits(segments, |segments|);
    if p.segment < |segments| {
      ChangesIfNeeded(segments, p.segment);
      ChangesAreInits(segments, p.segment + 1);
    }
  }

  lemma PieceAt(segments: seq<Segment>, n: nat, p: Piece)
    requires n < |segments|
    ensures p in PiecesAt(segments, n) <==>
            p.segment == n && p.part == PartOf(segments, n + 1) && (p.Init? ==> Changes(segments, n))
    ensures |PiecesAt(segments, n)| == 1 + if Changes(segments, n) then 1 else 0
  {
    hide PartOf, Changes;
  }

  /** Pieces come in segment order, a segment's init section before its data. */
  lemma {:induction false} PiecesAreInOrder(segments: seq<Segment>, n: nat, i: nat, j: nat)
    requires n <= |segments| && i < j < |Pieces(segments, n)|
    ensures var a, b := Pieces(segments, n)[i], Pieces(segments, n)[j];
            a.segment < b.segment || (a.segment == b.segment && a.Init? && b.Data?)
    decreases n
  {
    var rest := Pieces(segments, n - 1);
    if j < |rest| {
      PiecesAreInOrder(segments, n - 1, i, j);
    } else if i < |rest| {
      assert rest[i] in rest;
      PieceIsHandedOver(segments, n - 1, rest[i]);
    }
  }

  lemma PiecesDiffer(segments: seq<Segment>, n: nat)
    requires n <= |segments|
    ensures forall i, j | 0 <= i < j < |Pieces(segments, n)| :: Pieces(segments, n)[i] != Pieces(segments, n)[j]
  {
    forall i, j | 0 <= i < j < |Pieces(segments, n)|
      ensures Pieces(segments, n)[i] != Pieces(segments, n)[j]
    {
      PiecesAreInOrder(segments, n, i, j);
    }
  }

  // ---------------------------------------------------------------- slices

  /** A message to the background: some bytes of a piece. */
  datatype Slice = Slice(piece: Piece, bytes: Bytes)

  function Slices(bytes: Bytes): (slices: seq<Bytes>)
    ensures forall i | 0 <= i < |slices| :: 0 < |slices[i]| <= SLICE
    ensures forall i | 0 <= i < |slices| - 1 :: |slices[i]| == SLICE
    decreases |bytes|
  {
    if bytes == [] then []
    else if |bytes| <= SLICE then [bytes]
    else [bytes[..SLICE]] + Slices(bytes[SLICE..])
  }

  function SlicesOf(piece: Piece, bytes: Bytes): seq<Slice> {
    var slices := Slices(bytes);
    seq(|slices|, i requires 0 <= i < |slices| => Slice(piece, slices[i]))
  }

  /** What arrives of a piece, put together. */
  function Received(sent: seq<Slice>, piece: Piece): Bytes {
    if sent == [] then []
    else (if sent[0].piece == piece then sent[0].bytes else []) + Received(sent[1..], piece)
  }

  lemma {:induction false} ReceivedConcat(a: seq<Slice>, b: seq<Slice>, piece: Piece)
    ensures Received(a + b, piece) == Received(a, piece) + Received(b, piece)
    decreases |a|
  {
    if a == [] {
      assert a + b == b;
    } else {
      ReceivedConcat(a[1..], b, piece);
      assert (a + b)[0] == a[0] && (a + b)[1..] == a[1..] + b;
      BytesConcat(if a[0].piece == piece then a[0].bytes else [], Received(a[1..], piece), Received(b, piece));
    }
  }

  lemma BytesConcat(a: Bytes, b: Bytes, c: Bytes)
    ensures a + (b + c) == a + b + c
  {
  }

  lemma SlicesNext(piece: Piece, bytes: Bytes)
    requires |bytes| > SLICE
    ensures SlicesOf(piece, bytes) == [Slice(piece, bytes[..SLICE])] + SlicesOf(piece, bytes[SLICE..])
  {
  }

  lemma SlicesLast(piece: Piece, bytes: Bytes)
    requires 0 < |bytes| <= SLICE
    ensures SlicesOf(piece, bytes) == [Slice(piece, bytes)]
  {
  }

  /** The slices of a piece are its bytes, and nothing of another. */
  lemma {:induction false} SlicesAreThePiece(piece: Piece, bytes: Bytes, other: Piece)
    ensures Received(SlicesOf(piece, bytes), other) == if other == piece then bytes else []
    decreases |bytes|
  {
    if |bytes| > SLICE {
      SlicesNext(piece, bytes);
      SlicesAreThePiece(piece, bytes[SLICE..], other);
      var rest := SlicesOf(piece, bytes[SLICE..]);
      assert SlicesOf(piece, bytes)[1..] == rest;
      assert bytes == bytes[..SLICE] + bytes[SLICE..];
    } else if bytes != [] {
      SlicesLast(piece, bytes);
      assert SlicesOf(piece, bytes)[1..] == [];
    }
  }

  function BytesOf(net: Net, segments: seq<Segment>, piece: Piece): Bytes
    requires piece.segment < |segments|
  {
    var bytes := if piece.Data? then DataOf(net, segments[piece.segment])
                 else if segments[piece.segment].map_.Some? then InitOf(net, segments[piece.segment].map_.value)
                 else None;
    if bytes.Some? then bytes.value else []
  }

  predicate InTrack(segments: seq<Segment>, pieces: seq<Piece>) {
    forall i | 0 <= i < |pieces| :: pieces[i].segment < |segments|
  }

  function SlicesOfAll(net: Net, segments: seq<Segment>, pieces: seq<Piece>): seq<Slice>
    requires InTrack(segments, pieces)
  {
    if pieces == [] then
      []
    else
      var last := pieces[|pieces| - 1];
      SlicesOfAll(net, segments, pieces[..|pieces| - 1]) + SlicesOf(last, BytesOf(net, segments, last))
  }

  lemma SlicesOfMore(net: Net, segments: seq<Segment>, pieces: seq<Piece>, piece: Piece)
    requires InTrack(segments, pieces) && piece.segment < |segments|
    ensures InTrack(segments, pieces + [piece])
    ensures SlicesOfAll(net, segments, pieces + [piece])
         == SlicesOfAll(net, segments, pieces) + SlicesOf(piece, BytesOf(net, segments, piece))
  {
    assert (pieces + [piece])[..|pieces|] == pieces;
  }

  lemma {:induction false} AllArrive(net: Net, segments: seq<Segment>, pieces: seq<Piece>, piece: Piece)
    requires InTrack(segments, pieces) && piece.segment < |segments|
    requires forall i, j | 0 <= i < j < |pieces| :: pieces[i] != pieces[j]
    ensures Received(SlicesOfAll(net, segments, pieces), piece) == if piece in pieces then BytesOf(net, segments, piece) else []
    decreases |pieces|
  {
    hide Received, SlicesOf, BytesOf, SlicesOfAll;
    if pieces == [] {
      NothingArrives(net, segments, piece);
    } else {
      var n := |pieces| - 1;
      var rest, last := pieces[..n], pieces[n];
      assert pieces == rest + [last];
      AllArrive(net, segments, rest, piece);
      SlicesOfMore(net, segments, rest, last);
      ReceivedConcat(SlicesOfAll(net, segments, rest), SlicesOf(last, BytesOf(net, segments, last)), piece);
      SlicesAreThePiece(last, BytesOf(net, segments, last), piece);
      if piece == last {
        assert piece !in rest;
      }
    }
  }

  lemma NothingArrives(net: Net, segments: seq<Segment>, piece: Piece)
    ensures Received(SlicesOfAll(net, segments, []), piece) == []
  {
  }

  lemma PiecesInTrack(segments: seq<Segment>, n: nat)
    requires n <= |segments|
    ensures InTrack(segments, Pieces(segments, n))
  {
    forall i | 0 <= i < |Pieces(segments, n)|
      ensures Pieces(segments, n)[i].segment < |segments|
    {
      assert Pieces(segments, n)[i] in Pieces(segments, n);
      PieceIsHandedOver(segments, n, Pieces(segments, n)[i]);
    }
  }

  /** All messages for the first `n` segments. */
  function Offered(net: Net, segments: seq<Segment>, n: nat): seq<Slice>
    requires n <= |segments|
  {
    PiecesInTrack(segments, n);
    SlicesOfAll(net, segments, Pieces(segments, n))
  }

  function InitSlices(net: Net, segments: seq<Segment>, n: nat): seq<Slice>
    requires n < |segments|
  {
    if Changes(segments, n) then SlicesOf(InitPiece(segments, n), BytesOf(net, segments, InitPiece(segments, n))) else []
  }

  function DataSlices(net: Net, segments: seq<Segment>, n: nat): seq<Slice>
    requires n < |segments|
  {
    SlicesOf(DataPiece(segments, n), BytesOf(net, segments, DataPiece(segments, n)))
  }

  lemma OfferedNext(net: Net, segments: seq<Segment>, n: nat)
    requires n < |segments|
    ensures Offered(net, segments, n + 1)
         == Offered(net, segments, n) + InitSlices(net, segments, n) + DataSlices(net, segments, n)
  {
    hide SlicesOf, BytesOf, Changes, PartOf;
    PiecesInTrack(segments, n);
    PiecesInTrack(segments, n + 1);
    var before := Pieces(segments, n);
    var given := before + if Changes(segments, n) then [InitPiece(segments, n)] else [];
    assert Pieces(segments, n + 1) == given + [DataPiece(segments, n)];
    if Changes(segments, n) {
      SlicesOfMore(net, segments, before, InitPiece(segments, n));
    } else {
      assert given == before;
    }
    SlicesOfMore(net, segments, given, DataPiece(segments, n));
  }

  /** Once all messages for the first `n` segments are there, so is every piece of them. */
  lemma OfferedIsWhole(net: Net, segments: seq<Segment>, n: nat, piece: Piece)
    requires n <= |segments| && piece in Pieces(segments, n)
    ensures piece.segment < |segments| && Received(Offered(net, segments, n), piece) == BytesOf(net, segments, piece)
  {
    PiecesInTrack(segments, n);
    PiecesDiffer(segments, n);
    PieceIsHandedOver(segments, n, piece);
    AllArrive(net, segments, Pieces(segments, n), piece);
  }

  // ---------------------------------------------------------------- what happens to a track

  datatype Trace = Started(segment: nat) | Awaited(segment: nat) | Sent(slice: Slice)

  function CountStarted(trace: seq<Trace>): nat {
    if trace == [] then 0 else CountStarted(trace[..|trace| - 1]) + if trace[|trace| - 1].Started? then 1 else 0
  }

  function CountAwaited(trace: seq<Trace>): nat {
    if trace == [] then 0 else CountAwaited(trace[..|trace| - 1]) + if trace[|trace| - 1].Awaited? then 1 else 0
  }

  function SentIn(trace: seq<Trace>): seq<Slice> {
    if trace == [] then []
    else SentIn(trace[..|trace| - 1]) + if trace[|trace| - 1].Sent? then [trace[|trace| - 1].slice] else []
  }

  /**
   What may come next: the fetch of the next segment, unless as many are out as may be; the arrival
   of the oldest that is out; or something of the segment that arrived last.
   */
  predicate MayFollow(trace: seq<Trace>, t: Trace) {
    match t
    case Started(n) => n == CountStarted(trace) < CountAwaited(trace) + IN_FLIGHT
    case Awaited(n) => n == CountAwaited(trace) < CountStarted(trace)
    case Sent(slice) => slice.piece.segment + 1 == CountAwaited(trace)
  }

  ghost predicate Orderly(trace: seq<Trace>) {
    forall k | 0 <= k < |trace| :: MayFollow(trace[..k], trace[k])
  }

  lemma TraceOne(trace: seq<Trace>, t: Trace)
    ensures CountStarted(trace + [t]) == CountStarted(trace) + if t.Started? then 1 else 0
    ensures CountAwaited(trace + [t]) == CountAwaited(trace) + if t.Awaited? then 1 else 0
    ensures SentIn(trace + [t]) == if t.Sent? then SentIn(trace) + [t.slice] else SentIn(trace)
  {
    assert (trace + [t])[..|trace|] == trace;
  }

  lemma GoesOn(trace: seq<Trace>, t: Trace)
    requires Orderly(trace) && MayFollow(trace, t)
    ensures Orderly(trace + [t])
  {
    hide MayFollow;
    forall k | 0 <= k < |trace + [t]|
      ensures MayFollow((trace + [t])[..k], (trace + [t])[k])
    {
      if k < |trace| {
        assert (trace + [t])[..k] == trace[..k];
      } else {
        assert (trace + [t])[..k] == trace;
      }
    }
  }

  lemma OrderlyBefore(trace: seq<Trace>, k: nat)
    requires Orderly(trace) && k <= |trace|
    ensures Orderly(trace[..k])
  {
    forall i | 0 <= i < k
      ensures MayFollow(trace[..k][..i], trace[..k][i])
    {
      assert trace[..k][..i] == trace[..i];
    }
  }

  /** At no time are more segment fetches out than may be. */
  lemma {:induction false} FewInFlight(trace: seq<Trace>, k: nat)
    requires Orderly(trace) && k <= |trace|
    ensures 0 <= CountStarted(trace[..k]) - CountAwaited(trace[..k]) <= 2
  {
    if k > 0 {
      FewInFlight(trace, k - 1);
      assert trace[..k] == trace[..k - 1] + [trace[k - 1]];
      TraceOne(trace[..k - 1], trace[k - 1]);
      assert MayFollow(trace[..k - 1], trace[k - 1]);
    }
  }

  lemma OrderlyLast(trace: seq<Trace>)
    requires Orderly(trace) && trace != []
    ensures var rest, t := trace[..|trace| - 1], trace[|trace| - 1];
            && trace == rest + [t] && Orderly(rest) && MayFollow(rest, t)
            && CountStarted(trace) == CountStarted(rest) + (if t.Started? then 1 else 0)
            && CountAwaited(trace) == CountAwaited(rest) + (if t.Awaited? then 1 else 0)
  {
    OrderlyBefore(trace, |trace| - 1);
    assert MayFollow(trace[..|trace| - 1], trace[|trace| - 1]);
  }

  /** Where the fetch of segment `n` starts: there is one place, and it is the `n`th start. */
  lemma {:induction false} StartedOnce(trace: seq<Trace>, n: nat) returns (at: nat)
    requires Orderly(trace) && n < CountStarted(trace)
    ensures at < |trace| && trace[at] == Started(n) && CountStarted(trace[..at]) == n
    ensures forall k | 0 <= k < |trace| && trace[k] == Started(n) :: k == at
    decreases |trace|
  {
    hide Orderly, CountStarted, CountAwaited;
    NoStartsYet();
    OrderlyLast(trace);
    var m := |trace| - 1;
    var rest := trace[..m];
    assert forall k | 0 <= k < m :: rest[k] == trace[k];
    NoneAbove(rest);
    if trace[m] == Started(n) {
      at := m;
    } else {
      at := StartedOnce(rest, n);
      assert rest[..at] == trace[..at];
    }
  }

  lemma NoStartsYet()
    ensures CountStarted([]) == 0 && CountAwaited([]) == 0
  {
  }

  lemma {:induction false} AwaitedOnce(trace: seq<Trace>, n: nat) returns (at: nat)
    requires Orderly(trace) && n < CountAwaited(trace)
    ensures at < |trace| && trace[at] == Awaited(n) && n < CountStarted(trace[..at])
    ensures forall k | 0 <= k < |trace| && trace[k] == Awaited(n) :: k == at
    decreases |trace|
  {
    hide Orderly, CountStarted, CountAwaited;
    NoStartsYet();
    OrderlyLast(trace);
    var m := |trace| - 1;
    var rest := trace[..m];
    assert forall k | 0 <= k < m :: rest[k] == trace[k];
    NoneAbove(rest);
    if trace[m] == Awaited(n) {
      at := m;
    } else {
      at := AwaitedOnce(rest, n);
      assert rest[..at] == trace[..at];
    }
  }

  lemma {:induction false} NoneAbove(trace: seq<Trace>)
    requires Orderly(trace)
    ensures forall k | 0 <= k < |trace| && trace[k].Started? :: trace[k].segment < CountStarted(trace)
    ensures forall k | 0 <= k < |trace| && trace[k].Awaited? :: trace[k].segment < CountAwaited(trace)
    decreases |trace|
  {
    hide Orderly, CountStarted, CountAwaited;
    if trace != [] {
      OrderlyLast(trace);
      var m := |trace| - 1;
      var rest := trace[..m];
      NoneAbove(rest);
      assert forall k | 0 <= k < m :: rest[k] == trace[k];
    }
  }

  /**
   Whatever is sent of a segment is sent after its one arrival, and that comes after the one start of
   its fetch; segments start and arrive in order.
   */
  lemma FetchedBeforeSent(trace: seq<Trace>, k: nat) returns (started: nat, awaited: nat)
    requires Orderly(trace) && k < |trace| && trace[k].Sent?
    ensures started < awaited < k
    ensures trace[started] == Started(trace[k].slice.piece.segment) && trace[awaited] == Awaited(trace[k].slice.piece.segment)
    ensures forall i | 0 <= i < |trace| && trace[i] == trace[started] :: i == started
    ensures forall i | 0 <= i < |trace| && trace[i] == trace[awaited] :: i == awaited
    ensures CountStarted(trace[..started]) == trace[started].segment
  {
    var n := trace[k].slice.piece.segment;
    assert MayFollow(trace[..k], trace[k]);
    CountsGrow(trace, k);
    awaited := AwaitedOnce(trace, n);
    OrderlyBefore(trace, k);
    var at := AwaitedOnce(trace[..k], n);
    assert trace[..k][at] == trace[at];
    CountsGrow(trace, awaited);
    started := StartedOnce(trace, n);
    OrderlyBefore(trace, awaited);
    var from := StartedOnce(trace[..awaited], n);
    assert trace[..awaited][from] == trace[from];
  }

  lemma {:induction false} CountsGrow(trace: seq<Trace>, k: nat)
    requires k <= |trace|
    ensures CountStarted(trace[..k]) <= CountStarted(trace) && CountAwaited(trace[..k]) <= CountAwaited(trace)
    decreases |trace|
  {
    if k < |trace| {
      var m := |trace| - 1;
      CountsGrow(trace[..m], k);
      assert trace[..m][..k] == trace[..k];
    } else {
      assert trace[..k] == trace;
    }
  }

  // ---------------------------------------------------------------- handing over

  /** The background took each of the first `n` slices; `takes` says which it does. */
  ghost predicate AllTaken(takes: nat -> bool, n: nat) {
    forall k: nat | k < n :: takes(k)
  }

  /** `slices` were sent after `trace`: all of them, or those up to the first that was refused. */
  ghost predicate HandsOver(takes: nat -> bool, slices: seq<Slice>, refused: bool, trace: seq<Trace>, trace': seq<Trace>) {
    && Orderly(trace')
    && CountStarted(trace') == CountStarted(trace) && CountAwaited(trace') == CountAwaited(trace)
    && if refused then
         && SentIn(trace) < SentIn(trace') <= SentIn(trace) + slices
         && AllTaken(takes, |SentIn(trace')| - 1) && !takes(|SentIn(trace')| - 1)
       else
         SentIn(trace') == SentIn(trace) + slices && AllTaken(takes, |SentIn(trace')|)
  }

  lemma NoneHandedOver(takes: nat -> bool, trace: seq<Trace>)
    requires Orderly(trace) && AllTaken(takes, |SentIn(trace)|)
    ensures HandsOver(takes, [], false, trace, trace)
  {
  }

  lemma OneMoreTaken(takes: nat -> bool, n: nat)
    requires AllTaken(takes, n)
    ensures takes(n) ==> AllTaken(takes, n + 1)
  {
  }

  /** One more slice is sent, and the answer to it. */
  lemma OneHandedOver(takes: nat -> bool, before: seq<Slice>, trace: seq<Trace>, mid: seq<Trace>, slice: Slice)
    requires HandsOver(takes, before, false, trace, mid) && slice.piece.segment + 1 == CountAwaited(mid)
    ensures HandsOver(takes, before + [slice], !takes(|SentIn(mid)|), trace, mid + [Sent(slice)])
  {
    hide Orderly, CountStarted, CountAwaited, SentIn, AllTaken;
    GoesOn(mid, Sent(slice));
    TraceOne(mid, Sent(slice));
    OneMoreTaken(takes, |SentIn(mid)|);
  }

  lemma RefusedIsEnough(takes: nat -> bool, before: seq<Slice>, after: seq<Slice>, trace: seq<Trace>, trace': seq<Trace>)
    requires HandsOver(takes, before, true, trace, trace')
    ensures HandsOver(takes, before + after, true, trace, trace')
  {
    hide Orderly, CountStarted, CountAwaited, SentIn, AllTaken;
    assert SentIn(trace) + before <= SentIn(trace) + (before + after);
  }

  lemma HandsOverBoth(takes: nat -> bool, a: seq<Slice>, b: seq<Slice>, refused: bool, trace: seq<Trace>, mid: seq<Trace>,
                      trace': seq<Trace>)
    requires HandsOver(takes, a, false, trace, mid) && HandsOver(takes, b, refused, mid, trace')
    ensures HandsOver(takes, a + b, refused, trace, trace')
  {
    hide Orderly, CountStarted, CountAwaited, SentIn, AllTaken;
    assert SentIn(trace) + (a + b) == SentIn(trace) + a + b;
    assert SentIn(trace) <= SentIn(mid);
  }

  /** The slices from byte `at` on. */
  function SlicesFrom(piece: Piece, bytes: Bytes, at: nat): seq<Slice> {
    if at >= |bytes| then [] else SlicesOf(piece, bytes[at..])
  }

  lemma SlicesFromNext(piece: Piece, bytes: Bytes, at: nat)
    requires at < |bytes|
    ensures SlicesFrom(piece, bytes, at)
         == [Slice(piece, bytes[at..Min(at + SLICE, |bytes|)])] + SlicesFrom(piece, bytes, at + SLICE)
  {
    var rest := bytes[at..];
    if |rest| > SLICE {
      SlicesNext(piece, rest);
      assert rest[..SLICE] == bytes[at..at + SLICE] && rest[SLICE..] == bytes[at + SLICE..];
    } else {
      SlicesLast(piece, rest);
      assert bytes[at..|bytes|] == rest && SlicesFrom(piece, bytes, at + SLICE) == [];
    }
  }

  lemma SlicesFromStart(piece: Piece, bytes: Bytes)
    ensures SlicesFrom(piece, bytes, 0) == SlicesOf(piece, bytes)
  {
    assert bytes[0..] == bytes;
    if bytes == [] {
      assert |SlicesOf(piece, bytes)| == |Slices(bytes)| == 0;
    }
  }

  /** Cuts bytes into slices of at most `SLICE` and hands them over one after the other, until one is refused. */
  method Deliver(takes: nat -> bool, piece: Piece, bytes: Bytes, trace: seq<Trace>) returns (refused: bool, trace': seq<Trace>)
    requires Orderly(trace) && AllTaken(takes, |SentIn(trace)|) && piece.segment + 1 == CountAwaited(trace)
    ensures HandsOver(takes, SlicesOf(piece, bytes), refused, trace, trace')
  {
    hide Orderly, AllTaken, CountStarted, SlicesOf, SlicesFrom, HandsOver;
    SlicesFromStart(piece, bytes);
    NoneHandedOver(takes, trace);
    refused, trace' := false, trace;
    var at: nat := 0;
    ghost var sent: seq<Slice> := [];
    while at < |bytes|
      invariant sent + SlicesFrom(piece, bytes, at) == SlicesOf(piece, bytes)
      invariant HandsOver(takes, sent, false, trace, trace')
    {
      SlicesFromNext(piece, bytes, at);
      var slice := Slice(piece, bytes[at..Min(at + SLICE, |bytes|)]);
      StaysAwaited(takes, sent, trace, trace');
      OneHandedOver(takes, sent, trace, trace', slice);
      SlicesConcat(sent, [slice], SlicesFrom(piece, bytes, at + SLICE));
      refused := !takes(|SentIn(trace')|);
      trace' := trace' + [Sent(slice)];
      sent := sent + [slice];
      if refused {
        RefusedIsEnough(takes, sent, SlicesFrom(piece, bytes, at + SLICE), trace, trace');
        return;
      }
      at := at + SLICE;
    }
    NothingFrom(piece, bytes, at);
    assert sent + [] == sent;
  }

  lemma SlicesConcat(a: seq<Slice>, b: seq<Slice>, c: seq<Slice>)
    ensures a + (b + c) == a + b + c
  {
  }

  lemma StaysAwaited(takes: nat -> bool, sent: seq<Slice>, trace: seq<Trace>, trace': seq<Trace>)
    requires HandsOver(takes, sent, false, trace, trace')
    ensures CountAwaited(trace') == CountAwaited(trace) && CountStarted(trace') == CountStarted(trace)
    ensures Orderly(trace') && AllTaken(takes, |SentIn(trace')|) && SentIn(trace') == SentIn(trace) + sent
  {
  }

  lemma NothingFrom(piece: Piece, bytes: Bytes, at: nat)
    requires at >= |bytes|
    ensures SlicesFrom(piece, bytes, at) == []
  {
  }

  // ---------------------------------------------------------------- the loop

  /** Segment `n` can be had, and so can its init section if it is not in force already. */
  predicate Comes(net: Net, segments: seq<Segment>, n: nat)
    requires n < |segments|
  {
    DataOf(net, segments[n]).Some? && (Changes(segments, n) ==> InitOf(net, segments[n].map_.value).Some?)
  }

  /** The first `n` segments come. */
  ghost predicate AllCome(net: Net, segments: seq<Segment>, n: nat)
    requires n <= |segments|
  {
    forall k | 0 <= k < n :: Comes(net, segments, k)
  }

  /** The loop's variables, with what has happened. */
  datatype Loop = Loop(loading: seq<nat>, init: Option<MapRef>, part: nat, trace: seq<Trace>)

  datatype Stop = Finished | Missing | Declined

  /** The fetches out when `done` segments have arrived: the next few. */
  function Upcoming(done: nat, total: nat): seq<nat>
    requires done <= total
  {
    seq(Min(IN_FLIGHT, total - done), k => done + k)
  }

  ghost predicate Fetching(segments: seq<Segment>, arrived: nat, loading: seq<nat>, trace: seq<Trace>)
    requires arrived <= |segments|
  {
    && Orderly(trace) && loading == Upcoming(arrived, |segments|)
    && CountAwaited(trace) == arrived && CountStarted(trace) == arrived + |loading|
  }

  /** `init` is the section handed over last, and `part` the part it began. */
  ghost predicate InForce(segments: seq<Segment>, done: nat, init: Option<MapRef>, part: nat)
    requires done <= |segments|
  {
    init == GivenBefore(segments, done) && part == PartOf(segments, done)
  }

  /** The first `done` segments are handed over, with all their slices taken. */
  ghost predicate AllHanded(net: Net, takes: nat -> bool, segments: seq<Segment>, done: nat, trace: seq<Trace>)
    requires done <= |segments|
  {
    && AllCome(net, segments, done)
    && SentIn(trace) == Offered(net, segments, done) && AllTaken(takes, |SentIn(trace)|)
  }

  ghost predicate UnderWay(net: Net, takes: nat -> bool, segments: seq<Segment>, done: nat, l: Loop)
    requires done <= |segments|
  {
    Fetching(segments, done, l.loading, l.trace) && InForce(segments, done, l.init, l.part)
    && AllHanded(net, takes, segments, done, l.trace)
  }

  /**
   Why the loop ends after `done` segments, and what was sent till then: all; or all before a segment
   that does not come; or all before a segment that does, and of that one all up to a refused slice.
   */
  ghost predicate StopsFor(net: Net, takes: nat -> bool, segments: seq<Segment>, done: nat, stop: Stop, trace: seq<Trace>)
    requires done <= |segments|
  {
    && Orderly(trace) && CountAwaited(trace) == Min(done + 1, |segments|)
    && AllCome(net, segments, done)
    && match stop
       case Finished => done == |segments| && AllHanded(net, takes, segments, done, trace)
       case Missing => done < |segments| && !Comes(net, segments, done) && AllHanded(net, takes, segments, done, trace)
       case Declined =>
         && done < |segments| && Comes(net, segments, done)
         && Offered(net, segments, done) < SentIn(trace) <= Offered(net, segments, done + 1)
         && AllTaken(takes, |SentIn(trace)| - 1) && !takes(|SentIn(trace)| - 1)
  }

  lemma UpcomingNext(done: nat, total: nat)
    requires done < total
    ensures |Upcoming(done, total)| > 0 && Upcoming(done, total)[0] == done
    ensures |Upcoming(done, total)| <= IN_FLIGHT
    ensures Upcoming(done + 1, total)
         == if done + IN_FLIGHT < total then Upcoming(done, total)[1..] + [done + IN_FLIGHT] else Upcoming(done, total)[1..]
    ensures done + IN_FLIGHT < total ==> |Upcoming(done, total)| == IN_FLIGHT
  {
  }

  /** Starts the first fetches. */
  method StartLoading(segments: seq<Segment>) returns (loading: seq<nat>, trace: seq<Trace>)
    ensures Fetching(segments, 0, loading, trace) && SentIn(trace) == []
  {
    hide Orderly, CountStarted, CountAwaited, SentIn, Upcoming;
    NothingHappened();
    loading, trace := [], [];
    while |loading| < IN_FLIGHT && |loading| < |segments|
      invariant |loading| <= IN_FLIGHT && |loading| <= |segments|
      invariant forall k | 0 <= k < |loading| :: loading[k] == k
      invariant Orderly(trace) && SentIn(trace) == []
      invariant CountAwaited(trace) == 0 && CountStarted(trace) == |loading|
    {
      GoesOn(trace, Started(|loading|));
      TraceOne(trace, Started(|loading|));
      trace := trace + [Started(|loading|)];
      loading := loading + [|loading|];
    }
    FirstUpcoming(loading, |segments|);
  }

  lemma NothingHappened()
    ensures Orderly([]) && SentIn([]) == [] && CountAwaited([]) == 0 && CountStarted([]) == 0
  {
  }

  lemma FirstUpcoming(loading: seq<nat>, total: nat)
    requires |loading| == Min(IN_FLIGHT, total) && forall k | 0 <= k < |loading| :: loading[k] == k
    ensures loading == Upcoming(0, total)
  {
  }

  /** Waits for the oldest fetch, and unless it failed starts one more. */
  method AwaitNext(net: Net, segments: seq<Segment>, done: nat, loading: seq<nat>, trace: seq<Trace>)
    returns (data: Option<Bytes>, loading': seq<nat>, trace': seq<Trace>)
    requires done < |segments| && Fetching(segments, done, loading, trace)
    ensures data == DataOf(net, segments[done]) && SentIn(trace') == SentIn(trace)
    ensures Orderly(trace') && CountAwaited(trace') == done + 1
    ensures data.Some? ==> Fetching(segments, done + 1, loading', trace')
  {
    hide Orderly, CountStarted, CountAwaited, SentIn, Upcoming, DataOf;
    UpcomingNext(done, |segments|);
    data := FetchSegment(net, segments[loading[0]]);
    GoesOn(trace, Awaited(done));
    TraceOne(trace, Awaited(done));
    trace' := trace + [Awaited(done)];
    loading' := loading[1..];
    if data.Some? && done + IN_FLIGHT < |segments| {
      GoesOn(trace', Started(done + IN_FLIGHT));
      TraceOne(trace', Started(done + IN_FLIGHT));
      trace' := trace' + [Started(done + IN_FLIGHT)];
      loading' := loading' + [done + IN_FLIGHT];
    }
  }

  /** Hands over a segment's init section when it is not the one in force. */
  method HandInit(net: Net, takes: nat -> bool, segments: seq<Segment>, n: nat, init: Option<MapRef>, part: nat, trace: seq<Trace>)
    returns (stop: Option<Stop>, init': Option<MapRef>, part': nat, trace': seq<Trace>)
    requires n < |segments| && InForce(segments, n, init, part)
    requires Orderly(trace) && CountAwaited(trace) == n + 1 && AllTaken(takes, |SentIn(trace)|)
    ensures stop == Some(Missing) <==> Changes(segments, n) && InitOf(net, segments[n].map_.value).None?
    ensures stop == Some(Missing) ==> trace' == trace
    ensures stop != Some(Finished)
    ensures stop != Some(Missing) ==> HandsOver(takes, InitSlices(net, segments, n), stop.Some?, trace, trace')
    ensures stop.None? ==> InForce(segments, n + 1, init', part')
  {
    hide Orderly, AllTaken, CountStarted, CountAwaited, SentIn, SlicesOf, HandsOver, InitOf, GivenBefore, PartOf, Changes, SameInit,
         InitSlices;
    stop, init', part', trace' := None, init, part, trace;
    var m := segments[n].map_;
    ChangesMeans(segments, n);
    InForceNext(segments, n);
    InitSlicesAre(net, segments, n);
    if m.Some? && !(init.Some? && SameInit(init.value, m.value)) {
      var bytes := InitOf(net, m.value);
      if bytes.None? {
        stop := Some(Missing);
        return;
      }
      if init.Some? {
        part' := Min(part + 1, MAX_PART);
      }
      init' := m;
      var refused;
      refused, trace' := Deliver(takes, Init(n, part'), bytes.value, trace);
      stop := if refused then Some(Declined) else None;
    } else {
      NoneHandedOver(takes, trace);
    }
  }

  /** The loop tells a change by the section handed over last. */
  lemma ChangesMeans(segments: seq<Segment>, n: nat)
    requires n < |segments|
    ensures Changes(segments, n) <==>
              && segments[n].map_.Some?
              && !(GivenBefore(segments, n).Some? && SameInit(GivenBefore(segments, n).value, segments[n].map_.value))
  {
    GivenIsInForce(segments, n);
  }

  lemma InForceNext(segments: seq<Segment>, n: nat)
    requires n < |segments|
    ensures GivenBefore(segments, n + 1) == if Changes(segments, n) then segments[n].map_ else GivenBefore(segments, n)
    ensures PartOf(segments, n + 1) == if Changes(segments, n) && GivenBefore(segments, n).Some?
                                       then Min(PartOf(segments, n) + 1, MAX_PART) else PartOf(segments, n)
  {
    GivenIsInForce(segments, n);
  }

  lemma InitSlicesAre(net: Net, segments: seq<Segment>, n: nat)
    requires n < |segments|
    ensures InitSlices(net, segments, n)
         == if !Changes(segments, n) then []
            else SlicesOf(Init(n, PartOf(segments, n + 1)),
                          if InitOf(net, segments[n].map_.value).Some? then InitOf(net, segments[n].map_.value).value else [])
  {
  }

  lemma DataSlicesAre(net: Net, segments: seq<Segment>, n: nat)
    requires n < |segments| && DataOf(net, segments[n]).Some?
    ensures DataSlices(net, segments, n) == SlicesOf(Data(n, PartOf(segments, n + 1)), DataOf(net, segments[n]).value)
  {
  }

  lemma ComesMeans(net: Net, segments: seq<Segment>, n: nat)
    requires n < |segments|
    ensures Changes(segments, n) ==> segments[n].map_.Some?
    ensures Comes(net, segments, n) <==>
            DataOf(net, segments[n]).Some? && !(Changes(segments, n) && InitOf(net, segments[n].map_.value).None?)
  {
  }

  /** Nothing is sent while waiting. */
  lemma StillHanded(net: Net, takes: nat -> bool, segments: seq<Segment>, done: nat, trace: seq<Trace>, trace': seq<Trace>)
    requires done <= |segments| && AllHanded(net, takes, segments, done, trace) && SentIn(trace') == SentIn(trace)
    ensures AllHanded(net, takes, segments, done, trace') && AllTaken(takes, |SentIn(trace')|)
  {
  }

  lemma MissingStops(net: Net, takes: nat -> bool, segments: seq<Segment>, done: nat, trace: seq<Trace>)
    requires done < |segments| && Orderly(trace) && CountAwaited(trace) == done + 1
    requires AllHanded(net, takes, segments, done, trace) && !Comes(net, segments, done)
    ensures StopsFor(net, takes, segments, done, Missing, trace)
  {
    hide Orderly, CountAwaited, Comes, Offered, SentIn, AllTaken;
  }

  lemma RefusedStops(net: Net, takes: nat -> bool, segments: seq<Segment>, done: nat, sent: seq<Slice>, trace: seq<Trace>, trace': seq<Trace>)
    requires done < |segments| && CountAwaited(trace) == done + 1
    requires AllHanded(net, takes, segments, done, trace) && Comes(net, segments, done)
    requires HandsOver(takes, sent, true, trace, trace')
    requires sent <= InitSlices(net, segments, done) + DataSlices(net, segments, done)
    ensures StopsFor(net, takes, segments, done, Declined, trace')
  {
    hide Orderly, CountAwaited, CountStarted, Comes, Offered, SentIn, AllTaken, InitSlices, DataSlices;
    OfferedNext(net, segments, done);
    var all := InitSlices(net, segments, done) + DataSlices(net, segments, done);
    assert Offered(net, segments, done + 1) == Offered(net, segments, done) + all;
    PrefixOfSum(Offered(net, segments, done), sent, all);
  }

  lemma PrefixOfSum(a: seq<Slice>, b: seq<Slice>, c: seq<Slice>)
    requires b <= c
    ensures a + b <= a + c
  {
  }

  lemma SegmentHanded(net: Net, takes: nat -> bool, segments: seq<Segment>, done: nat, trace: seq<Trace>, trace': seq<Trace>)
    requires done < |segments| && AllHanded(net, takes, segments, done, trace) && Comes(net, segments, done)
    requires HandsOver(takes, InitSlices(net, segments, done) + DataSlices(net, segments, done), false, trace, trace')
    ensures AllHanded(net, takes, segments, done + 1, trace')
  {
    hide Orderly, CountAwaited, CountStarted, Comes, Offered, SentIn, AllTaken, InitSlices, DataSlices;
    OfferedNext(net, segments, done);
  }

  lemma StillFetching(takes: nat -> bool, segments: seq<Segment>, arrived: nat, loading: seq<nat>, sent: seq<Slice>,
                      trace: seq<Trace>, trace': seq<Trace>)
    requires arrived <= |segments| && Fetching(segments, arrived, loading, trace)
    requires HandsOver(takes, sent, false, trace, trace')
    ensures Fetching(segments, arrived, loading, trace')
  {
  }

  /** One turn of the loop: the next segment arrives and is handed over, or the loop ends. */
  method NextSegment(net: Net, takes: nat -> bool, segments: seq<Segment>, done: nat, l: Loop)
    returns (stop: Option<Stop>, l': Loop)
    requires done < |segments| && UnderWay(net, takes, segments, done, l)
    ensures stop.None? ==> UnderWay(net, takes, segments, done + 1, l')
    ensures stop.Some? ==> stop != Some(Finished) && StopsFor(net, takes, segments, done, stop.value, l'.trace)
  {
    hide Fetching, InForce, AllHanded, StopsFor, HandsOver, Orderly, CountStarted, CountAwaited, SentIn, AllTaken, DataOf, InitOf,
         Comes, Changes, InitSlices, DataSlices, SlicesOf, PartOf;
    ghost var init, data := InitSlices(net, segments, done), DataSlices(net, segments, done);
    ComesMeans(net, segments, done);
    var bytes, loading, trace := AwaitNext(net, segments, done, l.loading, l.trace);
    StillHanded(net, takes, segments, done, l.trace, trace);
    l' := l.(loading := loading, trace := trace);
    if bytes.None? {
      MissingStops(net, takes, segments, done, trace);
      return Some(Missing), l';
    }
    var ended, map_, part, told := HandInit(net, takes, segments, done, l.init, l.part, trace);
    l' := Loop(loading, map_, part, told);
    if ended == Some(Missing) {
      MissingStops(net, takes, segments, done, trace);
      return ended, l';
    }
    if ended.Some? {
      assert ended.value.Declined?;
      RefusedStops(net, takes, segments, done, init, trace, told);
      return ended, l';
    }
    StaysAwaited(takes, init, trace, told);
    PartIs(segments, done + 1, map_, part);
    DataSlicesAre(net, segments, done);
    var refused, trace' := Deliver(takes, Data(done, part), bytes.value, told);
    HandsOverBoth(takes, init, data, refused, trace, told, trace');
    l' := l'.(trace := trace');
    if refused {
      RefusedStops(net, takes, segments, done, init + data, trace, trace');
      return Some(Declined), l';
    }
    SegmentHanded(net, takes, segments, done, trace, trace');
    StillFetching(takes, segments, done + 1, loading, init + data, trace, trace');
    return None, l';
  }

  lemma PartIs(segments: seq<Segment>, n: nat, init: Option<MapRef>, part: nat)
    requires n <= |segments| && InForce(segments, n, init, part)
    ensures part == PartOf(segments, n)
  {
  }

  lemma NothingYet(net: Net, takes: nat -> bool, segments: seq<Segment>, loading: seq<nat>, trace: seq<Trace>)
    requires Fetching(segments, 0, loading, trace) && SentIn(trace) == []
    ensures UnderWay(net, takes, segments, 0, Loop(loading, None, 0, trace))
  {
    hide Orderly, CountStarted, CountAwaited;
    assert Pieces(segments, 0) == [];
  }

  lemma AllDone(net: Net, takes: nat -> bool, segments: seq<Segment>, l: Loop)
    requires UnderWay(net, takes, segments, |segments|, l)
    ensures StopsFor(net, takes, segments, |segments|, Finished, l.trace)
  {
  }

  /**
   Fetches a track's segments, at most `IN_FLIGHT` at a time, and hands them over in order, an init
   section before each that changes it, in slices of which `takes` says whether the background takes
   them. It stops at the first segment or changed init section that does not come, and at the first
   slice that is refused.
   */
  method DownloadTrack(net: Net, takes: nat -> bool, segments: seq<Segment>) returns (done: nat, stop: Stop, trace: seq<Trace>)
    ensures done <= |segments| && StopsFor(net, takes, segments, done, stop, trace)
  {
    hide UnderWay, StopsFor, Fetching, SentIn;
    var loading;
    loading, trace := StartLoading(segments);
    NothingYet(net, takes, segments, loading, trace);
    var l := Loop(loading, None, 0, trace);
    done := 0;
    while done < |segments|
      invariant done <= |segments| && UnderWay(net, takes, segments, done, l)
    {
      var ended;
      ended, l := NextSegment(net, takes, segments, done, l);
      if ended.Some? {
        return done, ended.value, l.trace;
      }
      done := done + 1;
    }
    AllDone(net, takes, segments, l);
    return done, Finished, l.trace;
  }

  lemma SentSoFar(net: Net, takes: nat -> bool, segments: seq<Segment>, done: nat, stop: Stop, trace: seq<Trace>)
    requires done <= |segments| && StopsFor(net, takes, segments, done, stop, trace)
    ensures Offered(net, segments, done) <= SentIn(trace) && AllCome(net, segments, done)
    ensures SentIn(trace) == Offered(net, segments, done)
         || (done < |segments| && SentIn(trace) <= Offered(net, segments, done + 1))
  {
    hide SentIn, Offered, Orderly, CountAwaited, Comes;
  }

  lemma CameAs(net: Net, segments: seq<Segment>, done: nat, n: nat)
    requires n < done <= |segments| && AllCome(net, segments, done)
    ensures DataOf(net, segments[n]) == Some(BytesOf(net, segments, DataPiece(segments, n)))
    ensures Changes(segments, n) ==>
              segments[n].map_.Some? && InitOf(net, segments[n].map_.value) == Some(BytesOf(net, segments, InitPiece(segments, n)))
  {
    hide DataOf, InitOf, PartOf;
    assert Comes(net, segments, n);
  }

  /** What a track's download leaves with the background: each piece of the segments it got through, whole. */
  lemma HandedIsWhole(net: Net, takes: nat -> bool, segments: seq<Segment>, done: nat, stop: Stop, trace: seq<Trace>, n: nat)
    requires done <= |segments| && StopsFor(net, takes, segments, done, stop, trace) && n < done
    ensures DataOf(net, segments[n]) == Some(Received(SentIn(trace), DataPiece(segments, n)))
    ensures Changes(segments, n) ==>
              segments[n].map_.Some? && InitOf(net, segments[n].map_.value) == Some(Received(SentIn(trace), InitPiece(segments, n)))
  {
    hide StopsFor, Received, SentIn, PartOf, AllCome, Offered, BytesOf, DataOf, InitOf, Changes;
    SentSoFar(net, takes, segments, done, stop, trace);
    CameAs(net, segments, done, n);
    ArrivesOnce(net, segments, done, SentIn(trace), DataPiece(segments, n));
    if Changes(segments, n) {
      ArrivesOnce(net, segments, done, SentIn(trace), InitPiece(segments, n));
    }
  }

  lemma WholeBy(net: Net, segments: seq<Segment>, n: nat, piece: Piece)
    requires n <= |segments| && piece.segment < n && piece.part == PartOf(segments, piece.segment + 1)
    requires piece.Init? ==> Changes(segments, piece.segment)
    ensures Received(Offered(net, segments, n), piece) == BytesOf(net, segments, piece)
  {
    hide Received, BytesOf, Changes, PartOf, Offered, Pieces;
    PieceIsHandedOver(segments, n, piece);
    OfferedIsWhole(net, segments, n, piece);
  }

  /** Slices of later segments add nothing to an earlier piece. */
  lemma ArrivesOnce(net: Net, segments: seq<Segment>, done: nat, sent: seq<Slice>, piece: Piece)
    requires done <= |segments| && piece.segment < done && piece.part == PartOf(segments, piece.segment + 1)
    requires piece.Init? ==> Changes(segments, piece.segment)
    requires Offered(net, segments, done) <= sent
    requires sent == Offered(net, segments, done) || (done < |segments| && sent <= Offered(net, segments, done + 1))
    ensures Received(sent, piece) == BytesOf(net, segments, piece)
  {
    hide Received, BytesOf, Changes, PartOf, Offered;
    WholeBy(net, segments, done, piece);
    if sent != Offered(net, segments, done) {
      WholeBy(net, segments, done + 1, piece);
      ReceivedBetween(Offered(net, segments, done), sent, Offered(net, segments, done + 1), piece);
    }
  }

  lemma ReceivedBetween(before: seq<Slice>, sent: seq<Slice>, all: seq<Slice>, piece: Piece)
    requires before <= sent <= all && Received(before, piece) == Received(all, piece)
    ensures Received(sent, piece) == Received(before, piece)
  {
    hide Received;
    var more, rest := sent[|before|..], all[|sent|..];
    assert sent == before + more && all == sent + rest;
    ReceivedConcat(before, more, piece);
    ReceivedConcat(sent, rest, piece);
    assert |Received(more, piece)| == 0 == |Received(rest, piece)|;
  }

  // ---------------------------------------------------------------- from the playlist to the bytes

  /** Line `at` names a segment of the stream. */
  predicate NamesSegment(lines: seq<Line>, at: nat) {
    at < |lines| && lines[at].Uri? && !NamesVariant(lines[..at])
  }

  /** An EXT-X-KEY's IV attribute, else the number of what is decrypted. */
  predicate SaysIv(line: Line, sequence: nat, iv: Bytes)
    requires line.Key?
  {
    if line.ivText.Some? then line.ivText == Some(Hex(iv)) else IsSequenceIv(iv, sequence)
  }

  /** `plain` is what was fetched, decrypted as the latest EXT-X-KEY of the lines says. */
  ghost predicate PlainBySaid(net: Net, lines: seq<Line>, sequence: nat, fetched: Option<Bytes>, plain: Option<Bytes>) {
    var at := LastOf(lines, IsKey);
    if fetched.None? || at.None? || lines[at.value].keyMethod == "NONE" then
      plain == fetched
    else
      var key := lines[at.value];
      && key.keyMethod == "AES-128" && key.keyUri.Some?
      && forall iv | SaysIv(key, sequence, iv) :: plain == net.decrypt(key.keyUri.value, iv, fetched.value)
  }

  /** The number of what is named after these lines: the latest one declared, and one for each segment since the start. */
  function NumberAfter(lines: seq<Line>): nat {
    var at := LastOf(lines, IsSequence);
    (if at.Some? then lines[at.value].number else 0) + CountSegments(lines)
  }

  lemma NumberIsDeclared(lines: seq<Line>)
    ensures NumberAfter(lines) == Declared(lines) + CountSegments(lines)
  {
  }

  /**
   What the segment line `at` gives, by what the lines before it say: of its address and range, under
   the latest key, and undisguised unless there was an EXT-X-MAP.
   */
  ghost predicate LineGives(net: Net, lines: seq<Line>, at: nat, data: Option<Bytes>)
    requires AllGood(lines) && NamesSegment(lines, at)
  {
    var before := lines[..at];
    exists plain ::
      && PlainBySaid(net, before, NumberAfter(before), net.fetch(lines[at].url, RangeNow(before)), plain)
      && Undisguised(plain, LastOf(before, IsMap).Some?, data)
  }

  /** What the EXT-X-MAP line `at` gives: of its address and range, under the key the lines before it say. */
  ghost predicate MapGives(net: Net, lines: seq<Line>, at: nat, init: Option<Bytes>) {
    && at < |lines| && lines[at].Map? && lines[at].mapUri.Some?
    && var text := lines[at].mapRange;
    && match text
       case None => PlainBySaid(net, lines[..at], NumberAfter(lines[..at]), net.fetch(lines[at].mapUri.value, None), init)
       case Some(None) => false
       case Some(Some(RangeText(length, offset))) =>
         var start := if offset.Some? then offset.value else 0;
         var range := Some(Range(start, start + length - 1));
         PlainBySaid(net, lines[..at], NumberAfter(lines[..at]), net.fetch(lines[at].mapUri.value, range), init)
  }

  lemma PlainAsSaid(net: Net, lines: seq<Line>, sequence: nat, fetched: Option<Bytes>, plain: Option<Bytes>)
    requires AllGood(lines) && IsPlain(net, KeyNow(lines), sequence, fetched, plain)
    ensures PlainBySaid(net, lines, sequence, fetched, plain)
  {
    var at := LastOf(lines, IsKey);
    if at.Some? && lines[at.value].keyMethod != "NONE" {
      assert !BadLine(lines[at.value]);
      forall iv | SaysIv(lines[at.value], sequence, iv)
        ensures IsIv(iv, KeyNow(lines).value, sequence)
      {
      }
    }
  }

  /** Each segment of a playlist gives what its line does. */
  lemma SegmentIsItsLine(net: Net, lines: seq<Line>, at: nat)
    requires AllGood(lines) && NamesSegment(lines, at)
    ensures CountSegments(lines[..at]) < |SegmentsOf(lines)|
    ensures LineGives(net, lines, at, DataOf(net, SegmentsOf(lines)[CountSegments(lines[..at])]))
    ensures AllGood(lines[..at]) && SegmentsOf(lines)[CountSegments(lines[..at])].map_ == MapNow(lines[..at])
  {
    hide LastOf, KeyNow, MapNow, RangeNow, Declared, IsPlain, PlainBySaid, Undisguised, DataOf;
    SegmentsInOrder(lines, at);
    var (before, s) := (lines[..at], SegmentsOf(lines)[CountSegments(lines[..at])]);
    var fetched := net.fetch(s.url, s.range);
    DataIsGiven(net, s);
    NumberIsDeclared(before);
    var plain :| IsPlain(net, s.key, s.sequence, fetched, plain) && Undisguised(plain, s.map_.Some?, DataOf(net, s));
    PlainAsSaid(net, before, NumberAfter(before), fetched, plain);
    MapIsSaid(before);
  }

  lemma MapIsSaid(lines: seq<Line>)
    requires AllGood(lines)
    ensures MapNow(lines).Some? <==> LastOf(lines, IsMap).Some?
  {
  }

  /** The init section in force after some lines is what the latest EXT-X-MAP of them gives. */
  lemma InitIsItsMap(net: Net, lines: seq<Line>)
    requires AllGood(lines)
    ensures var m := LastOf(lines, IsMap);
            && (MapNow(lines).Some? <==> m.Some?)
            && (m.Some? ==> MapGives(net, lines, m.value, InitOf(net, MapNow(lines).value)))
  {
    hide KeyNow, Declared, CountSegments, IsPlain, PlainBySaid, Decrypted;
    var m := LastOf(lines, IsMap);
    if m.Some? {
      assert !BadLine(lines[m.value]);
      NumberIsDeclared(lines[..m.value]);
      var map_ := MapNow(lines).value;
      DecryptedIsPlain(net, map_.key, map_.sequence, net.fetch(map_.url, map_.range));
      PlainAsSaid(net, lines[..m.value], map_.sequence, net.fetch(map_.url, map_.range), InitOf(net, map_));
    }
  }

  /** What line `at` names has arrived: the segment, and before it its init section if that is another than before. */
  ghost predicate LineArrived(net: Net, lines: seq<Line>, at: nat, sent: seq<Slice>)
    requires AllGood(lines) && NamesSegment(lines, at)
  {
    var k, segments := CountSegments(lines[..at]), SegmentsOf(lines);
    && k < |segments|
    && LineGives(net, lines, at, Some(Received(sent, DataPiece(segments, k))))
    && (Changes(segments, k) ==>
          && LastOf(lines[..at], IsMap).Some?
          && MapGives(net, lines[..at], LastOf(lines[..at], IsMap).value, Some(Received(sent, InitPiece(segments, k)))))
  }

  lemma LineHasArrived(net: Net, takes: nat -> bool, lines: seq<Line>, done: nat, stop: Stop, trace: seq<Trace>, at: nat)
    requires AllGood(lines) && done <= |SegmentsOf(lines)|
    requires StopsFor(net, takes, SegmentsOf(lines), done, stop, trace)
    requires NamesSegment(lines, at) && CountSegments(lines[..at]) < done
    ensures LineArrived(net, lines, at, SentIn(trace))
  {
    hide StopsFor, SentIn, Received, DataOf, LineGives, MapGives, InitOf, Changes, LastOf;
    SegmentIsItsLine(net, lines, at);
    InitIsItsMap(net, lines[..at]);
    HandedIsWhole(net, takes, SegmentsOf(lines), done, stop, trace, CountSegments(lines[..at]));
  }

  /** A download that ends for want of bytes ends at a segment line that gives none, or whose init section gives none. */
  lemma MissingAtItsLine(net: Net, takes: nat -> bool, lines: seq<Line>, done: nat, trace: seq<Trace>) returns (at: nat)
    requires AllGood(lines) && done <= |SegmentsOf(lines)| && StopsFor(net, takes, SegmentsOf(lines), done, Missing, trace)
    ensures NamesSegment(lines, at) && CountSegments(lines[..at]) == done
    ensures || LineGives(net, lines, at, None)
            || (LastOf(lines[..at], IsMap).Some? && MapGives(net, lines[..at], LastOf(lines[..at], IsMap).value, None))
  {
    hide SentIn, DataOf, LineGives, MapGives, InitOf, LastOf, Offered, Orderly;
    at := EverySegmentHasItsLine(lines, done);
    SegmentIsItsLine(net, lines, at);
    InitIsItsMap(net, lines[..at]);
  }

  /**
   Reads a playlist and, if it is a stream's, downloads the stream. However that ends, each segment
   line before the one it ended at has arrived.
   */
  method DownloadPlaylist(net: Net, takes: nat -> bool, header: bool, lines: seq<Line>)
    returns (playlist: Playlist, done: nat, stop: Stop, trace: seq<Trace>)
    ensures playlist == Reading(header, lines)
    ensures playlist.Segments? ==>
              && AllGood(lines) && done <= CountSegments(lines)
              && StopsFor(net, takes, SegmentsOf(lines), done, stop, trace)
    ensures playlist.Segments? ==>
              forall at: nat | NamesSegment(lines, at) && CountSegments(lines[..at]) < done :: LineArrived(net, lines, at, SentIn(trace))
    ensures !playlist.Segments? ==> trace == []
  {
    hide StopsFor, SentIn, LineArrived;
    done, stop, trace := 0, Finished, [];
    playlist := ParsePlaylist(header, lines);
    if playlist.Segments? {
      done, stop, trace := DownloadTrack(net, takes, playlist.segments);
      forall at: nat | NamesSegment(lines, at) && CountSegments(lines[..at]) < done
        ensures LineArrived(net, lines, at, SentIn(trace))
      {
        LineHasArrived(net, takes, lines, done, stop, trace, at);
      }
    }
  }
}
