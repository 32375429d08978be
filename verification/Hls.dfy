/**
 Reading an HLS playlist inside the page (extension/content/bridge.js): its segments with their
 numbers, keys, init sections and byte ranges, or a master's variants. Playlists come here as lines
 already told apart; RFC 8216 names the tags.
 */
module Hls {
  import opened Basics
  import opened Sorting

  type Byte = b: nat | b < 256
  type Bytes = seq<Byte>

  /** Inclusive, as an HTTP range; `end` is `start - 1` for an empty one. */
  datatype Range = Range(start: nat, end: int)

  /** "n" or "n@o"; None when the text is neither. */
  datatype RangeText = RangeText(length: nat, offset: Option<nat>)

  datatype KeyRef = KeyRef(url: string, iv: Option<Bytes>)

  datatype MapRef = MapRef(url: string, range: Option<Range>, key: Option<KeyRef>, sequence: nat)

  datatype Segment = Segment(url: string, sequence: nat, key: Option<KeyRef>, map_: Option<MapRef>, range: Option<Range>)

  datatype Variant = Variant(url: string, bandwidth: nat, audio: Option<string>)

  /** An IV attribute: hexadecimal digits, or something else. */
  datatype IvText = Hex(iv: Bytes) | NotHex

  datatype Line =
    | Uri(url: string)
    | StreamInf(bandwidth: nat, audio: Option<string>)
    | Media(isAudio: bool, uri: Option<string>, group: Option<string>, isDefault: bool)
    | MediaSequence(number: nat)
    | EndList
    | PlaylistType(vod: bool)
    | Key(keyMethod: string, format: Option<string>, keyUri: Option<string>, ivText: Option<IvText>)
    | Map(mapUri: Option<string>, mapRange: Option<Option<RangeText>>)
    | ByteRange(text: Option<RangeText>)
    | Other

  datatype Playlist = Master(variants: seq<Variant>, audioUrls: seq<string>) | Segments(segments: seq<Segment>) | Refused

  // ---------------------------------------------------------------- what a playlist says

  function RangeOf(text: RangeText, next: nat): (r: Range)
    ensures r.end + 1 - r.start == text.length
    ensures r.start == if text.offset.Some? then text.offset.value else next
  {
    var start := if text.offset.Some? then text.offset.value else next;
    Range(start, start + text.length - 1)
  }

  /** A key the app cannot use: another method, another format, no address, or an unreadable IV. */
  predicate BadKey(line: Line)
    requires line.Key?
  {
    line.keyMethod != "NONE"
    && (line.keyMethod != "AES-128" || (line.format.Some? && line.format.value != "" && line.format.value != "identity")
        || line.keyUri.None? || line.keyUri.value == "" || line.ivText == Some(NotHex))
  }

  predicate BadLine(line: Line) {
    || (line.Key? && BadKey(line))
    || (line.Map? && (line.mapUri.None? || line.mapUri.value == "" || line.mapRange == Some(None)))
    || (line.ByteRange? && line.text.None?)
  }

  function KeyOf(line: Line): Option<KeyRef>
    requires line.Key? && !BadKey(line)
  {
    if line.keyMethod == "NONE" then None
    else Some(KeyRef(line.keyUri.value, if line.ivText.Some? then Some(line.ivText.value.iv) else None))
  }

  predicate AllGood(lines: seq<Line>) {
    forall i | 0 <= i < |lines| :: !BadLine(lines[i])
  }

  predicate IsSequence(line: Line) {
    line.MediaSequence?
  }

  predicate IsKey(line: Line) {
    line.Key?
  }

  predicate IsMap(line: Line) {
    line.Map?
  }

  predicate IsRange(line: Line) {
    line.ByteRange?
  }

  predicate EndsRange(line: Line) {
    line.ByteRange? || line.Uri?
  }

  predicate EndsStream(line: Line) {
    line.Uri? || line.StreamInf?
  }

  /** Where the last line is that satisfies `p`, if any does. */
  function LastOf(lines: seq<Line>, p: Line -> bool): (at: Option<nat>)
    ensures at.Some? ==> at.value < |lines| && p(lines[at.value]) && forall i | at.value < i < |lines| :: !p(lines[i])
    ensures at.None? ==> forall i | 0 <= i < |lines| :: !p(lines[i])
  {
    if lines == [] then None
    else if p(lines[|lines| - 1]) then Some(|lines| - 1)
    else LastOf(lines[..|lines| - 1], p)
  }

  /** The media sequence number declared so far (section 4.3.3.2 of RFC 8216). */
  function Declared(lines: seq<Line>): nat {
    var at := LastOf(lines, IsSequence);
    if at.Some? then lines[at.value].number else 0
  }

  /** The key in force: the latest EXT-X-KEY (section 4.3.2.4). */
  function KeyNow(lines: seq<Line>): Option<KeyRef>
    requires AllGood(lines)
  {
    var at := LastOf(lines, IsKey);
    if at.Some? then KeyOf(lines[at.value]) else None
  }

  /** A URI names a segment unless an EXT-X-STREAM-INF waits for one. */
  predicate NamesVariant(before: seq<Line>) {
    var at := LastOf(before, EndsStream);
    at.Some? && before[at.value].StreamInf?
  }

  /** How many segments these lines name. */
  function CountSegments(lines: seq<Line>): nat {
    if lines == [] then 0
    else CountSegments(lines[..|lines| - 1])
         + if lines[|lines| - 1].Uri? && !NamesVariant(lines[..|lines| - 1]) then 1 else 0
  }

  /** The init section in force: the latest EXT-X-MAP, with the key in force there (section 4.3.2.5). */
  function MapNow(lines: seq<Line>): Option<MapRef>
    requires AllGood(lines)
  {
    var at := LastOf(lines, IsMap);
    if at.None? then
      None
    else
      var line, before := lines[at.value], lines[..at.value];
      Some(MapRef(line.mapUri.value, if line.mapRange.Some? then Some(RangeOf(line.mapRange.value.value, 0)) else None,
                  KeyNow(before), Declared(before) + CountSegments(before)))
  }

  /** The byte after the latest EXT-X-BYTERANGE, where one without an offset goes on (section 4.3.2.2). */
  function NextByte(lines: seq<Line>): nat
    requires AllGood(lines)
    decreases |lines|
  {
    var at := LastOf(lines, IsRange);
    if at.None? then 0
    else RangeOf(lines[at.value].text.value, NextByte(lines[..at.value])).end + 1
  }

  /** The byte range of the next URI: the latest EXT-X-BYTERANGE since the last URI. */
  function RangeNow(lines: seq<Line>): Option<Range>
    requires AllGood(lines)
  {
    var at := LastOf(lines, EndsRange);
    if at.Some? && lines[at.value].ByteRange?
    then Some(RangeOf(lines[at.value].text.value, NextByte(lines[..at.value])))
    else None
  }

  function SegmentAt(lines: seq<Line>, at: nat): Segment
    requires at < |lines| && lines[at].Uri? && AllGood(lines[..at])
  {
    var before := lines[..at];
    Segment(lines[at].url, Declared(before) + CountSegments(before), KeyNow(before), MapNow(before), RangeNow(before))
  }

  /** The segments the lines name, each read from the lines before it. */
  function SegmentsOf(lines: seq<Line>): (segments: seq<Segment>)
    requires AllGood(lines)
    ensures |segments| == CountSegments(lines)
  {
    if lines == [] then
      []
    else
      var n := |lines| - 1;
      SegmentsOf(lines[..n]) + if lines[n].Uri? && !NamesVariant(lines[..n]) then [SegmentAt(lines, n)] else []
  }

  function VariantsOf(lines: seq<Line>): seq<Variant> {
    if lines == [] then
      []
    else
      var n := |lines| - 1;
      VariantsOf(lines[..n])
      + if lines[n].Uri? && NamesVariant(lines[..n]) then
          var at := LastOf(lines[..n], EndsStream).value;
          [Variant(lines[n].url, lines[at].bandwidth, lines[at].audio)]
        else
          []
  }

  predicate IsRendition(line: Line, group: Option<string>) {
    line.Media? && line.isAudio && line.uri.Some? && line.uri.value != "" && line.group == group
  }

  /** A group's audio: its latest default rendition, else its first. */
  function AudioOf(lines: seq<Line>, group: Option<string>): string {
    if lines == [] then
      ""
    else
      var n := |lines| - 1;
      var before := AudioOf(lines[..n], group);
      if IsRendition(lines[n], group) && (before == "" || lines[n].isDefault) then lines[n].uri.value else before
  }

  predicate Finishes(line: Line) {
    line.EndList? || (line.PlaylistType? && line.vod)
  }

  predicate Finished(lines: seq<Line>) {
    exists i :: 0 <= i < |lines| && Finishes(lines[i])
  }

  predicate Faster(a: Variant, b: Variant) {
    a.bandwidth >= b.bandwidth
  }

  function AudioUrls(lines: seq<Line>, variants: seq<Variant>): seq<string> {
    seq(|variants|, i requires 0 <= i < |variants| => AudioOf(lines, variants[i].audio))
  }

  /** A playlist is refused for what it is missing, or for a line that cannot be used. */
  function Reading(header: bool, lines: seq<Line>): Playlist {
    if !header || !AllGood(lines) then Refused
    else if VariantsOf(lines) != [] then
      var variants := Sort(VariantsOf(lines), Faster);
      Master(variants, AudioUrls(lines, variants))
    else if !Finished(lines) || SegmentsOf(lines) == [] then Refused
    else Segments(SegmentsOf(lines))
  }

  // ---------------------------------------------------------------- the loop

  lemma LastStep(lines: seq<Line>, i: nat, p: Line -> bool)
    requires i < |lines|
    ensures LastOf(lines[..i + 1], p) == if p(lines[i]) then Some(i) else LastOf(lines[..i], p)
  {
    assert lines[..i + 1][..i] == lines[..i];
  }

  lemma Earlier(lines: seq<Line>, i: nat)
    requires i <= |lines|
    ensures forall at: nat | at < i :: lines[..i][..at] == lines[..at] && lines[..i][at] == lines[at]
  {
  }

  lemma SequenceStep(lines: seq<Line>, i: nat)
    requires i < |lines|
    ensures Declared(lines[..i + 1]) == if lines[i].MediaSequence? then lines[i].number else Declared(lines[..i])
    ensures NamesVariant(lines[..i + 1]) == if EndsStream(lines[i]) then lines[i].StreamInf? else NamesVariant(lines[..i])
  {
    LastStep(lines, i, IsSequence);
    LastStep(lines, i, EndsStream);
  }

  lemma KeyStep(lines: seq<Line>, i: nat)
    requires i < |lines| && AllGood(lines[..i + 1])
    ensures AllGood(lines[..i]) && !BadLine(lines[i])
    ensures KeyNow(lines[..i + 1]) == if lines[i].Key? then KeyOf(lines[i]) else KeyNow(lines[..i])
  {
    LastStep(lines, i, IsKey);
    assert lines[..i + 1][i] == lines[i];
    assert forall j | 0 <= j < i :: lines[..i][j] == lines[..i + 1][j];
  }

  lemma MapStep(lines: seq<Line>, i: nat)
    requires i < |lines| && AllGood(lines[..i + 1]) && AllGood(lines[..i]) && !BadLine(lines[i])
    ensures MapNow(lines[..i + 1]) ==
            if lines[i].Map? then
              Some(MapRef(lines[i].mapUri.value,
                          if lines[i].mapRange.Some? then Some(RangeOf(lines[i].mapRange.value.value, 0)) else None,
                          KeyNow(lines[..i]), Declared(lines[..i]) + CountSegments(lines[..i])))
            else MapNow(lines[..i])
  {
    hide LastOf, KeyNow, Declared, CountSegments, AllGood;
    LastStep(lines, i, IsMap);
    Earlier(lines, i);
    Earlier(lines, i + 1);
  }

  lemma RangeStep(lines: seq<Line>, i: nat)
    requires i < |lines| && AllGood(lines[..i + 1]) && AllGood(lines[..i]) && !BadLine(lines[i])
    ensures NextByte(lines[..i + 1]) ==
            if lines[i].ByteRange? then RangeOf(lines[i].text.value, NextByte(lines[..i])).end + 1 else NextByte(lines[..i])
    ensures RangeNow(lines[..i + 1]) ==
            if lines[i].ByteRange? then Some(RangeOf(lines[i].text.value, NextByte(lines[..i])))
            else if lines[i].Uri? then None
            else RangeNow(lines[..i])
  {
    LastStep(lines, i, IsRange);
    LastStep(lines, i, EndsRange);
    Earlier(lines, i);
    Earlier(lines, i + 1);
  }

  lemma ListStep(lines: seq<Line>, i: nat)
    requires i < |lines| && AllGood(lines[..i + 1]) && AllGood(lines[..i])
    ensures SegmentsOf(lines[..i + 1])
         == if lines[i].Uri? && !NamesVariant(lines[..i]) then SegmentsOf(lines[..i]) + [SegmentAt(lines, i)] else SegmentsOf(lines[..i])
    ensures CountSegments(lines[..i + 1])
         == CountSegments(lines[..i]) + if lines[i].Uri? && !NamesVariant(lines[..i]) then 1 else 0
  {
    assert lines[..i + 1][..i] == lines[..i] && lines[..i + 1][i] == lines[i];
    hide AllGood, NamesVariant, KeyNow, MapNow, RangeNow, Declared;
  }

  lemma FinishedStep(lines: seq<Line>, i: nat)
    requires i < |lines|
    ensures Finished(lines[..i + 1]) <==> Finished(lines[..i]) || Finishes(lines[i])
  {
    if Finished(lines[..i]) {
      var j :| 0 <= j < i && Finishes(lines[..i][j]);
      assert Finishes(lines[..i + 1][j]);
    }
    if Finishes(lines[i]) {
      assert Finishes(lines[..i + 1][i]);
    }
  }

  /** What an EXT-X-STREAM-INF says of the variant that follows. */
  datatype Stream = Stream(bandwidth: nat, audio: Option<string>)

  function StreamNow(lines: seq<Line>): Option<Stream> {
    var at := LastOf(lines, EndsStream);
    if at.Some? && lines[at.value].StreamInf? then Some(Stream(lines[at.value].bandwidth, lines[at.value].audio)) else None
  }

  lemma VariantStep(lines: seq<Line>, i: nat)
    requires i < |lines|
    ensures StreamNow(lines[..i]).Some? <==> NamesVariant(lines[..i])
    ensures StreamNow(lines[..i + 1]) ==
            if lines[i].StreamInf? then Some(Stream(lines[i].bandwidth, lines[i].audio))
            else if lines[i].Uri? then None
            else StreamNow(lines[..i])
    ensures VariantsOf(lines[..i + 1]) ==
            if lines[i].Uri? && StreamNow(lines[..i]).Some? then
              VariantsOf(lines[..i])
              + [Variant(lines[i].url, StreamNow(lines[..i]).value.bandwidth, StreamNow(lines[..i]).value.audio)]
            else VariantsOf(lines[..i])
  {
    LastStep(lines, i, EndsStream);
    assert lines[..i + 1][..i] == lines[..i] && lines[..i + 1][i] == lines[i];
  }

  lemma OneBad(lines: seq<Line>, i: nat)
    requires i < |lines|
    ensures BadLine(lines[i]) ==> !AllGood(lines)
    ensures AllGood(lines[..i]) && !BadLine(lines[i]) ==> AllGood(lines[..i + 1])
  {
  }

  /** The variables of the reading loop. */
  datatype Reader = Reader(
    variants: seq<Variant>, segments: seq<Segment>, sequence: nat, key: Option<KeyRef>, map_: Option<MapRef>,
    range: Option<Range>, next: nat, stream: Option<Stream>, complete: bool)

  ghost predicate ReadSoFar(lines: seq<Line>, r: Reader, audio: map<Option<string>, string>) {
    && AllGood(lines)
    && r.variants == VariantsOf(lines) && r.segments == SegmentsOf(lines) && r.sequence == Declared(lines)
    && r.key == KeyNow(lines) && r.map_ == MapNow(lines) && r.range == RangeNow(lines) && r.next == NextByte(lines)
    && r.stream == StreamNow(lines) && (r.complete <==> Finished(lines))
    && AudioRead(lines, audio)
  }

  ghost predicate AudioRead(lines: seq<Line>, audio: map<Option<string>, string>) {
    forall group :: (group in audio <==> AudioOf(lines, group) != "") && (group in audio ==> audio[group] == AudioOf(lines, group))
  }

  /** What a usable line does to the loop's variables. */
  function Next(r: Reader, line: Line): Reader
    requires !BadLine(line)
  {
    match line
    case Uri(url) =>
      var rest := r.(stream := None, range := None);
      if r.stream.Some? then
        rest.(variants := r.variants + [Variant(url, r.stream.value.bandwidth, r.stream.value.audio)])
      else
        rest.(segments := r.segments + [Segment(url, r.sequence + |r.segments|, r.key, r.map_, r.range)])
    case StreamInf(bandwidth, streamAudio) => r.(stream := Some(Stream(bandwidth, streamAudio)))
    case MediaSequence(number) => r.(sequence := number)
    case EndList => r.(complete := true)
    case PlaylistType(vod) => r.(complete := r.complete || vod)
    case Key(_, _, _, _) => r.(key := KeyOf(line))
    case Map(uri, range) =>
      var mapRange := if range.Some? then Some(RangeOf(range.value.value, 0)) else None;
      r.(map_ := Some(MapRef(uri.value, mapRange, r.key, r.sequence + |r.segments|)))
    case ByteRange(text) =>
      var range := RangeOf(text.value, r.next);
      r.(range := Some(range), next := range.end + 1)
    case _ => r
  }

  lemma CountIsLength(lines: seq<Line>)
    requires AllGood(lines)
    ensures CountSegments(lines) == |SegmentsOf(lines)|
  {
  }

  lemma ReadTags(lines: seq<Line>, i: nat, r: Reader, audio: map<Option<string>, string>)
    requires i < |lines| && ReadSoFar(lines[..i], r, audio) && !BadLine(lines[i])
    ensures AllGood(lines[..i + 1])
    ensures var r' := Next(r, lines[i]);
            && r'.sequence == Declared(lines[..i + 1]) && r'.key == KeyNow(lines[..i + 1]) && r'.map_ == MapNow(lines[..i + 1])
            && r'.range == RangeNow(lines[..i + 1]) && r'.next == NextByte(lines[..i + 1])
  {
    hide AllGood, VariantsOf, SegmentsOf, Declared, KeyNow, MapNow, RangeNow, NextByte, StreamNow, Finished, AudioOf,
         NamesVariant, CountSegments, AudioRead, LastOf, BadKey;
    OneBad(lines, i);
    SequenceStep(lines, i);
    KeyStep(lines, i);
    MapStep(lines, i);
    RangeStep(lines, i);
    CountIsLength(lines[..i]);
  }

  lemma ReadLists(lines: seq<Line>, i: nat, r: Reader, audio: map<Option<string>, string>)
    requires i < |lines| && ReadSoFar(lines[..i], r, audio) && AllGood(lines[..i + 1]) && !BadLine(lines[i])
    ensures var r' := Next(r, lines[i]);
            && r'.variants == VariantsOf(lines[..i + 1]) && r'.segments == SegmentsOf(lines[..i + 1])
            && r'.stream == StreamNow(lines[..i + 1]) && (r'.complete <==> Finished(lines[..i + 1]))
  {
    hide AllGood, VariantsOf, SegmentsOf, Declared, KeyNow, MapNow, RangeNow, NextByte, StreamNow, Finished, AudioOf,
         NamesVariant, CountSegments, AudioRead, LastOf, BadKey;
    ListStep(lines, i);
    FinishedStep(lines, i);
    VariantStep(lines, i);
    CountIsLength(lines[..i]);
  }

  /** A group's address, or a better one. */
  method ReadAudio(ghost lines: seq<Line>, ghost i: nat, line: Line, audio: map<Option<string>, string>)
    returns (audio': map<Option<string>, string>)
    requires i < |lines| && lines[i] == line && AudioRead(lines[..i], audio)
    ensures AudioRead(lines[..i + 1], audio')
  {
    assert lines[..i + 1][..i] == lines[..i] && lines[..i + 1][i] == line;
    audio' := audio;
    if line.Media? && line.isAudio && line.uri.Some? && line.uri.value != "" && (line.group !in audio || line.isDefault) {
      audio' := audio[line.group := line.uri.value];
    }
  }

  /** One line of the loop: a URI is a variant or a segment, a tag changes what the next ones get. */
  method ReadLine(ghost lines: seq<Line>, ghost i: nat, line: Line, r: Reader, audio: map<Option<string>, string>)
    returns (refused: bool, r': Reader, audio': map<Option<string>, string>)
    requires i < |lines| && lines[i] == line && ReadSoFar(lines[..i], r, audio)
    ensures refused <==> BadLine(line)
    ensures !refused ==> ReadSoFar(lines[..i + 1], r', audio')
  {
    refused, r', audio' := BadLine(line), r, audio;
    if refused {
      return;
    }
    ReadTags(lines, i, r, audio);
    ReadLists(lines, i, r, audio);
    r' := Next(r, line);
    audio' := ReadAudio(lines, i, line, audio);
    hide Next, AudioRead, AllGood, VariantsOf, SegmentsOf, Declared, KeyNow, MapNow, RangeNow, NextByte, StreamNow, Finished;
  }

  method FindAudio(ghost lines: seq<Line>, audio: map<Option<string>, string>, variants: seq<Variant>) returns (urls: seq<string>)
    requires AudioRead(lines, audio)
    ensures urls == AudioUrls(lines, variants)
  {
    urls := [];
    for i := 0 to |variants|
      invariant urls == AudioUrls(lines, variants)[..i]
    {
      urls := urls + [if variants[i].audio in audio then audio[variants[i].audio] else ""];
    }
  }

  method ParsePlaylist(header: bool, lines: seq<Line>) returns (playlist: Playlist)
    ensures playlist == Reading(header, lines)
  {
    if !header {
      return Refused;
    }
    var r := Reader([], [], 0, None, None, None, 0, None, false);
    var audio: map<Option<string>, string> := map[];
    for i := 0 to |lines|
      invariant ReadSoFar(lines[..i], r, audio)
    {
      var refused, r', audio' := ReadLine(lines, i, lines[i], r, audio);
      if refused {
        OneBad(lines, i);
        return Refused;
      }
      r, audio := r', audio';
    }
    assert lines[..|lines|] == lines;
    if r.variants != [] {
      var variants := Sort(r.variants, Faster);
      var audioUrls := FindAudio(lines, audio, variants);
      return Master(variants, audioUrls);
    }
    if !r.complete || r.segments == [] {
      return Refused;
    }
    return Segments(r.segments);
  }

  // ---------------------------------------------------------------- the declarative reading

  lemma SegmentsGrow(lines: seq<Line>, n: nat)
    requires AllGood(lines) && |lines| == n + 1
    ensures AllGood(lines[..n]) && SegmentsOf(lines[..n]) <= SegmentsOf(lines)
    ensures lines[n].Uri? && !NamesVariant(lines[..n]) ==>
              SegmentsOf(lines) == SegmentsOf(lines[..n]) + [SegmentAt(lines, n)]
  {
  }

  lemma SameSegment(lines: seq<Line>, n: nat, at: nat)
    requires AllGood(lines) && at < n <= |lines| && lines[at].Uri?
    ensures AllGood(lines[..at]) && AllGood(lines[..n]) && lines[..n][..at] == lines[..at] && lines[..n][at] == lines[at]
    ensures SegmentAt(lines[..n], at) == SegmentAt(lines, at)
  {
    assert lines[..n][..at] == lines[..at];
  }

  /** The segments are the segment URIs in order, each with what the lines before it say. */
  lemma {:induction false} SegmentsInOrder(lines: seq<Line>, at: nat)
    requires AllGood(lines) && at < |lines| && lines[at].Uri? && !NamesVariant(lines[..at])
    ensures AllGood(lines[..at]) && CountSegments(lines[..at]) < |SegmentsOf(lines)|
    ensures SegmentsOf(lines)[CountSegments(lines[..at])] == SegmentAt(lines, at)
    decreases |lines|
  {
    hide *;
    var n := |lines| - 1;
    SegmentsGrow(lines, n);
    if at < n {
      SameSegment(lines, n, at);
      SegmentsInOrder(lines[..n], at);
    }
  }

  lemma {:induction false} EverySegmentHasItsLine(lines: seq<Line>, k: nat) returns (at: nat)
    requires AllGood(lines) && k < |SegmentsOf(lines)|
    ensures at < |lines| && lines[at].Uri? && !NamesVariant(lines[..at]) && CountSegments(lines[..at]) == k
    decreases |lines|
  {
    var n := |lines| - 1;
    if k < |SegmentsOf(lines[..n])| {
      at := EverySegmentHasItsLine(lines[..n], k);
      assert lines[..n][..at] == lines[..at];
    } else {
      at := n;
    }
  }

  /** No segment before a media sequence tag, as section 4.3.3.2 of RFC 8216 asks. */
  ghost predicate SequenceFirst(lines: seq<Line>) {
    forall i, j | 0 <= i < j < |lines| && lines[j].MediaSequence? :: !(lines[i].Uri? && !NamesVariant(lines[..i]))
  }

  /** Then each segment's number is the declared one plus its place in the list. */
  lemma NumberedFromTheStart(lines: seq<Line>, k: nat)
    requires AllGood(lines) && SequenceFirst(lines) && k < |SegmentsOf(lines)|
    ensures SegmentsOf(lines)[k].sequence == Declared(lines) + k
  {
    var at := EverySegmentHasItsLine(lines, k);
    SegmentsInOrder(lines, at);
    DeclaredBefore(lines, at);
  }

  lemma {:induction false} DeclaredBefore(lines: seq<Line>, at: nat)
    requires at <= |lines| && forall j | at <= j < |lines| :: !lines[j].MediaSequence?
    ensures Declared(lines[..at]) == Declared(lines)
    decreases |lines| - at
  {
    if at < |lines| {
      DeclaredBefore(lines, at + 1);
      LastStep(lines, at, IsSequence);
      Earlier(lines, at);
    } else {
      assert lines[..at] == lines;
    }
  }

  /**
   A byte range has the length it says and starts at the offset it says; without one it goes on where
   the range before it in the playlist ended, or at 0. It holds up to the next URI.
   */
  lemma RangesContinue(lines: seq<Line>, j: nat, at: nat)
    requires AllGood(lines) && j < at <= |lines| && lines[j].ByteRange?
    requires forall k | j < k < at :: !lines[k].ByteRange? && !lines[k].Uri?
    ensures AllGood(lines[..at]) && RangeNow(lines[..at]).Some?
    ensures var (text, range) := (lines[j].text.value, RangeNow(lines[..at]).value);
            && range.end + 1 == range.start + text.length
            && range.start == match text.offset
                              case Some(offset) => offset
                              case None => EndBefore(lines, j)
  {
    RangeStep(lines, j);
    RangeStays(lines, j + 1, at);
    NextIsEnd(lines, j);
  }

  /** A URI without a byte range since the URI before it has none. */
  lemma RangesEnd(lines: seq<Line>, at: nat)
    requires AllGood(lines) && at <= |lines|
    requires forall j | 0 <= j < at && lines[j].ByteRange? :: exists k :: j < k < at && lines[k].Uri?
    ensures AllGood(lines[..at]) && RangeNow(lines[..at]).None?
  {
  }

  /** The byte after the latest range before line `j`, if there is one. */
  function EndBefore(lines: seq<Line>, j: nat): int
    requires AllGood(lines) && j <= |lines|
  {
    var i := LastOf(lines[..j], IsRange);
    if i.None? then
      0
    else
      RangeStep(lines, i.value);
      RangeNow(lines[..i.value + 1]).value.end + 1
  }

  lemma NextIsEnd(lines: seq<Line>, j: nat)
    requires AllGood(lines) && j <= |lines|
    ensures NextByte(lines[..j]) == EndBefore(lines, j)
  {
    var i := LastOf(lines[..j], IsRange);
    if i.Some? {
      RangeStep(lines, i.value);
      NextStays(lines, i.value + 1, j);
    }
  }

  lemma {:induction false} RangeStays(lines: seq<Line>, i: nat, j: nat)
    requires AllGood(lines) && i <= j <= |lines| && forall k | i <= k < j :: !lines[k].ByteRange? && !lines[k].Uri?
    ensures RangeNow(lines[..j]) == RangeNow(lines[..i])
    decreases j
  {
    if i < j {
      RangeStays(lines, i, j - 1);
      RangeStep(lines, j - 1);
    }
  }

  lemma {:induction false} NextStays(lines: seq<Line>, i: nat, j: nat)
    requires AllGood(lines) && i <= j <= |lines| && forall k | i <= k < j :: !lines[k].ByteRange?
    ensures NextByte(lines[..j]) == NextByte(lines[..i])
    decreases j
  {
    if i < j {
      NextStays(lines, i, j - 1);
      RangeStep(lines, j - 1);
    }
  }

  predicate IsDefault(lines: seq<Line>, at: nat, group: Option<string>)
    requires at < |lines|
  {
    IsRendition(lines[at], group) && lines[at].isDefault
  }

  /**
   A group's audio is its latest default rendition, or its first if none is a default one; without a
   rendition there is none.
   */
  lemma {:induction false} AudioIsTheDefault(lines: seq<Line>, group: Option<string>) returns (at: nat)
    ensures AudioOf(lines, group) == "" <==> forall i | 0 <= i < |lines| :: !IsRendition(lines[i], group)
    ensures AudioOf(lines, group) != "" ==>
              && at < |lines| && IsRendition(lines[at], group) && AudioOf(lines, group) == lines[at].uri.value
              && if lines[at].isDefault then
                   forall i | at < i < |lines| :: !IsDefault(lines, i, group)
                 else
                   && (forall i | 0 <= i < |lines| :: !IsDefault(lines, i, group))
                   && (forall i | 0 <= i < at :: !IsRendition(lines[i], group))
  {
    at := 0;
    if lines != [] {
      var n := |lines| - 1;
      var before := AudioIsTheDefault(lines[..n], group);
      assert forall i | 0 <= i < n :: lines[..n][i] == lines[i] && IsDefault(lines[..n], i, group) == IsDefault(lines, i, group);
      at := if IsRendition(lines[n], group) && (AudioOf(lines[..n], group) == "" || lines[n].isDefault) then n else before;
    }
  }

  /**
   A playlist is refused exactly when it lacks its header, has a key that cannot be used, an init
   section without an address, or a byte range that is none, or names no variants and is unfinished or
   without segments.
   */
  lemma RefusedExactly(header: bool, lines: seq<Line>)
    ensures Reading(header, lines).Refused? <==>
            || !header
            || (exists i :: 0 <= i < |lines| && BadLine(lines[i]))
            || ((forall i | 0 <= i < |lines| && lines[i].Uri? :: !NamesVariant(lines[..i]))
                && (|| (forall i | 0 <= i < |lines| :: !(lines[i].EndList? || lines[i] == PlaylistType(true)))
                    || (forall i | 0 <= i < |lines| :: !lines[i].Uri?)))
  {
    var variants := forall i | 0 <= i < |lines| && lines[i].Uri? :: !NamesVariant(lines[..i]);
    NoVariants(lines);
    assert Finished(lines) <==> exists i :: 0 <= i < |lines| && Finishes(lines[i]);
    if header && AllGood(lines) && variants {
      NoSegments(lines);
    }
    hide VariantsOf, SegmentsOf, NamesVariant, Sort;
  }

  /** What a line that cannot be used says. */
  lemma BadExactly(line: Line)
    ensures BadLine(line) <==>
            match line
            case Key(keyMethod, format, uri, iv) =>
              keyMethod != "NONE"
              && (keyMethod != "AES-128" || format !in {None, Some(""), Some("identity")} || uri in {None, Some("")} || iv == Some(NotHex))
            case Map(uri, range) => uri in {None, Some("")} || range == Some(None)
            case ByteRange(text) => text == None
            case _ => false
  {
  }

  lemma {:induction false} NoVariants(lines: seq<Line>)
    ensures VariantsOf(lines) == [] <==> forall i | 0 <= i < |lines| && lines[i].Uri? :: !NamesVariant(lines[..i])
  {
    if lines != [] {
      var n := |lines| - 1;
      NoVariants(lines[..n]);
      assert forall i | 0 <= i < n :: lines[..n][i] == lines[i] && lines[..n][..i] == lines[..i];
      hide NamesVariant;
    }
  }

  lemma {:induction false} NoSegments(lines: seq<Line>)
    requires AllGood(lines) && forall i | 0 <= i < |lines| && lines[i].Uri? :: !NamesVariant(lines[..i])
    ensures SegmentsOf(lines) == [] <==> forall i | 0 <= i < |lines| :: !lines[i].Uri?
  {
    if lines != [] {
      var n := |lines| - 1;
      assert forall i | 0 <= i < n :: lines[..n][i] == lines[i] && lines[..n][..i] == lines[..i];
      NoSegments(lines[..n]);
      hide NamesVariant, SegmentAt;
    }
  }

  function CountVariants(lines: seq<Line>): nat {
    if lines == [] then 0
    else CountVariants(lines[..|lines| - 1])
         + if lines[|lines| - 1].Uri? && NamesVariant(lines[..|lines| - 1]) then 1 else 0
  }

  /** `v` has the address of line `at`, and what the EXT-X-STREAM-INF says that waits for it. */
  ghost predicate SaysVariant(lines: seq<Line>, at: nat, v: Variant)
    requires at < |lines| && lines[at].Uri?
  {
    exists i :: && 0 <= i < at && lines[i].StreamInf? && (forall k | i < k < at :: !lines[k].StreamInf? && !lines[k].Uri?)
                && v == Variant(lines[at].url, lines[i].bandwidth, lines[i].audio)
  }

  lemma LastVariant(lines: seq<Line>)
    requires lines != [] && lines[|lines| - 1].Uri? && NamesVariant(lines[..|lines| - 1])
    ensures var n := |lines| - 1;
            |VariantsOf(lines)| == |VariantsOf(lines[..n])| + 1 && SaysVariant(lines, n, VariantsOf(lines)[|VariantsOf(lines[..n])|])
  {
    var n := |lines| - 1;
    var i := LastOf(lines[..n], EndsStream).value;
    assert lines[..n][i] == lines[i] && forall k | i < k < n :: lines[..n][k] == lines[k];
  }

  lemma SaysMore(lines: seq<Line>, n: nat, at: nat, v: Variant)
    requires at < n <= |lines| && lines[at].Uri? && SaysVariant(lines[..n], at, v)
    ensures SaysVariant(lines, at, v)
  {
    assert forall k | 0 <= k < n :: lines[..n][k] == lines[k];
  }

  lemma VariantsGrow(lines: seq<Line>)
    requires lines != []
    ensures VariantsOf(lines[..|lines| - 1]) <= VariantsOf(lines)
  {
  }

  /**
   The variants before they are sorted are the URIs that an EXT-X-STREAM-INF waits for, in order, each
   with what that tag says.
   */
  lemma {:induction false} VariantsInOrder(lines: seq<Line>, at: nat)
    requires at < |lines| && lines[at].Uri? && NamesVariant(lines[..at])
    ensures |VariantsOf(lines)| == CountVariants(lines) && CountVariants(lines[..at]) < |VariantsOf(lines)|
    ensures SaysVariant(lines, at, VariantsOf(lines)[CountVariants(lines[..at])])
    decreases |lines|
  {
    hide *;
    var n := |lines| - 1;
    VariantCount(lines);
    VariantCount(lines[..n]);
    if at < n {
      assert lines[..n][..at] == lines[..at] && lines[..n][at] == lines[at];
      VariantsInOrder(lines[..n], at);
      VariantsGrow(lines);
      SaysMore(lines, n, at, VariantsOf(lines)[CountVariants(lines[..at])]);
    } else {
      LastVariant(lines);
    }
  }

  lemma {:induction false} VariantCount(lines: seq<Line>)
    ensures |VariantsOf(lines)| == CountVariants(lines)
  {
    if lines != [] {
      VariantCount(lines[..|lines| - 1]);
    }
  }

  /** The best variant is the first listed of those with the highest bandwidth. */
  lemma BestIsListedFirst(header: bool, lines: seq<Line>) returns (k: nat)
    requires Reading(header, lines).Master?
    ensures Reading(header, lines).variants != [] && k < |VariantsOf(lines)|
    ensures Reading(header, lines).variants[0] == VariantsOf(lines)[k]
    ensures forall j | 0 <= j < |VariantsOf(lines)| ::
              if j < k then VariantsOf(lines)[j].bandwidth < VariantsOf(lines)[k].bandwidth
              else VariantsOf(lines)[j].bandwidth <= VariantsOf(lines)[k].bandwidth
  {
    k := SortsFirst(VariantsOf(lines), Faster);
  }

  /** Variants come best first. */
  lemma BestFirst(header: bool, lines: seq<Line>, i: nat, j: nat)
    requires Reading(header, lines).Master? && i < j < |Reading(header, lines).variants|
    ensures Reading(header, lines).variants[i].bandwidth >= Reading(header, lines).variants[j].bandwidth
    ensures multiset(Reading(header, lines).variants) == multiset(VariantsOf(lines))
  {
    SortSorts(VariantsOf(lines), Faster);
    assert Faster(Reading(header, lines).variants[i], Reading(header, lines).variants[j]);
  }

  // ---------------------------------------------------------------- the IV of a segment

  function Digits(n: nat, count: nat): (digits: Bytes)
    ensures |digits| == count
  {
    if count == 0 then [] else Digits(n / 256, count - 1) + [n % 256]
  }

  /** A 32-bit field, big-endian. */
  function Word(n: nat): Bytes {
    Digits(n % 0x1_0000_0000, 4)
  }

  /** Eight zero bytes, then the number's high and low 32 bits. */
  function SequenceIv(sequence: nat): (iv: Bytes)
    ensures |iv| == 16
  {
    Digits(0, 8) + Word(sequence / 0x1_0000_0000) + Word(sequence)
  }

  function BigEndian(bytes: Bytes): nat {
    if bytes == [] then 0 else BigEndian(bytes[..|bytes| - 1]) * 256 + bytes[|bytes| - 1]
  }

  function Power(count: nat): nat {
    if count == 0 then 1 else 256 * Power(count - 1)
  }

  lemma {:induction false} DigitsReadBack(n: nat, count: nat)
    requires n < Power(count)
    ensures BigEndian(Digits(n, count)) == n
  {
    if count > 0 {
      DigitsReadBack(n / 256, count - 1);
      var digits := Digits(n, count);
      assert digits[..count - 1] == Digits(n / 256, count - 1) && digits[count - 1] == n % 256;
    }
  }

  lemma LastDigit(bytes: Bytes, digit: Byte)
    ensures BigEndian(bytes + [digit]) == BigEndian(bytes) * 256 + digit
  {
    assert (bytes + [digit])[..|bytes|] == bytes;
  }

  lemma PowerNext(count: nat)
    ensures Power(count + 1) == 256 * Power(count)
  {
  }

  /** `(x * p + y) * 256 + d`, with the first product moved out. */
  lemma ShiftedSum(x: nat, p: nat, y: nat, d: nat)
    ensures (x * p + y) * 256 + d == x * (256 * p) + (y * 256 + d)
  {
    Reassociate(x, p);
  }

  lemma Reassociate(x: nat, p: nat)
    ensures x * p * 256 == x * (256 * p)
  {
  }

  lemma {:induction false} BigEndianConcat(a: Bytes, b: Bytes)
    ensures BigEndian(a + b) == BigEndian(a) * Power(|b|) + BigEndian(b)
    decreases |b|
  {
    if b == [] {
      assert a + b == a;
      NoDigits();
    } else {
      hide BigEndian, Power;
      var n := |b| - 1;
      var rest, digit := b[..n], b[n];
      BigEndianConcat(a, rest);
      assert b == rest + [digit] && a + b == (a + rest) + [digit];
      LastDigit(a + rest, digit);
      LastDigit(rest, digit);
      PowerNext(n);
      ShiftedSum(BigEndian(a), Power(n), BigEndian(rest), digit);
    }
  }

  lemma NoDigits()
    ensures BigEndian([]) == 0 && Power(0) == 1
  {
  }

  /** The sixteen bytes that, read big-endian, are a media sequence number, of 64 bits (section 5.2 of RFC 8216). */
  predicate IsSequenceIv(iv: Bytes, sequence: nat) {
    |iv| == 16 && BigEndian(iv) == sequence % 0x1_0000_0000_0000_0000
  }

  lemma IvIsTheSequence(sequence: nat)
    ensures IsSequenceIv(SequenceIv(sequence), sequence)
  {
    var high, low := sequence / 0x1_0000_0000 % 0x1_0000_0000, sequence % 0x1_0000_0000;
    assert Power(4) == 0x1_0000_0000 && Power(8) > 0;
    hide Power, Digits, BigEndian;
    DigitsReadBack(0, 8);
    DigitsReadBack(high, 4);
    DigitsReadBack(low, 4);
    BigEndianConcat(Digits(0, 8), Digits(high, 4));
    BigEndianConcat(Digits(0, 8) + Digits(high, 4), Digits(low, 4));
    TwoWords(sequence);
  }

  lemma TwoWords(n: nat)
    ensures n / 0x1_0000_0000 % 0x1_0000_0000 * 0x1_0000_0000 + n % 0x1_0000_0000 == n % 0x1_0000_0000_0000_0000
  {
  }

  lemma {:induction false} BytesReadApart(a: Bytes, b: Bytes)
    requires |a| == |b| && BigEndian(a) == BigEndian(b)
    ensures a == b
  {
    if a != [] {
      var n := |a| - 1;
      BytesReadApart(a[..n], b[..n]);
      assert a == a[..n] + [a[n]] && b == b[..n] + [b[n]];
    }
  }
}
