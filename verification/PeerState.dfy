/** The state a node advertises about itself and its payload entries (link/peerstate.go). */
module PeerStates {
  import opened BeatGrid
  import opened Tempos
  import opened Timelines
  import opened Wire
  import opened NodeIds

  datatype Option<+T> = None | Some(value: T)

  datatype StartStopState = StartStopState(isPlaying: bool, beats: Beats, timestamp: Micros)

  const NO_START_STOP := StartStopState(false, 0, 0)

  /** What a payload without a timeline entry leaves: no tempo at all. */
  const NO_TIMELINE := Timeline(0.0, 0, 0)

  datatype RawEndpoint = RawEndpoint(ip: Bytes, port: nat)

  type Endpoint = e: RawEndpoint | |e.ip| == 4 && e.port < 0x1_0000 witness RawEndpoint([127, 0, 0, 1], 0)

  datatype PeerState = PeerState(
    nodeId: NodeId,
    sessionId: NodeId,
    timeline: Timeline,
    startStop: StartStopState,
    endpoint: Option<Endpoint>)

  function InitialPeerState(id: NodeId): PeerState {
    PeerState(id, ZERO_ID, NO_TIMELINE, NO_START_STOP, None)
  }

  // ----- Encoding -----

  function EncodeStartStop(s: StartStopState): Entry {
    Entry(KEY_START_STOP, [if s.isPlaying then 1 else 0] + EncodeInt64(s.beats) + EncodeInt64(s.timestamp))
  }

  function EncodeTimeline(tl: Timeline): Entry
    requires tl.bpm > 0.0
  {
    Entry(KEY_TIMELINE, EncodeInt64(MicrosPerBeat(tl.bpm)) + EncodeInt64(tl.beatOrigin) + EncodeInt64(tl.timeOrigin))
  }

  function EncodeEndpoint(ep: Endpoint): Entry {
    Entry(KEY_MEEP_V4, ep.ip + BigEndian(ep.port, 2))
  }

  function EncodePeerState(state: PeerState): seq<Entry>
    requires state.timeline.bpm > 0.0
  {
    [EncodeTimeline(state.timeline), Entry(KEY_SESSION, state.sessionId.bytes), EncodeStartStop(state.startStop)]
    + match state.endpoint
      case Some(ep) => [EncodeEndpoint(ep)]
      case None => []
  }

  // ----- Decoding -----

  function DecodeStartStop(value: Bytes): Result<StartStopState> {
    if |value| != 17 then Err
    else Ok(StartStopState(value[0] != 0, DecodeInt64(value[1..9]), DecodeInt64(value[9..])))
  }

  function DecodeTimeline(value: Bytes): Result<Timeline> {
    if |value| != 24 then Err
    else
      var mpb := DecodeInt64(value[..8]);
      if mpb <= 0 then Err
      else Ok(Timeline(TempoOfMicros(mpb), DecodeInt64(value[8..16]), DecodeInt64(value[16..])))
  }

  /** What the decoder does with one entry; entries with other keys change nothing. */
  function ApplyEntry(state: PeerState, e: Entry): Result<PeerState> {
    if e.key == KEY_TIMELINE then
      match DecodeTimeline(e.value)
      case Ok(tl) => Ok(state.(timeline := tl))
      case Err => Err
    else if e.key == KEY_SESSION then
      if |e.value| != 8 then Err else Ok(state.(sessionId := RawId(e.value)))
    else if e.key == KEY_START_STOP then
      match DecodeStartStop(e.value)
      case Ok(ss) => Ok(state.(startStop := ss))
      case Err => Err
    else if e.key == KEY_MEEP_V4 then
      if |e.value| != 6 then Err
      else
        PortFits(e.value[4..]);
        var ep: Endpoint := RawEndpoint(e.value[..4], FromBigEndian(e.value[4..]));
        Ok(state.(endpoint := Some(ep)))
    else Ok(state)
  }

  lemma PortFits(b: Bytes)
    requires |b| == 2
    ensures FromBigEndian(b) < 0x1_0000
  {
    Widths();
    FromBigEndianRoundTrip(b);
  }

  function ApplyEntries(state: PeerState, es: seq<Entry>): Result<PeerState>
    decreases |es|
  {
    if es == [] then Ok(state)
    else
      match ApplyEntry(state, es[0])
      case Ok(next) => ApplyEntries(next, es[1..])
      case Err => Err
  }

  function DecodePeerState(id: NodeId, payload: Bytes): Result<PeerState> {
    match ParseEntries(payload)
    case Ok(es) => ApplyEntries(InitialPeerState(id), es)
    case Err => Err
  }

  lemma {:induction false} EntriesKeepTheId(state: PeerState, es: seq<Entry>)
    ensures ApplyEntries(state, es).Ok? ==> ApplyEntries(state, es).value.nodeId == state.nodeId
    decreases |es|
  {
    if es != [] && ApplyEntry(state, es[0]).Ok? {
      EntriesKeepTheId(ApplyEntry(state, es[0]).value, es[1..]);
    }
  }

  /** No entry of a payload can change whose state it is. */
  lemma DecodedUnderItsId(id: NodeId, payload: Bytes)
    ensures DecodePeerState(id, payload).Ok? ==> DecodePeerState(id, payload).value.nodeId == id
  {
    if ParseEntries(payload).Ok? {
      EntriesKeepTheId(InitialPeerState(id), ParseEntries(payload).value);
    }
  }

  /** Decodes entry by entry while parsing, mutating the state as it goes; a bad entry or a bad header ends it. */
  method Decode(id: NodeId, payload: Bytes) returns (r: Result<PeerState>)
    ensures r == DecodePeerState(id, payload)
  {
    var state := InitialPeerState(id);
    var rest := payload;
    while |rest| > 0
      invariant DecodePeerState(id, payload) ==
        match ParseEntries(rest)
        case Ok(es) => ApplyEntries(state, es)
        case Err => Err
      decreases |rest|
    {
      if |rest| < 8 {
        return Err;
      }
      var size := FromBigEndian(rest[4..8]);
      if size > |rest| - 8 {
        return Err;
      }
      var e := Entry(FromBigEndian(rest[..4]), rest[8..8 + size]);
      ghost var tail := ParseEntries(rest[8 + size..]);
      if tail.Ok? {
        assert ([e] + tail.value)[1..] == tail.value;
      }
      match ApplyEntry(state, e) {
        case Ok(next) => state := next;
        case Err => return Err;
      }
      rest := rest[8 + size..];
    }
    return Ok(state);
  }

  // ----- Round trip -----

  predicate Known(key: nat) {
    key in {KEY_TIMELINE, KEY_SESSION, KEY_START_STOP, KEY_MEEP_V4}
  }

  function KnownOnly(es: seq<Entry>): seq<Entry> {
    if es == [] then []
    else (if Known(es[0].key) then [es[0]] else []) + KnownOnly(es[1..])
  }

  /** Entries with unknown keys are ignored wherever they stand. */
  lemma {:induction false} UnknownEntriesAreIgnored(state: PeerState, es: seq<Entry>)
    ensures ApplyEntries(state, es) == ApplyEntries(state, KnownOnly(es))
    decreases |es|
  {
    if es != [] {
      if Known(es[0].key) {
        assert KnownOnly(es)[1..] == KnownOnly(es[1..]);
      } else {
        assert KnownOnly(es) == KnownOnly(es[1..]);
      }
      match ApplyEntry(state, es[0]) {
        case Ok(next) => UnknownEntriesAreIgnored(next, es[1..]);
        case Err =>
      }
    }
  }

  /** A state whose numbers fit the 64-bit fields. */
  predicate Sendable(state: PeerState) {
    && state.timeline.bpm > 0.0
    && 0 < MicrosPerBeat(state.timeline.bpm) < TWO63
    && IsInt64(state.timeline.beatOrigin) && IsInt64(state.timeline.timeOrigin)
    && IsInt64(state.startStop.beats) && IsInt64(state.startStop.timestamp)
  }

  /** A timeline as a peer decodes it: the tempo quantised to whole microseconds per beat. */
  function OnTheWire(tl: Timeline): Timeline
    requires Usable(tl.bpm)
  {
    tl.(bpm := TempoOfMicros(MicrosPerBeat(tl.bpm)))
  }

  lemma TimelineRoundTrip(tl: Timeline)
    requires Usable(tl.bpm) && MicrosPerBeat(tl.bpm) < TWO63 && IsInt64(tl.beatOrigin) && IsInt64(tl.timeOrigin)
    ensures DecodeTimeline(EncodeTimeline(tl).value) == Ok(OnTheWire(tl))
  {
    var p := MicrosPerBeat(tl.bpm);
    Int64RoundTrip(p);
    Int64RoundTrip(tl.beatOrigin);
    Int64RoundTrip(tl.timeOrigin);
    var v := EncodeTimeline(tl).value;
    assert v[..8] == EncodeInt64(p) && v[8..16] == EncodeInt64(tl.beatOrigin) && v[16..] == EncodeInt64(tl.timeOrigin);
  }

  lemma StartStopRoundTrip(s: StartStopState)
    requires IsInt64(s.beats) && IsInt64(s.timestamp)
    ensures DecodeStartStop(EncodeStartStop(s).value) == Ok(s)
  {
    Int64RoundTrip(s.beats);
    Int64RoundTrip(s.timestamp);
    var v := EncodeStartStop(s).value;
    assert v[1..9] == EncodeInt64(s.beats) && v[9..] == EncodeInt64(s.timestamp);
  }

  lemma EndpointRoundTrip(state: PeerState, ep: Endpoint)
    ensures ApplyEntry(state, EncodeEndpoint(ep)) == Ok(state.(endpoint := Some(ep)))
  {
    Widths();
    BigEndianRoundTrip(ep.port, 2);
    var v := EncodeEndpoint(ep).value;
    assert v[..4] == ep.ip && v[4..] == BigEndian(ep.port, 2);
  }

  lemma EntriesOfStateDecode(state: PeerState)
    requires Sendable(state)
    ensures ApplyEntries(InitialPeerState(state.nodeId), EncodePeerState(state)) == Ok(state.(timeline := OnTheWire(state.timeline)))
  {
    TimelineRoundTrip(state.timeline);
    StartStopRoundTrip(state.startStop);
    var s0 := InitialPeerState(state.nodeId);
    var s1 := s0.(timeline := OnTheWire(state.timeline));
    var s2 := s1.(sessionId := state.sessionId);
    var s3 := s2.(startStop := state.startStop);
    var es := EncodePeerState(state);
    hide OnTheWire, EncodeInt64, DecodeInt64, DecodeTimeline, DecodeStartStop, MicrosPerBeat;
    assert ApplyEntry(s0, es[0]) == Ok(s1);
    assert ApplyEntry(s1, es[1]) == Ok(s2);
    assert ApplyEntry(s2, es[2]) == Ok(s3);
    assert ApplyEntries(s0, es) == ApplyEntries(s1, es[1..]);
    assert es[1..][0] == es[1] && es[1..][1..] == es[2..];
    assert ApplyEntries(s1, es[1..]) == ApplyEntries(s2, es[2..]);
    assert es[2..][0] == es[2] && es[2..][1..] == es[3..];
    assert ApplyEntries(s2, es[2..]) == ApplyEntries(s3, es[3..]);
    if state.endpoint.Some? {
      EndpointRoundTrip(s3, state.endpoint.value);
      assert es[3..] == [EncodeEndpoint(state.endpoint.value)];
    }
  }

  lemma StateEntriesAreEncodable(state: PeerState)
    requires state.timeline.bpm > 0.0
    ensures forall e | e in EncodePeerState(state) :: Encodable(e) && e.value != []
  {}

  /**
   Decoding an encoded state returns it, with the tempo quantised, also when
   entries with unknown keys stand anywhere among its own.
   */
  lemma PeerStateRoundTrip(state: PeerState, es: seq<Entry>)
    requires Sendable(state)
    requires forall e | e in es :: Encodable(e) && e.value != []
    requires KnownOnly(es) == EncodePeerState(state)
    ensures DecodePeerState(state.nodeId, EncodeEntries(es)) == Ok(state.(timeline := OnTheWire(state.timeline)))
  {
    EntriesRoundTrip(es);
    NothingEmpty(es);
    UnknownEntriesAreIgnored(InitialPeerState(state.nodeId), es);
    EntriesOfStateDecode(state);
  }

  /** The message a node announces its state with parses back to that state. */
  lemma AnnouncementRoundTrip(state: PeerState, msgType: byte)
    requires Sendable(state)
    ensures var data := EncodeDiscoveryMessage(msgType, 5, 0, state.nodeId.bytes, EncodePeerState(state));
      && ParseDiscoveryMessage(data).Ok?
      && ParseDiscoveryMessage(data).value.0 == DiscoveryHeader(msgType, 5, 0, state.nodeId.bytes)
      && DecodePeerState(state.nodeId, ParseDiscoveryMessage(data).value.1) == Ok(state.(timeline := OnTheWire(state.timeline)))
  {
    var es := EncodePeerState(state);
    DiscoveryRoundTrip(msgType, 5, 0, state.nodeId.bytes, es);
    StateEntriesAreEncodable(state);
    AllKnown(es);
    hide ParseDiscoveryMessage, EncodeDiscoveryMessage, DecodePeerState, EncodeEntries;
    PeerStateRoundTrip(state, es);
  }

  /** An announcement stays far below the size limit, so encoding it never panics. */
  lemma AnnouncementFits(state: PeerState, msgType: byte)
    requires state.timeline.bpm > 0.0
    ensures |EncodeDiscoveryMessage(msgType, 5, 0, state.nodeId.bytes, EncodePeerState(state))| <= 107 < MAX_MESSAGE_SIZE
  {
    var es := EncodePeerState(state);
    hide BigEndian, MicrosPerBeat, EncodeEntries;
    EncodedLength(es);
    assert |es[0].value| == 24 && |es[1].value| == 8 && |es[2].value| == 17;
    assert es[1..][1..] == es[2..] && es[2..][1..] == es[3..];
    assert TotalLength(es) == 32 + TotalLength(es[1..]);
    assert TotalLength(es[1..]) == 16 + TotalLength(es[2..]);
    assert TotalLength(es[2..]) == 25 + TotalLength(es[3..]);
    if state.endpoint.Some? {
      assert es[3..] == [EncodeEndpoint(state.endpoint.value)];
    }
  }

  lemma {:induction false} AllKnown(es: seq<Entry>)
    requires forall e | e in es :: Known(e.key)
    ensures KnownOnly(es) == es
  {
    if es != [] {
      AllKnown(es[1..]);
    }
  }

  lemma {:induction false} EncodedLength(es: seq<Entry>)
    ensures |EncodeEntries(es)| <= TotalLength(es)
  {
    if es != [] {
      EncodedLength(es[1..]);
    }
  }

  function TotalLength(es: seq<Entry>): nat {
    if es == [] then 0 else 8 + |es[0].value| + TotalLength(es[1..])
  }
}
