/**
 The session engine as functions on its state (link/engine.go and the
 handlers of link/measurement.go).

 Core holds everything the handlers decide with. Timers and broadcast pacing
 are driven by the effects a handler logs (module Timers); class Engine is the
 imperative form and refines these functions. A handler's readings of clocks
 and random numbers come in as an Env.
 */
module Session {
  import opened Rounding
  import opened BeatGrid
  import opened Tempos
  import opened Timelines
  import opened Wire
  import opened NodeIds
  import opened PeerStates
  import opened Measurement

  const PEER_EXPIRY: int := 6000000        // advertised lifetime of 5 s plus 1 s of padding
  const SESSION_EPSILON: Micros := 500000
  const MAX_MEASURE_POINTS := 100
  const MAX_MEASURE_STARTS := 5

  type Quantum = q: Beats | q > 0 witness 1

  datatype ClientStartStop = ClientStartStop(isPlaying: bool, time: Micros, timestamp: Micros)

  /** A discovered peer, with the values last propagated from it. */
  datatype Peer = Peer(
    state: PeerState,
    expireAt: int,
    tlKnown: bool, tlSession: NodeId, tlPropagated: Timeline,
    ssKnown: bool, ssSession: NodeId, ssPropagated: StartStopState)

  const NEW_PEER := Peer(InitialPeerState(ZERO_ID), 0, false, ZERO_ID, NO_TIMELINE, false, ZERO_ID, NO_START_STOP)

  /** An in-flight measurement; its key in the engine is the session expected of the peer. */
  datatype Measurer = Measurer(target: Endpoint, points: seq<real>, started: nat)

  /** What one handler reads from the outside: wall clock, monotonic clock (in the order of use) and a random id. */
  datatype Env = Env(
    wall: int,
    ping: Micros,
    decide: Micros,
    update: Micros,
    found: Micros,
    settle: Micros,
    newId: NodeId)

  /** What the engine asks of its surroundings, in order. */
  datatype Effect =
    | Announce(wall: int, state: PeerState)
    | Respond(state: PeerState)
    | Leave(id: NodeId)
    | PingSent(sid: NodeId, target: Endpoint, host: Micros, prevGhost: Micros)
    | PongSent(target: Endpoint, message: Bytes)
    | ArmWatchdog(sid: NodeId)
    | DisarmWatchdog(sid: NodeId)
    | ArmRemeasure
    | Started(sid: NodeId)
    | Ended(sid: NodeId, ok: bool, samples: nat)
    | Forgot(sid: NodeId)
    | Founded(id: NodeId)
    | WatchdogRan(sid: NodeId)
    | RemeasureRan
    | BroadcastRan(wall: int, enabled: bool, state: PeerState)
    | TimerElapsed(timer: nat)
    | StaleTimer

  datatype Core = Core(
    self: Option<Endpoint>,
    nodeId: NodeId,
    sessionId: NodeId,
    timeline: Timeline,
    xform: GhostXForm,
    startStop: StartStopState,
    client: Timeline,
    clientStartStop: ClientStartStop,
    startStopSync: bool,
    enabled: bool,
    peers: map<NodeId, Peer>,
    others: map<NodeId, Timeline>,
    measurements: map<NodeId, Measurer>,
    peerNbr: nat,
    out: seq<Effect>)

  /** What every computation with timelines and ghost time relies on. */
  predicate Sound(c: Core) {
    && InRange(c.timeline.bpm)
    && InRange(c.client.bpm)
    && c.xform.slope == 1.0
  }

  function Emit(c: Core, e: Effect): Core {
    c.(out := c.out + [e])
  }

  function CurrentPeerState(c: Core): PeerState {
    PeerState(c.nodeId, c.sessionId, c.timeline, c.startStop, c.self)
  }

  /** The state of a node created with the given identifier and tempo at time now. */
  function InitialCore(self: Option<Endpoint>, id: NodeId, bpm: real, sync: bool, now: Micros): (c: Core)
    ensures Sound(c)
  {
    var xform := InitXForm(now);
    var timeline := ClampTempo(Timeline(bpm, 0, 0));
    var hostTime := xform.GhostToHost(0);
    Core(self, id, id, timeline, xform, NO_START_STOP, Timeline(timeline.bpm, timeline.beatOrigin, hostTime),
         ClientStartStop(false, hostTime, hostTime), sync, false, map[], map[], map[], 0, [])
  }

  function Broadcast(c: Core, wall: int): Core {
    if c.enabled then Emit(c, Announce(wall, CurrentPeerState(c))) else c
  }

  // ----- Session timing -----

  function StartStopToClient(ss: StartStopState, tl: Timeline, xform: GhostXForm): ClientStartStop
    requires Usable(tl.bpm) && xform.slope != 0.0
  {
    ClientStartStop(ss.isPlaying, xform.GhostToHost(tl.FromBeats(ss.beats)), xform.GhostToHost(ss.timestamp))
  }

  function UpdateSessionTiming(c: Core, newTimeline: Timeline, newXForm: GhostXForm, now: Micros): (r: Core)
    requires Sound(c) && newXForm.slope == 1.0
    ensures Sound(r) && r.measurements == c.measurements
  {
    var tl := ClampTempo(newTimeline);
    if c.timeline == tl && c.xform == newXForm then c
    else c.(
      timeline := tl,
      xform := newXForm,
      client := UpdateClientTimelineFromSession(c.client, tl, now, newXForm),
      clientStartStop :=
        if c.startStopSync && c.startStop != NO_START_STOP then StartStopToClient(c.startStop, tl, newXForm)
        else c.clientStartStop)
  }

  function HandleStartStop(c: Core, sid: NodeId, ss: StartStopState, env: Env): (r: Core)
    requires Sound(c)
    ensures Sound(r) && r.measurements == c.measurements
  {
    if sid != c.sessionId || ss.timestamp <= c.startStop.timestamp then c
    else
      var c1 := Broadcast(c.(startStop := ss), env.wall);
      if c.startStopSync && ss != NO_START_STOP
      then c1.(clientStartStop := StartStopToClient(ss, c.timeline, c.xform))
      else c1
  }

  // ----- Membership -----

  function Members(peers: map<NodeId, Peer>, sid: NodeId): set<NodeId> {
    set id | id in peers && peers[id].state.sessionId == sid
  }

  /** Founds a new session under a fresh identifier, keeping the client timeline continuous. */
  function ResetState(c: Core, env: Env): (r: Core)
    requires Sound(c)
    ensures Sound(r) && r.measurements == c.measurements
  {
    var founded := FoundedTimeline(c.timeline, c.xform, env.found);
    var c1 := c.(nodeId := env.newId, sessionId := env.newId, startStop := NO_START_STOP);
    var c2 := UpdateSessionTiming(c1, founded, InitXForm(env.found), env.settle);
    var c3 := Broadcast(c2, env.wall);
    Emit(c3.(others := map[], peers := map[]), Founded(env.newId))
  }

  function SessionMembershipChanged(c: Core, env: Env): (r: Core)
    requires Sound(c)
    ensures Sound(r) && r.measurements == c.measurements
  {
    var count := |Members(c.peers, c.sessionId)|;
    if count == c.peerNbr then c
    else
      var c1 := c.(peerNbr := count);
      if count == 0 then ResetState(c1, env) else c1
  }

  function RemovePeer(c: Core, id: NodeId, env: Env): (r: Core)
    requires Sound(c)
    ensures Sound(r) && r.measurements == c.measurements
  {
    if id in c.peers then SessionMembershipChanged(c.(peers := c.peers - {id}), env) else c
  }

  function Expired(peers: map<NodeId, Peer>, wall: int): set<NodeId> {
    set id | id in peers && wall > peers[id].expireAt
  }

  function PrunePeers(c: Core, env: Env): (r: Core)
    requires Sound(c)
    ensures Sound(r) && r.measurements == c.measurements
  {
    var expired := Expired(c.peers, env.wall);
    if expired == {} then c else SessionMembershipChanged(c.(peers := c.peers - expired), env)
  }

  // ----- Sessions -----

  /** Whether a session measured with xform is joined in preference to the current one. */
  predicate Wins(sid: NodeId, xform: GhostXForm, curId: NodeId, cur: GhostXForm, now: Micros) {
    var ghostDiff := xform.HostToGhost(now) - cur.HostToGhost(now);
    ghostDiff > SESSION_EPSILON || (Abs(ghostDiff) < SESSION_EPSILON && Less(sid, curId))
  }

  predicate IsResult(xform: GhostXForm) {
    xform == ZERO_XFORM || xform.slope == 1.0
  }

  function ScheduleRemeasure(c: Core): Core {
    Emit(c, ArmRemeasure)
  }

  /** Switches to another observed session, remembering the one left. */
  function SwitchSession(c: Core, sid: NodeId, xform: GhostXForm, env: Env): (r: Core)
    requires Sound(c) && xform.slope == 1.0 && sid in c.others
    ensures Sound(r) && r.measurements == c.measurements
  {
    var rest := c.others - {sid};
    var c1 := c.(
      others := if c.sessionId in rest then rest else rest[c.sessionId := c.timeline],
      sessionId := sid,
      startStop := NO_START_STOP);
    Broadcast(UpdateSessionTiming(c1, c.others[sid], xform, env.update), env.wall)
  }

  function JoinSession(c: Core, sid: NodeId, xform: GhostXForm, env: Env): (r: Core)
    requires Sound(c) && xform.slope == 1.0 && sid in c.others
    ensures Sound(r) && r.measurements == c.measurements
  {
    var c1 := SwitchSession(c, sid, xform, env);
    ScheduleRemeasure(SessionMembershipChanged(c1, env))
  }

  function HandleMeasurementResult(c: Core, sid: NodeId, xform: GhostXForm, env: Env): (r: Core)
    requires Sound(c) && IsResult(xform)
    ensures Sound(r) && r.measurements == c.measurements && (xform == ZERO_XFORM ==> r.peers == c.peers)
  {
    if sid == c.sessionId then
      var c1 := if xform == ZERO_XFORM then c
                else Broadcast(UpdateSessionTiming(c, c.timeline, xform, env.update), env.wall);
      ScheduleRemeasure(c1)
    else if sid !in c.others then c
    else if xform == ZERO_XFORM then Emit(c.(others := c.others - {sid}), Forgot(sid))
    else if Wins(sid, xform, c.sessionId, c.xform, env.decide) then JoinSession(c, sid, xform, env)
    else c
  }

  function StartMeasurement(c: Core, sid: NodeId, target: Endpoint, env: Env): (r: Core) {
    var c1 := Emit(c.(measurements := c.measurements[sid := Measurer(target, [], 0)]), Started(sid));
    Emit(Emit(c1, PingSent(sid, target, env.ping, 0)), ArmWatchdog(sid))
  }

  ghost predicate IsLeast(m: NodeId, ids: set<NodeId>) {
    m in ids && forall x | x in ids :: !Less(x, m)
  }

  lemma {:induction false} LeastExists(ids: set<NodeId>)
    requires ids != {}
    ensures exists m :: IsLeast(m, ids)
  {
    var x :| x in ids;
    var rest := ids - {x};
    assert forall y | y in ids :: y == x || y in rest;
    if rest == {} {
      assert IsLeast(x, ids);
    } else {
      LeastExists(rest);
      var m :| IsLeast(m, rest);
      assert IsLeast(if Less(x, m) then x else m, ids);
    }
  }

  lemma LeastIsUnique(m: NodeId, n: NodeId, ids: set<NodeId>)
    requires IsLeast(m, ids) && IsLeast(n, ids)
    ensures m == n
  {
    ValueIsInjective(m, n);
  }

  /** The founder of a session if it is among the peers in it, otherwise the one with the least identifier. */
  ghost function Chosen(sid: NodeId, candidates: set<NodeId>): (r: NodeId)
    requires candidates != {}
    ensures r in candidates
  {
    if sid in candidates then sid
    else
      LeastExists(candidates);
      var m :| IsLeast(m, candidates); m
  }

  ghost function LaunchMeasurement(c: Core, sid: NodeId, env: Env): (r: Core)
    requires Sound(c)
    ensures Sound(r) && r.peers == c.peers
  {
    var candidates := Members(c.peers, sid);
    if sid in c.measurements then c
    else if candidates == {} then c.(others := c.others - {sid})
    else
      match c.peers[Chosen(sid, candidates)].state.endpoint
      case None => HandleMeasurementResult(c, sid, ZERO_XFORM, env)
      case Some(target) => StartMeasurement(c, sid, target, env)
  }

  ghost function SawSessionTimeline(c: Core, sid: NodeId, tl: Timeline, env: Env): (r: Core)
    requires Sound(c)
    ensures Sound(r) && r.peers == c.peers
  {
    if sid == c.sessionId then
      var c1 := if tl.beatOrigin > c.timeline.beatOrigin then UpdateSessionTiming(c, tl, c.xform, env.update) else c;
      Broadcast(c1, env.wall)
    else if sid in c.others then
      if tl.beatOrigin > c.others[sid].beatOrigin then c.(others := c.others[sid := tl]) else c
    else
      LaunchMeasurement(c.(others := c.others[sid := tl]), sid, env)
  }

  predicate TimelineChanged(p: Peer, state: PeerState) {
    !p.tlKnown || p.tlSession != state.sessionId || p.tlPropagated != state.timeline
  }

  predicate StartStopChanged(p: Peer, state: PeerState) {
    !p.ssKnown || p.ssSession != state.sessionId || p.ssPropagated != state.startStop
  }

  /** The entry of a peer after an announcement, its timeline taken over when it is to be propagated. */
  function NotedPeer(before: Peer, state: PeerState, env: Env, propagate: bool): Peer {
    var p := before.(state := state, expireAt := env.wall + PEER_EXPIRY);
    if propagate then p.(tlKnown := true, tlSession := state.sessionId, tlPropagated := state.timeline) else p
  }

  function EntryOf(c: Core, id: NodeId): Peer {
    if id in c.peers then c.peers[id] else NEW_PEER
  }

  /**
   Records an announcement and propagates its timeline. The engine leaves out
   unchanged timelines; filtered = false is the engine without that filter.
   */
  ghost function NoteTimeline(c: Core, id: NodeId, state: PeerState, env: Env, filtered: bool): (r: Core)
    requires Sound(c)
    ensures Sound(r) && id in r.peers
  {
    var propagate := !filtered || TimelineChanged(EntryOf(c, id), state);
    var c1 := c.(peers := c.peers[id := NotedPeer(EntryOf(c, id), state, env, propagate)]);
    if propagate then SawSessionTimeline(c1, state.sessionId, state.timeline, env) else c1
  }

  /** Propagates the start/stop state of a recorded announcement when it changed. */
  function NoteStartStop(c: Core, id: NodeId, state: PeerState, env: Env): (r: Core)
    requires Sound(c) && id in c.peers
    ensures Sound(r) && r.measurements == c.measurements
  {
    if StartStopChanged(c.peers[id], state) then
      var p := c.peers[id].(ssKnown := true, ssSession := state.sessionId, ssPropagated := state.startStop);
      HandleStartStop(c.(peers := c.peers[id := p]), state.sessionId, state.startStop, env)
    else c
  }

  /** Whether a peer is new or moved into, out of or between sessions. */
  predicate MembershipMoved(c: Core, id: NodeId, state: PeerState, sessionAfter: NodeId) {
    || id !in c.peers
    || c.peers[id].state.sessionId != state.sessionId
    || (c.peers[id].state.sessionId == c.sessionId) != (state.sessionId == sessionAfter)
  }

  /** A peer announced its state. */
  ghost function SawPeerState(c: Core, id: NodeId, state: PeerState, env: Env, filtered: bool): (r: Core)
    requires Sound(c)
    ensures Sound(r)
  {
    var c1 := NoteTimeline(c, id, state, env, filtered);
    var c2 := NoteStartStop(c1, id, state, env);
    if MembershipMoved(c, id, state, c2.sessionId) then SessionMembershipChanged(c2, env) else c2
  }

  // ----- Measurements in flight -----

  function FinishMeasurement(c: Core, sid: NodeId, xform: GhostXForm, env: Env): (r: Core)
    requires Sound(c) && IsResult(xform) && sid in c.measurements
    ensures Sound(r)
  {
    var samples := |c.measurements[sid].points|;
    var c1 := Emit(c, DisarmWatchdog(sid)).(measurements := c.measurements - {sid});
    HandleMeasurementResult(Emit(c1, Ended(sid, xform != ZERO_XFORM, samples)), sid, xform, env)
  }

  function HandlePong(c: Core, sid: NodeId, pong: Result<Pong>, env: Env): (r: Core)
    requires Sound(c) && sid in c.measurements
    ensures Sound(r)
  {
    if pong.Err? || pong.value.sessionId != sid then FinishMeasurement(c, sid, ZERO_XFORM, env)
    else
      var m := c.measurements[sid];
      var c1 := Emit(c, PingSent(sid, m.target, env.ping, pong.value.ghostTime));
      var points := m.points + Samples(pong.value, env.ping);
      var c2 := c1.(measurements := c1.measurements[sid := m.(points := points)]);
      if |points| > MAX_MEASURE_POINTS
      then FinishMeasurement(c2, sid, GhostXForm(1.0, Llround(Median(points))), env)
      else Emit(Emit(c2, DisarmWatchdog(sid)), ArmWatchdog(sid))
  }

  function WatchdogFired(c: Core, sid: NodeId, env: Env): (r: Core)
    requires Sound(c)
    ensures Sound(r)
  {
    var c1 := Emit(c, WatchdogRan(sid));
    if sid !in c.measurements then c1
    else
      var m := c.measurements[sid];
      if m.started < MAX_MEASURE_STARTS then
        var c2 := Emit(c1, PingSent(sid, m.target, env.ping, 0));
        Emit(c2.(measurements := c2.measurements[sid := m.(started := m.started + 1)]), ArmWatchdog(sid))
      else FinishMeasurement(c1, sid, ZERO_XFORM, env)
  }

  ghost function RemeasureFired(c: Core, env: Env): (r: Core)
    requires Sound(c)
    ensures Sound(r)
  {
    ScheduleRemeasure(LaunchMeasurement(Emit(c, RemeasureRan), c.sessionId, env))
  }

  // ----- Client commands -----

  /** Optimistic caching: the peers of our session are taken to have the committed timeline already. */
  function CacheTimeline(peers: map<NodeId, Peer>, sid: NodeId, tl: Timeline): map<NodeId, Peer> {
    map id | id in peers ::
      if peers[id].state.sessionId == sid
      then peers[id].(state := peers[id].state.(timeline := tl), tlPropagated := tl)
      else peers[id]
  }

  function CommitClientTimeline(c: Core, at: Micros, env: Env): (r: Core)
    requires Sound(c)
    ensures Sound(r) && r.measurements == c.measurements
  {
    var tl := UpdateSessionTimelineFromClient(c.timeline, c.client, at, c.xform);
    var c1 := UpdateSessionTiming(c, tl, c.xform, env.update);
    Broadcast(c1.(peers := CacheTimeline(c1.peers, c1.sessionId, c1.timeline)), env.wall)
  }

  function ApplyTempoChange(c: Core, bpm: real, at: Micros, env: Env): (r: Core)
    requires Sound(c)
    ensures Sound(r)
  {
    TempoChangeKeepsBeat(c.client, bpm, at);
    CommitClientTimeline(c.(client := WithTempo(c.client, bpm, at)), at, env)
  }

  function ApplyForceBeatAtTime(c: Core, beat: Beats, at: Micros, quantum: Quantum, env: Env): (r: Core)
    requires Sound(c)
    ensures Sound(r)
  {
    ForcedBeatWithRetry(c.client, beat, at, quantum);
    CommitClientTimeline(c.(client := ForceBeatWithRetry(c.client, beat, at, quantum)), at, env)
  }

  /** When others are in the session, the request waits for the next time whose phase matches the beat. */
  function RequestedTime(c: Core, beat: Beats, at: Micros, quantum: Quantum): Micros
    requires Sound(c)
  {
    if c.peerNbr > 0 then
      FromPhaseEncodedBeats(c.client, NextPhaseMatch(ToPhaseEncodedBeats(c.client, at, quantum), beat, quantum), quantum)
    else at
  }

  function ApplyRequestBeatAtTime(c: Core, beat: Beats, at: Micros, quantum: Quantum, env: Env): (r: Core)
    requires Sound(c)
    ensures Sound(r)
  {
    ApplyForceBeatAtTime(c, beat, RequestedTime(c, beat, at, quantum), quantum, env)
  }

  function ApplyPlayingChange(c: Core, playing: bool, at: Micros, env: Env): (r: Core)
    requires Sound(c)
    ensures Sound(r)
  {
    var c1 := if at >= c.clientStartStop.timestamp then c.(clientStartStop := ClientStartStop(playing, at, at)) else c;
    var ghostAt := c.xform.HostToGhost(at);
    if c.startStopSync && ghostAt > c.startStop.timestamp then
      Broadcast(c1.(startStop := StartStopState(playing, c.timeline.ToBeats(ghostAt), ghostAt)), env.wall)
    else c1
  }

  function SetEnabled(c: Core, on: bool, env: Env): (r: Core)
    requires Sound(c)
    ensures Sound(r)
  {
    hide ResetState;
    if on == c.enabled then c
    else if on then
      var c1 := ResetState(c.(enabled := true), env);
      Broadcast(c1, env.wall)
    else
      var c1 := Emit(c.(enabled := false), Leave(c.nodeId));
      c1.(peers := map[], others := map[], peerNbr := 0)
  }

  // ----- Events and runs -----

  datatype Event =
    | Alive(id: NodeId, announced: Result<PeerState>)
    | Response(id: NodeId, announced: Result<PeerState>)
    | ByeBye(id: NodeId)
    | PruneTick
    | BroadcastTick
    | PingReceived(from: Endpoint, payload: Bytes)
    | PongReceived(sid: NodeId, pong: Result<Pong>)
    | WatchdogDue(sid: NodeId)
    | RemeasureDue
    | BroadcastDue
    | Elapse(timer: nat)
    | StaleDue
    | SetTempo(bpm: real, at: Micros)
    | ForceBeat(beat: Beats, at: Micros, quantum: Quantum)
    | RequestBeat(beat: Beats, at: Micros, quantum: Quantum)
    | SetPlaying(playing: bool, at: Micros)
    | Enable(on: bool)
    | SetSync(on: bool)

  ghost function Discovered(c: Core, id: NodeId, announced: Result<PeerState>, env: Env, filtered: bool): (r: Core)
    requires Sound(c)
    ensures Sound(r)
  {
    match announced
    case Ok(state) => SawPeerState(c, id, state.(nodeId := id), env, filtered)
    case Err => c
  }

  ghost function Step(c: Core, e: Event, env: Env, filtered: bool): (r: Core)
    requires Sound(c)
    ensures Sound(r)
  {
    match e
    case Alive(id, announced) =>
      if id == c.nodeId || !c.enabled then c
      else
        var c1 := Discovered(c, id, announced, env, filtered);
        Emit(c1, Respond(CurrentPeerState(c1)))
    case Response(id, announced) =>
      if id == c.nodeId || !c.enabled then c else Discovered(c, id, announced, env, filtered)
    case ByeBye(id) => if id == c.nodeId then c else RemovePeer(c, id, env)
    case PruneTick => PrunePeers(c, env)
    case BroadcastTick => Broadcast(c, env.wall)
    case PingReceived(from, payload) =>
      if c.enabled then Emit(c, PongSent(from, PongMessage(c.sessionId, c.xform.HostToGhost(env.ping), payload))) else c
    case PongReceived(sid, pong) =>
      if c.enabled && sid in c.measurements then HandlePong(c, sid, pong, env) else c
    case WatchdogDue(sid) => WatchdogFired(c, sid, env)
    case RemeasureDue => RemeasureFired(c, env)
    case BroadcastDue => Emit(c, BroadcastRan(env.wall, c.enabled, CurrentPeerState(c)))
    case Elapse(timer) => Emit(c, TimerElapsed(timer))
    case StaleDue => Emit(c, StaleTimer)
    case SetTempo(bpm, at) => ApplyTempoChange(c, bpm, at, env)
    case ForceBeat(beat, at, quantum) => ApplyForceBeatAtTime(c, beat, at, quantum, env)
    case RequestBeat(beat, at, quantum) => ApplyRequestBeatAtTime(c, beat, at, quantum, env)
    case SetPlaying(playing, at) => ApplyPlayingChange(c, playing, at, env)
    case Enable(on) => SetEnabled(c, on, env)
    case SetSync(on) => c.(startStopSync := on)
  }

  /** The handlers behind the events of measurements, timers and transport. */
  lemma StepIs(c: Core, e: Event, env: Env, filtered: bool)
    requires Sound(c)
    ensures e.PongReceived? && c.enabled && e.sid in c.measurements ==> Step(c, e, env, filtered) == HandlePong(c, e.sid, e.pong, env)
    ensures e.WatchdogDue? ==> Step(c, e, env, filtered) == WatchdogFired(c, e.sid, env)
    ensures e.RemeasureDue? ==> Step(c, e, env, filtered) == RemeasureFired(c, env)
    ensures e.SetPlaying? ==> Step(c, e, env, filtered) == ApplyPlayingChange(c, e.playing, e.at, env)
    ensures e.Enable? ==> Step(c, e, env, filtered) == SetEnabled(c, e.on, env)
  {
    hide HandlePong, WatchdogFired, RemeasureFired, ApplyPlayingChange, SetEnabled, InRange, Usable;
  }

  datatype Occurrence = Occurrence(event: Event, env: Env)

  ghost function Run(c: Core, occurrences: seq<Occurrence>, filtered: bool): (r: Core)
    requires Sound(c)
    ensures Sound(r)
    decreases |occurrences|
  {
    if occurrences == [] then c
    else
      var last := |occurrences| - 1;
      Step(Run(c, occurrences[..last], filtered), occurrences[last].event, occurrences[last].env, filtered)
  }
}
