/**
 Nodes of one session converge (link/engine.go:459-467, 660-671): over a
 network that reorders, loses and duplicates announcements, with commits at
 any time.
 */
module Convergence {
  import opened Rounding
  import opened BeatGrid
  import opened Tempos
  import opened Timelines
  import opened Wire
  import opened NodeIds
  import opened PeerStates
  import opened Measurement
  import opened Session
  import opened Bookkeeping

  /** What two nodes must agree on to play together. */
  datatype Grid = Grid(microsPerBeat: int, beatOrigin: Beats, timeOrigin: Micros)

  /** The grid of a timeline; one without a tempo has no length of a beat. */
  function GridOf(tl: Timeline): (g: Grid)
    ensures g.beatOrigin == tl.beatOrigin
  {
    Grid(if tl.bpm > 0.0 then MicrosPerBeat(tl.bpm) else 0, tl.beatOrigin, tl.timeOrigin)
  }

  /** A timeline whose grid survives the clamping a receiver does. */
  ghost predicate Relayable(tl: Timeline) {
    Usable(tl.bpm) && GridOf(ClampTempo(tl)) == GridOf(tl)
  }

  lemma WireIsRelayable(tl: Timeline)
    requires InRange(tl.bpm)
    ensures Relayable(OnTheWire(tl)) && GridOf(OnTheWire(tl)) == GridOf(tl)
  {
    InRangeMicros(tl.bpm);
    TempoOfMicrosExact(MicrosPerBeat(tl.bpm));
    WireTempoIsFixpoint(tl.bpm);
    hide MicrosPerBeat;
  }

  // ----- One node -----

  /** No timeline propagated from a peer for the node's session is newer than the one the node holds. */
  ghost predicate Current(c: Core) {
    forall id | id in c.peers && c.peers[id].tlKnown && c.peers[id].tlSession == c.sessionId ::
      c.peers[id].tlPropagated.beatOrigin <= c.timeline.beatOrigin
  }

  /** A node that takes part in the session, whatever peers and other sessions it knows. */
  ghost predicate InSession(c: Core, sid: NodeId) {
    c.sessionId == sid && Current(c)
  }

  /** The node is still in its session: it neither joined another nor founded one. */
  ghost predicate Stays(c: Core, r: Core, env: Env) {
    r.sessionId == c.sessionId && r.nodeId == c.nodeId && env.newId != c.nodeId
  }

  lemma SameCurrent(c: Core, r: Core)
    requires Current(c) && r.sessionId == c.sessionId && r.timeline == c.timeline && r.peers.Keys <= c.peers.Keys
    requires forall id | id in r.peers ::
      && r.peers[id].tlKnown == c.peers[id].tlKnown && r.peers[id].tlSession == c.peers[id].tlSession
      && r.peers[id].tlPropagated == c.peers[id].tlPropagated
    ensures Current(r)
  {}

  /** A recount leaves everything but the count, or founds a session, which it does not while the session has peers. */
  lemma RecountStays(c: Core, env: Env)
    requires Sound(c)
    ensures var r := SessionMembershipChanged(c, env);
      && (r == c.(peerNbr := r.peerNbr) || r.nodeId == env.newId)
      && (Members(c.peers, c.sessionId) != {} ==> r == c.(peerNbr := r.peerNbr))
  {
    hide ResetState, Members, InRange, Usable;
    ResetKeeps(c.(peerNbr := 0), env);
  }

  // ----- Hearing an announcement -----

  /** The engine's own session is seen with a timeline. */
  lemma SeenInSession(c: Core, tl: Timeline, env: Env)
    requires Sound(c)
    ensures var r := SawSessionTimeline(c, c.sessionId, tl, env);
      && r == c.(timeline := r.timeline, client := r.client, clientStartStop := r.clientStartStop, out := r.out)
      && (r.timeline == c.timeline || r.timeline == ClampTempo(tl))
      && r.timeline.beatOrigin >= c.timeline.beatOrigin && r.timeline.beatOrigin >= tl.beatOrigin
  {
    hide InRange, Usable, CurrentPeerState, LaunchMeasurement;
    TimingKeeps(c, tl, c.xform, env.update);
    hide UpdateSessionTiming;
  }

  /** What a failed measurement or a launched one leaves of the node. */
  ghost predicate SameSession(c: Core, r: Core) {
    && r.timeline == c.timeline && r.sessionId == c.sessionId && r.nodeId == c.nodeId && r.peers == c.peers
    && r.startStop == c.startStop
  }

  lemma FailureStays(c: Core, sid: NodeId, env: Env)
    requires Sound(c)
    ensures SameSession(c, HandleMeasurementResult(c, sid, ZERO_XFORM, env))
  {
    hide InRange, Usable, UpdateSessionTiming, JoinSession, Wins;
  }

  lemma LaunchStays(c: Core, sid: NodeId, env: Env)
    requires Sound(c)
    ensures SameSession(c, LaunchMeasurement(c, sid, env))
  {
    hide InRange, Usable, HandleMeasurementResult, Chosen, Members;
    FailureStays(c, sid, env);
  }

  /** Another session is seen with a timeline. */
  lemma SeenElsewhere(c: Core, sid: NodeId, tl: Timeline, env: Env)
    requires Sound(c) && sid != c.sessionId
    ensures SameSession(c, SawSessionTimeline(c, sid, tl, env))
  {
    hide InRange, Usable, LaunchMeasurement;
    LaunchStays(c.(others := c.others[sid := tl]), sid, env);
  }

  /** An announcement is noted: the node's timeline is kept or, in its own session, replaced by the announced one if that is newer. */
  ghost predicate Noted(c: Core, r: Core, state: PeerState) {
    && r.sessionId == c.sessionId && r.nodeId == c.nodeId && Current(r)
    && (r.timeline == c.timeline || (state.sessionId == c.sessionId && r.timeline == ClampTempo(state.timeline)))
    && r.timeline.beatOrigin >= c.timeline.beatOrigin
    && (state.sessionId == c.sessionId ==> r.timeline.beatOrigin >= state.timeline.beatOrigin)
    && state.nodeId in r.peers && r.peers[state.nodeId].state == state
  }

  lemma ReplacedStaysCurrent(c: Core, r: Core, id: NodeId, p: Peer)
    requires Current(c) && r.sessionId == c.sessionId && r.peers == c.peers[id := p] && r.timeline.beatOrigin >= c.timeline.beatOrigin
    requires p.tlKnown && p.tlSession == c.sessionId ==> p.tlPropagated.beatOrigin <= r.timeline.beatOrigin
    ensures Current(r)
  {}

  lemma NoteInSession(c: Core, state: PeerState, env: Env)
    requires Sound(c) && Current(c)
    ensures Noted(c, NoteTimeline(c, state.nodeId, state, env, true), state)
  {
    hide InRange, Usable, Current, SawSessionTimeline, ClampTempo;
    var id, before := state.nodeId, EntryOf(c, state.nodeId);
    var p := NotedPeer(before, state, env, TimelineChanged(before, state));
    var c1, r := c.(peers := c.peers[id := p]), NoteTimeline(c, id, state, env, true);
    if TimelineChanged(before, state) {
      if state.sessionId == c.sessionId {
        SeenInSession(c1, state.timeline, env);
      } else {
        SeenElsewhere(c1, state.sessionId, state.timeline, env);
      }
    } else if state.sessionId == c.sessionId {
      KnownIsOlder(c, id);
    }
    ReplacedStaysCurrent(c, r, id, p);
  }

  lemma KnownIsOlder(c: Core, id: NodeId)
    requires Current(c) && id in c.peers && c.peers[id].tlKnown && c.peers[id].tlSession == c.sessionId
    ensures c.peers[id].tlPropagated.beatOrigin <= c.timeline.beatOrigin
  {}

  lemma StartStopStays(c: Core, c1: Core, state: PeerState, env: Env)
    requires Sound(c1) && Noted(c, c1, state)
    ensures Noted(c, NoteStartStop(c1, state.nodeId, state, env), state)
  {
    hide InRange, Usable, Current, HandleStartStop;
    var p := c1.peers[state.nodeId].(ssKnown := true, ssSession := state.sessionId, ssPropagated := state.startStop);
    StartStopKeeps(c1.(peers := c1.peers[state.nodeId := p]), state.sessionId, state.startStop, env);
    SameCurrent(c1, NoteStartStop(c1, state.nodeId, state, env));
  }

  /**
   An announcement is heard: unless the node founds a session, its timeline is
   kept or replaced by the announced one, and is at least as new as both. It
   cannot found one when the announcement is from its own session.
   */
  lemma HearKeeps(c: Core, state: PeerState, env: Env)
    requires Sound(c) && Current(c)
    ensures var r := SawPeerState(c, state.nodeId, state, env, true);
      && (Noted(c, r, state) || r.nodeId == env.newId)
      && (state.sessionId == c.sessionId ==> Noted(c, r, state))
  {
    hide InRange, Usable, Current, NoteTimeline, NoteStartStop, SessionMembershipChanged, ClampTempo, Members;
    NoteInSession(c, state, env);
    var c1 := NoteTimeline(c, state.nodeId, state, env, true);
    StartStopStays(c, c1, state, env);
    var c2 := NoteStartStop(c1, state.nodeId, state, env);
    RecountStays(c2, env);
    MemberOf(c2.peers, state.nodeId);
    SameCurrent(c2, c2.(peerNbr := SessionMembershipChanged(c2, env).peerNbr));
  }

  // ----- Everything else a node does -----

  lemma CommandKeepsSession(c: Core, e: Event, env: Env)
    requires Sound(c) && Current(c) && (e.SetTempo? || e.ForceBeat? || e.RequestBeat?)
    ensures var r := Step(c, e, env, true);
      Current(r) && r.sessionId == c.sessionId && r.timeline.beatOrigin >= c.timeline.beatOrigin
  {
    hide Step, Clean, InRange, Usable;
    CommandCommits(c, e, env, true);
  }

  /** Unless the node founds a session, r is c with the same session and timeline, and perhaps fewer peers. */
  ghost predicate Undisturbed(c: Core, r: Core, env: Env) {
    Stays(c, r, env) ==> r.timeline == c.timeline && (r.peers == c.peers || r.peers == map[]) && r.startStop == c.startStop
  }

  lemma ResultStays(c: Core, sid: NodeId, xform: GhostXForm, env: Env)
    requires Sound(c) && IsResult(xform)
    ensures Undisturbed(c, HandleMeasurementResult(c, sid, xform, env), env)
  {
    hide InRange, Usable, UpdateSessionTiming, SwitchSession, SessionMembershipChanged, CurrentPeerState, Wins, ClampTempo;
    if sid == c.sessionId && xform != ZERO_XFORM {
      TimingKeeps(c, c.timeline, xform, env.update);
      ClampKeepsInRange(c.timeline);
    } else if sid != c.sessionId && sid in c.others && xform != ZERO_XFORM {
      SwitchMoves(c, sid, xform, env);
      RecountStays(SwitchSession(c, sid, xform, env), env);
    }
  }

  lemma ClampKeepsInRange(tl: Timeline)
    requires InRange(tl.bpm)
    ensures ClampTempo(tl) == tl
  {}

  /** Switching moves the node to the other session with its timeline there, the peers unchanged. */
  lemma SwitchMoves(c: Core, sid: NodeId, xform: GhostXForm, env: Env)
    requires Sound(c) && xform.slope == 1.0 && sid in c.others
    ensures var r := SwitchSession(c, sid, xform, env);
      && r.sessionId == sid && r.peers == c.peers && r.timeline == ClampTempo(c.others[sid])
      && (sid != c.sessionId ==> c.sessionId in r.others)
  {
    hide InRange, Usable, UpdateSessionTiming, CurrentPeerState, ClampTempo;
    var rest := c.others - {sid};
    var c1 := c.(others := if c.sessionId in rest then rest else rest[c.sessionId := c.timeline], sessionId := sid, startStop := NO_START_STOP);
    TimingKeeps(c1, c.others[sid], xform, env.update);
  }

  lemma FinishStays(c: Core, sid: NodeId, xform: GhostXForm, env: Env)
    requires Sound(c) && IsResult(xform) && sid in c.measurements
    ensures Undisturbed(c, FinishMeasurement(c, sid, xform, env), env)
  {
    hide InRange, Usable, HandleMeasurementResult;
    var c1 := Emit(c, DisarmWatchdog(sid)).(measurements := c.measurements - {sid});
    ResultStays(Emit(c1, Ended(sid, xform != ZERO_XFORM, |c.measurements[sid].points|)), sid, xform, env);
  }

  lemma PongStays(c: Core, sid: NodeId, pong: Result<Pong>, env: Env)
    requires Sound(c) && sid in c.measurements
    ensures Undisturbed(c, HandlePong(c, sid, pong, env), env)
  {
    hide InRange, Usable, FinishMeasurement, Samples, Median, Llround;
    if pong.Err? || pong.value.sessionId != sid {
      FinishStays(c, sid, ZERO_XFORM, env);
    } else {
      var m := c.measurements[sid];
      var points := m.points + Samples(pong.value, env.ping);
      var c1 := Emit(c, PingSent(sid, m.target, env.ping, pong.value.ghostTime)).(measurements := c.measurements[sid := m.(points := points)]);
      if |points| > MAX_MEASURE_POINTS {
        FinishStays(c1, sid, GhostXForm(1.0, Llround(Median(points))), env);
      }
    }
  }

  lemma MeasuringStays(c: Core, e: Event, env: Env)
    requires Sound(c) && (e.PongReceived? || e.WatchdogDue? || e.RemeasureDue?)
    ensures Undisturbed(c, Step(c, e, env, true), env)
  {
    hide InRange, Usable, LaunchMeasurement, FinishMeasurement, HandlePong;
    if e.RemeasureDue? {
      LaunchStays(Emit(c, RemeasureRan), c.sessionId, env);
    } else if e.sid in c.measurements {
      if e.PongReceived? {
        PongStays(c, e.sid, e.pong, env);
      } else {
        FinishStays(Emit(c, WatchdogRan(e.sid)), e.sid, ZERO_XFORM, env);
      }
    }
  }

  lemma RemovalStays(c: Core, ids: set<NodeId>, env: Env)
    requires Sound(c) && Current(c)
    ensures var r := SessionMembershipChanged(c.(peers := c.peers - ids), env);
      r.nodeId == env.newId || (Current(r) && r.timeline == c.timeline)
  {
    hide InRange, Usable, SessionMembershipChanged, Current;
    var c1 := c.(peers := c.peers - ids);
    RecountStays(c1, env);
    SameCurrent(c, c1.(peerNbr := SessionMembershipChanged(c1, env).peerNbr));
  }

  lemma PlayingIsIdle(c: Core, playing: bool, at: Micros, env: Env)
    requires Sound(c)
    ensures var r := ApplyPlayingChange(c, playing, at, env);
      r.timeline == c.timeline && r.sessionId == c.sessionId && r.nodeId == c.nodeId && r.peers == c.peers
  {
    hide ApplyPlayingChange, Clean, InRange, Usable;
    PlayingForm(c, playing, at, env);
  }

  lemma IdleStays(c: Core, e: Event, env: Env)
    requires Sound(c)
    requires e.BroadcastTick? || e.PingReceived? || e.BroadcastDue? || e.Elapse? || e.StaleDue? || e.SetSync? || e.Enable?
    ensures Undisturbed(c, Step(c, e, env, true), env)
  {
    hide InRange, Usable, CurrentPeerState, PongMessage, GhostXForm.HostToGhost, ResetState, ApplyPlayingChange, SawPeerState,
      SessionMembershipChanged, HandlePong, WatchdogFired, RemeasureFired, CommitClientTimeline;
    if e.Enable? {
      ResetKeeps(c.(enabled := true), env);
    }
  }

  /** An announcement of the node's own session that it will hear. */
  predicate HearsOwnSession(c: Core, e: Event) {
    (e.Alive? || e.Response?) && c.enabled && e.id != c.nodeId && e.announced.Ok? && e.announced.value.sessionId == c.sessionId
  }

  /** Whatever else happens to a node, announcements of other sessions included: while it stays, its timeline does. */
  lemma AttendKeeps(c: Core, e: Event, env: Env)
    requires Sound(c) && Current(c) && Stays(c, Step(c, e, env, true), env)
    requires !(e.SetTempo? || e.ForceBeat? || e.RequestBeat?) && !HearsOwnSession(c, e)
    ensures var r := Step(c, e, env, true); Current(r) && r.timeline == c.timeline
  {
    hide InRange, Usable, Current, Step, ApplyPlayingChange;
    if e.Alive? || e.Response? {
      HearElsewhere(c, e, env);
    } else if e.ByeBye? || e.PruneTick? {
      LoseStays(c, e, env);
    } else {
      if e.PongReceived? || e.WatchdogDue? || e.RemeasureDue? {
        MeasuringStays(c, e, env);
      } else if e.SetPlaying? {
        StepIs(c, e, env, true);
        PlayingIsIdle(c, e.playing, e.at, env);
      } else {
        IdleStays(c, e, env);
      }
      SameCurrent(c, Step(c, e, env, true));
    }
  }

  lemma HearElsewhere(c: Core, e: Event, env: Env)
    requires Sound(c) && Current(c) && (e.Alive? || e.Response?) && !HearsOwnSession(c, e) && Stays(c, Step(c, e, env, true), env)
    ensures var r := Step(c, e, env, true); Current(r) && r.timeline == c.timeline
  {
    hide InRange, Usable, Current, SawPeerState, CurrentPeerState, ClampTempo;
    if e.id != c.nodeId && c.enabled && e.announced.Ok? {
      HearKeeps(c, e.announced.value.(nodeId := e.id), env);
      SameCurrent(Discovered(c, e.id, e.announced, env, true), Step(c, e, env, true));
    }
    SameCurrent(c, Emit(c, Respond(CurrentPeerState(c))));
  }

  lemma LoseStays(c: Core, e: Event, env: Env)
    requires Sound(c) && Current(c) && (e.ByeBye? || e.PruneTick?) && Stays(c, Step(c, e, env, true), env)
    ensures var r := Step(c, e, env, true); Current(r) && r.timeline == c.timeline
  {
    hide InRange, Usable, Current, SessionMembershipChanged, Expired;
    if e.ByeBye? {
      RemovalStays(c, {e.id}, env);
    } else {
      RemovalStays(c, Expired(c.peers, env.wall), env);
    }
  }

  // ----- Which nodes are in session -----

  /** In every state reached without a forgotten session the node is in session in its own session. */
  lemma ReachedIsInSession(self: Option<Endpoint>, id: NodeId, bpm: real, sync: bool, now: Micros, occurrences: seq<Occurrence>)
    requires Clean(Run(InitialCore(self, id, bpm, sync, now), occurrences, true).out)
    ensures var r := Run(InitialCore(self, id, bpm, sync, now), occurrences, true); InSession(r, r.sessionId)
  {
    hide Run, InitialCore, Clean, InRange, Usable;
    InitiallyKept(self, id, bpm, sync, now);
    RunKeeps(InitialCore(self, id, bpm, sync, now), occurrences, true);
    HeldIsCurrent(Run(InitialCore(self, id, bpm, sync, now), occurrences, true));
  }

  lemma HeldIsCurrent(c: Core)
    requires Held(c)
    ensures Current(c)
  {
    forall id | id in c.peers && c.peers[id].tlKnown && c.peers[id].tlSession == c.sessionId
      ensures c.peers[id].tlPropagated.beatOrigin <= c.timeline.beatOrigin {
      assert HeldAtLeast(c, c.peers[id].tlSession, c.peers[id].tlPropagated.beatOrigin);
    }
  }

  /** The founder of a session is in session. */
  lemma FounderIsInSession(c: Core, env: Env)
    requires Sound(c)
    ensures InSession(ResetState(c, env), env.newId)
  {
    ResetKeeps(c, env);
    hide ResetState, InRange, Usable;
  }

  /**
   A node that joins a session without founding one is in session there, and
   remembers the session it left, exactly when it held every timeline it had
   propagated for the session joined.
   */
  lemma JoinerIsInSessionIff(c: Core, sid: NodeId, xform: GhostXForm, env: Env)
    requires Sound(c) && xform.slope == 1.0 && sid in c.others && sid != c.sessionId
    requires JoinSession(c, sid, xform, env).nodeId != env.newId
    ensures var r := JoinSession(c, sid, xform, env);
      && c.sessionId in r.others
      && (InSession(r, sid) <==>
            forall id | id in c.peers && c.peers[id].tlKnown && c.peers[id].tlSession == sid ::
              c.peers[id].tlPropagated.beatOrigin <= c.others[sid].beatOrigin)
  {
    hide SwitchSession, SessionMembershipChanged, InRange, Usable;
    SwitchMoves(c, sid, xform, env);
    RecountStays(SwitchSession(c, sid, xform, env), env);
  }

  /** So a node whose log forgot no session is in session wherever it joins. */
  lemma JoinerIsInSession(c: Core, sid: NodeId, xform: GhostXForm, env: Env)
    requires Sound(c) && Kept(c) && Clean(c.out) && xform.slope == 1.0 && sid in c.others
    requires JoinSession(c, sid, xform, env).nodeId != env.newId
    ensures InSession(JoinSession(c, sid, xform, env), sid)
  {
    hide JoinSession, Current, Clean, Members, InRange, Usable;
    JoinerIsInSessionIff(c, sid, xform, env);
    forall id | id in c.peers && c.peers[id].tlKnown && c.peers[id].tlSession == sid
      ensures c.peers[id].tlPropagated.beatOrigin <= c.others[sid].beatOrigin {
      assert HeldAtLeast(c, c.peers[id].tlSession, c.peers[id].tlPropagated.beatOrigin);
    }
  }

  // ----- The network -----

  type Node = c: Core | Sound(c) witness InitialCore(None, ZERO_ID, 120.0, false, 0)

  /** The nodes, every message ever sent, the grids each node has heard of, and the grids committed or there at the start. */
  datatype Network = Network(nodes: seq<Node>, sent: set<PeerState>, heard: seq<set<Grid>>, made: set<Grid>)

  /** What happens at one node. A message that was sent may be delivered any number of times, in any order, or never. */
  datatype Deed =
    | Publish(who: nat)
    | Deliver(who: nat, message: PeerState, asResponse: bool, env: Env)
    | Commit(who: nat, event: Event, env: Env)
    | Attend(who: nat, event: Event, env: Env)

  /** Every node is in session with a grid that was made. */
  ghost predicate NodesIn(n: Network, sid: NodeId) {
    forall i | 0 <= i < |n.nodes| :: InSession(n.nodes[i], sid) && GridOf(n.nodes[i].timeline) in n.made
  }

  ghost predicate MessagesIn(n: Network, sid: NodeId) {
    forall m | m in n.sent :: m.sessionId == sid && Relayable(m.timeline) && GridOf(m.timeline) in n.made
  }

  /** A node is at least as new as all it heard. */
  ghost predicate HeardIn(n: Network) {
    |n.heard| == |n.nodes| &&
    forall i, g | 0 <= i < |n.nodes| && g in n.heard[i] :: g.beatOrigin <= n.nodes[i].timeline.beatOrigin
  }

  ghost predicate Reached(nodes: seq<Node>, origin: Beats) {
    exists i :: 0 <= i < |nodes| && origin <= nodes[i].timeline.beatOrigin
  }

  /** No grid ever made is newer than all nodes. */
  ghost predicate MadeIn(n: Network) {
    forall g | g in n.made :: Reached(n.nodes, g.beatOrigin)
  }

  ghost predicate Together(n: Network, sid: NodeId) {
    |n.nodes| == |n.heard| && NodesIn(n, sid) && MessagesIn(n, sid) && HeardIn(n) && MadeIn(n)
  }

  /** A deed that cannot happen changes nothing. */
  ghost predicate CanHappen(n: Network, d: Deed) {
    && d.who < |n.nodes| == |n.heard|
    && match d
       case Publish(_) => true
       case Deliver(i, m, _, _) => m in n.sent && m.nodeId != n.nodes[i].nodeId && n.nodes[i].enabled
       case Commit(_, e, _) => e.SetTempo? || e.ForceBeat? || e.RequestBeat?
       case Attend(i, e, env) => Attends(n.nodes[i], e, env)
  }

  /** Any other event with which the node stays in its session; its session's announcements are delivered instead. */
  ghost predicate Attends(c: Node, e: Event, env: Env) {
    && !(e.SetTempo? || e.ForceBeat? || e.RequestBeat?) && !HearsOwnSession(c, e)
    && Stays(c, Step(c, e, env, true), env)
  }

  function Message(c: Node): PeerState {
    CurrentPeerState(c).(timeline := OnTheWire(c.timeline))
  }

  /** Node i is now r, after hearing and making the given. */
  ghost function Placed(n: Network, i: nat, r: Node, heard: set<Grid>, made: set<Grid>): Network
    requires i < |n.nodes| == |n.heard|
  {
    Network(n.nodes[i := r], n.sent, n.heard[i := n.heard[i] + heard], n.made + made)
  }

  ghost function Act(n: Network, d: Deed): Network {
    hide InRange, Step;
    if !CanHappen(n, d) then n
    else
      var c := n.nodes[d.who];
      match d
      case Publish(i) => n.(sent := n.sent + {Message(c)})
      case Deliver(i, m, asResponse, env) =>
        var e := if asResponse then Response(m.nodeId, Ok(m)) else Alive(m.nodeId, Ok(m));
        Placed(n, i, Step(c, e, env, true), {GridOf(m.timeline)}, {})
      case Commit(i, e, env) =>
        var r := Step(c, e, env, true);
        Placed(n, i, r, {}, {GridOf(r.timeline)})
      case Attend(i, e, env) => Placed(n, i, Step(c, e, env, true), {}, {})
  }

  /** No node's beat origin is lower in r than in n. */
  ghost predicate Rises(n: Network, r: Network) {
    && |r.nodes| == |n.nodes|
    && forall i | 0 <= i < |n.nodes| :: n.nodes[i].timeline.beatOrigin <= r.nodes[i].timeline.beatOrigin
  }

  lemma PlacedStaysTogether(n: Network, sid: NodeId, i: nat, r: Node, heard: set<Grid>, made: set<Grid>)
    requires Together(n, sid) && i < |n.nodes|
    requires InSession(r, sid) && n.nodes[i].timeline.beatOrigin <= r.timeline.beatOrigin
    requires forall g | g in heard :: g.beatOrigin <= r.timeline.beatOrigin
    requires GridOf(r.timeline) in n.made + made && made <= {GridOf(r.timeline)}
    ensures Together(Placed(n, i, r, heard, made), sid) && Rises(n, Placed(n, i, r, heard, made))
  {
    hide InSession, Relayable, GridOf, InRange, NodesIn, MessagesIn, HeardIn, MadeIn, Sound, Placed;
    PlacedNodes(n, sid, i, r, heard, made);
    PlacedMessages(n, sid, i, r, heard, made);
    PlacedHeard(n, i, r, heard, made);
    PlacedMade(n, i, r, heard, made);
  }

  lemma PlacedNodes(n: Network, sid: NodeId, i: nat, r: Node, heard: set<Grid>, made: set<Grid>)
    requires NodesIn(n, sid) && i < |n.nodes| == |n.heard|
    requires InSession(r, sid) && GridOf(r.timeline) in n.made + made
    ensures NodesIn(Placed(n, i, r, heard, made), sid)
  {}

  lemma PlacedMessages(n: Network, sid: NodeId, i: nat, r: Node, heard: set<Grid>, made: set<Grid>)
    requires MessagesIn(n, sid) && i < |n.nodes| == |n.heard|
    ensures MessagesIn(Placed(n, i, r, heard, made), sid)
  {}

  lemma PlacedHeard(n: Network, i: nat, r: Node, heard: set<Grid>, made: set<Grid>)
    requires HeardIn(n) && i < |n.nodes| && n.nodes[i].timeline.beatOrigin <= r.timeline.beatOrigin
    requires forall g | g in heard :: g.beatOrigin <= r.timeline.beatOrigin
    ensures var p := Placed(n, i, r, heard, made); |p.nodes| == |p.heard| && HeardIn(p)
    ensures Rises(n, Placed(n, i, r, heard, made))
  {}

  lemma PlacedMade(n: Network, i: nat, r: Node, heard: set<Grid>, made: set<Grid>)
    requires MadeIn(n) && i < |n.nodes| == |n.heard| && n.nodes[i].timeline.beatOrigin <= r.timeline.beatOrigin
    requires made <= {GridOf(r.timeline)}
    ensures MadeIn(Placed(n, i, r, heard, made))
  {
    hide GridOf, InRange;
    var p := Placed(n, i, r, heard, made);
    assert r.timeline.beatOrigin <= p.nodes[i].timeline.beatOrigin;
    forall g | g in n.made ensures Reached(p.nodes, g.beatOrigin) {
      assert Reached(n.nodes, g.beatOrigin);
      var k :| 0 <= k < |n.nodes| && g.beatOrigin <= n.nodes[k].timeline.beatOrigin;
      assert g.beatOrigin <= p.nodes[k].timeline.beatOrigin;
    }
  }

  lemma DeliveryKeeps(c: Core, sid: NodeId, m: PeerState, asResponse: bool, env: Env)
    requires Sound(c) && InSession(c, sid) && c.enabled && m.sessionId == sid && m.nodeId != c.nodeId && Relayable(m.timeline)
    ensures var r := Step(c, if asResponse then Response(m.nodeId, Ok(m)) else Alive(m.nodeId, Ok(m)), env, true);
      && InSession(r, sid)
      && (GridOf(r.timeline) == GridOf(c.timeline) || GridOf(r.timeline) == GridOf(m.timeline))
      && r.timeline.beatOrigin >= c.timeline.beatOrigin && r.timeline.beatOrigin >= m.timeline.beatOrigin
  {
    hide InRange, Usable, SawPeerState, CurrentPeerState, Current, GridOf;
    HearKeeps(c, m, env);
    assert m.(nodeId := m.nodeId) == m;
    var c1 := SawPeerState(c, m.nodeId, m, env, true);
    SameCurrent(c1, Emit(c1, Respond(CurrentPeerState(c1))));
  }

  /** Every deed keeps the nodes together and lowers no beat origin. */
  lemma DeedKeeps(n: Network, d: Deed, sid: NodeId)
    requires Together(n, sid)
    ensures Together(Act(n, d), sid) && Rises(n, Act(n, d))
    ensures n.made <= Act(n, d).made && (!d.Commit? ==> Act(n, d).made == n.made)
  {
    hide InRange, Usable, Step, Current, Relayable, Attends, Message, GridOf, MadeIn;
    if CanHappen(n, d) {
      var c := n.nodes[d.who];
      if d.Publish? {
        PublishingKeeps(n, sid, d.who);
      } else if d.Deliver? {
        var m := d.message;
        assert m in n.sent;
        DeliveryKeeps(c, sid, m, d.asResponse, d.env);
        var e := if d.asResponse then Response(m.nodeId, Ok(m)) else Alive(m.nodeId, Ok(m));
        hide Together;
        PlacedStaysTogether(n, sid, d.who, Step(c, e, d.env, true), {GridOf(m.timeline)}, {});
      } else if d.Commit? {
        CommandKeepsSession(c, d.event, d.env);
        var r := Step(c, d.event, d.env, true);
        PlacedStaysTogether(n, sid, d.who, r, {}, {GridOf(r.timeline)});
        hide Together;
      } else {
        AttendedStays(c, sid, d.event, d.env);
        hide Together;
        PlacedStaysTogether(n, sid, d.who, Step(c, d.event, d.env, true), {}, {});
      }
    }
  }

  lemma AttendedStays(c: Node, sid: NodeId, e: Event, env: Env)
    requires InSession(c, sid) && Attends(c, e, env)
    ensures var r := Step(c, e, env, true); InSession(r, sid) && r.timeline == c.timeline
  {
    hide Step, Current, InRange, Usable;
    AttendKeeps(c, e, env);
  }

  lemma PublishingKeeps(n: Network, sid: NodeId, i: nat)
    requires Together(n, sid) && i < |n.nodes|
    ensures Together(n.(sent := n.sent + {Message(n.nodes[i])}), sid)
  {
    hide InRange, Usable, Relayable, GridOf, Message, InSession, MadeIn;
    assert MadeIn(n.(sent := n.sent + {Message(n.nodes[i])})) by { SameMade(n, n.(sent := n.sent + {Message(n.nodes[i])})); }
    assert InSession(n.nodes[i], sid) && GridOf(n.nodes[i].timeline) in n.made;
    MessageIsRelayable(n.nodes[i], sid);
  }

  lemma SameMade(n: Network, r: Network)
    requires MadeIn(n) && r == n.(sent := r.sent)
    ensures MadeIn(r)
  {}

  lemma MessageIsRelayable(c: Node, sid: NodeId)
    requires InSession(c, sid)
    ensures var m := Message(c); m.sessionId == sid && Relayable(m.timeline) && GridOf(m.timeline) == GridOf(c.timeline)
  {
    WireIsRelayable(c.timeline);
    hide InRange, Usable, Relayable, OnTheWire, GridOf, Current;
  }

  ghost function Spread(n: Network, deeds: seq<Deed>): Network
    decreases |deeds|
  {
    if deeds == [] then n
    else
      var last := |deeds| - 1;
      Act(Spread(n, deeds[..last]), deeds[last])
  }

  /** However deeds interleave, the nodes stay together and no node's beat origin ever decreases. */
  lemma {:induction false} OriginsNeverDecrease(n: Network, deeds: seq<Deed>, sid: NodeId)
    requires Together(n, sid)
    ensures Together(Spread(n, deeds), sid) && Rises(n, Spread(n, deeds))
    ensures n.made <= Spread(n, deeds).made
    ensures (forall d | d in deeds :: !d.Commit?) ==> Spread(n, deeds).made == n.made
    decreases |deeds|
  {
    hide InRange, Act, InSession, Relayable;
    if deeds != [] {
      var last := |deeds| - 1;
      OriginsNeverDecrease(n, deeds[..last], sid);
      DeedKeeps(Spread(n, deeds[..last]), deeds[last], sid);
      assert deeds[last] in deeds;
    }
  }

  /** The grid has the greatest beat origin ever made. */
  ghost predicate Newest(g: Grid, made: set<Grid>) {
    g in made && forall h | h in made :: h.beatOrigin <= g.beatOrigin
  }

  /** Every node of r has heard of the grid each other node has in n. */
  ghost predicate AllHeard(n: Network, r: Network) {
    |r.heard| == |n.nodes| &&
    forall i, j | 0 <= i < |n.nodes| && 0 <= j < |n.nodes| && i != j :: GridOf(n.nodes[i].timeline) in r.heard[j]
  }

  /** All nodes have a newest grid of those made, and the newest one if there is only one. */
  ghost predicate Agreed(r: Network, made: set<Grid>) {
    && (forall j | 0 <= j < |r.nodes| :: Newest(GridOf(r.nodes[j].timeline), made))
    && (forall i, j | 0 <= i < |r.nodes| && 0 <= j < |r.nodes| :: r.nodes[i].timeline.beatOrigin == r.nodes[j].timeline.beatOrigin)
    && (forall g | Newest(g, made) && (forall h | Newest(h, made) :: h == g) ::
          forall j | 0 <= j < |r.nodes| :: GridOf(r.nodes[j].timeline) == g)
  }

  /**
   Once commits stop, one exchange is enough: after any run in which every
   node heard what every other held at its start, all nodes hold a newest grid
   ever made, and the same one if there is only one.
   */
  lemma NodesConverge(n: Network, deeds: seq<Deed>, sid: NodeId)
    requires Together(n, sid) && forall d | d in deeds :: !d.Commit?
    requires AllHeard(n, Spread(n, deeds))
    ensures Together(Spread(n, deeds), sid) && Agreed(Spread(n, deeds), n.made)
  {
    OriginsNeverDecrease(n, deeds, sid);
    hide InRange, InSession, Relayable, Spread, GridOf, MessagesIn, MadeIn, Newest;
    var r := Spread(n, deeds);
    forall j | 0 <= j < |r.nodes| ensures Newest(GridOf(r.nodes[j].timeline), n.made) {
      HearingMakesNewest(n, r, sid, j);
    }
    SameOrigins(r, n.made);
  }

  lemma SameOrigins(r: Network, made: set<Grid>)
    requires forall j | 0 <= j < |r.nodes| :: Newest(GridOf(r.nodes[j].timeline), made)
    ensures Agreed(r, made)
  {}

  lemma HearingMakesNewest(n: Network, r: Network, sid: NodeId, j: nat)
    requires Together(n, sid) && Together(r, sid) && Rises(n, r) && r.made == n.made && AllHeard(n, r) && j < |r.nodes|
    ensures Newest(GridOf(r.nodes[j].timeline), n.made)
  {
    hide InRange, InSession, Relayable, GridOf, MessagesIn;
    forall h | h in n.made ensures h.beatOrigin <= r.nodes[j].timeline.beatOrigin {
      assert Reached(n.nodes, h.beatOrigin);
      var i :| 0 <= i < |n.nodes| && h.beatOrigin <= n.nodes[i].timeline.beatOrigin;
      if i != j {
        assert GridOf(n.nodes[i].timeline) in r.heard[j];
      }
    }
  }

  /** Any nodes in session, with any announcements of it under way that are no newer than all of them, are together. */
  lemma StartsTogether(nodes: seq<Node>, sent: set<PeerState>, sid: NodeId)
    requires forall c | c in nodes :: InSession(c, sid)
    requires forall m | m in sent :: m.sessionId == sid && Relayable(m.timeline) && Reached(nodes, m.timeline.beatOrigin)
    ensures var made := (set c | c in nodes :: GridOf(c.timeline)) + (set m | m in sent :: GridOf(m.timeline));
      Together(Network(nodes, sent, seq(|nodes|, _ => {}), made), sid)
  {
    hide InSession, Relayable, GridOf, InRange;
    var made := (set c | c in nodes :: GridOf(c.timeline)) + (set m | m in sent :: GridOf(m.timeline));
    forall g | g in made ensures Reached(nodes, g.beatOrigin) {
      if c :| c in nodes && g == GridOf(c.timeline) {
        var i :| 0 <= i < |nodes| && nodes[i] == c;
        assert g.beatOrigin <= nodes[i].timeline.beatOrigin;
      }
    }
  }
}
