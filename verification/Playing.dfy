/**
 How playing and stopping spreads (link/engine.go:394-400, 623-633): what an
 announced transport state does to the node that hears it, and to a network.
 */
module Playing {
  import opened Rounding
  import opened BeatGrid
  import opened Tempos
  import opened Timelines
  import opened Wire
  import opened NodeIds
  import opened PeerStates
  import opened Measurement
  import opened Session
  import opened Bookkeeping
  import C = Convergence

  // ----- One announcement -----

  /** Noting a timeline leaves the transport state of the session, and what was propagated of it, as it was. */
  ghost predicate TimelineNoted(c: Core, r: Core, state: PeerState, env: Env) {
    && r.sessionId == c.sessionId && r.nodeId == c.nodeId && r.startStop == c.startStop
    && r.peers.Keys == c.peers.Keys + {state.nodeId}
    && (forall id | id in c.peers && id != state.nodeId :: r.peers[id] == c.peers[id])
    && var p, before := r.peers[state.nodeId], EntryOf(c, state.nodeId);
    && p.state == state && p.ssKnown == before.ssKnown && p.ssSession == before.ssSession && p.ssPropagated == before.ssPropagated
  }

  lemma NotingTimeline(c: Core, state: PeerState, env: Env)
    requires Sound(c)
    ensures var r := NoteTimeline(c, state.nodeId, state, env, true);
      && TimelineNoted(c, r, state, env)
      && (state.sessionId == c.sessionId ==> r.enabled == c.enabled && r.startStopSync == c.startStopSync && c.out <= r.out)
  {
    hide InRange, Usable, SawSessionTimeline, ClampTempo;
    var p := NotedPeer(EntryOf(c, state.nodeId), state, env, TimelineChanged(EntryOf(c, state.nodeId), state));
    var d := c.(peers := c.peers[state.nodeId := p]);
    if state.sessionId == c.sessionId {
      C.SeenInSession(d, state.timeline, env);
      OwnLog(d, state.timeline, env);
    } else {
      C.SeenElsewhere(d, state.sessionId, state.timeline, env);
    }
  }

  lemma OwnLog(c: Core, tl: Timeline, env: Env)
    requires Sound(c)
    ensures c.out <= SawSessionTimeline(c, c.sessionId, tl, env).out
  {
    hide InRange, Usable, UpdateSessionTiming, LaunchMeasurement, CurrentPeerState;
    TimingKeeps(c, tl, c.xform, env.update);
  }

  /** What hearing a transport state of the own session leaves: the newer of the two, unless it was heard from this peer before. */
  function Heard(c: Core, state: PeerState): StartStopState {
    if StartStopChanged(EntryOf(c, state.nodeId), state) && state.sessionId == c.sessionId && state.startStop.timestamp > c.startStop.timestamp
    then state.startStop else c.startStop
  }

  lemma NotingStartStop(c: Core, c1: Core, state: PeerState, env: Env)
    requires Sound(c1) && TimelineNoted(c, c1, state, env)
    ensures var r := NoteStartStop(c1, state.nodeId, state, env);
      && r.startStop == Heard(c, state)
      && r.sessionId == c.sessionId && r.nodeId == c.nodeId && r.timeline == c1.timeline && r.xform == c1.xform
      && r.startStopSync == c1.startStopSync
      && r.peers.Keys == c.peers.Keys + {state.nodeId}
      && (forall id | id in c.peers && id != state.nodeId :: r.peers[id] == c.peers[id])
      && var p := r.peers[state.nodeId];
      && p.state == state && p.ssKnown && p.ssSession == state.sessionId && p.ssPropagated == state.startStop
  {
    hide HandleStartStop, Clean, InRange, Usable;
    var p := c1.peers[state.nodeId].(ssKnown := true, ssSession := state.sessionId, ssPropagated := state.startStop);
    var d := c1.(peers := c1.peers[state.nodeId := p]);
    StartStopKeeps(d, state.sessionId, state.startStop, env);
    HandlingTakes(d, state.sessionId, state.startStop, env);
  }

  lemma HandlingTakes(c: Core, sid: NodeId, ss: StartStopState, env: Env)
    requires Sound(c)
    ensures HandleStartStop(c, sid, ss, env).startStop == if sid == c.sessionId && ss.timestamp > c.startStop.timestamp then ss else c.startStop
  {
    hide InRange, Usable, StartStopToClient, CurrentPeerState;
  }

  /** A transport state taken over is mapped to the client under sync, and announced in any case. */
  lemma TakenOver(c1: Core, id: NodeId, state: PeerState, env: Env)
    requires Sound(c1) && id in c1.peers && StartStopChanged(c1.peers[id], state)
    requires state.sessionId == c1.sessionId && state.startStop.timestamp > c1.startStop.timestamp
    ensures var r := NoteStartStop(c1, id, state, env);
      && (c1.startStopSync && state.startStop != NO_START_STOP
          ==> r.clientStartStop.isPlaying == state.startStop.isPlaying
              && r.clientStartStop.timestamp == c1.xform.GhostToHost(state.startStop.timestamp)
              && r.clientStartStop.time == c1.xform.GhostToHost(c1.timeline.FromBeats(state.startStop.beats)))
      && (!c1.startStopSync ==> r.clientStartStop == c1.clientStartStop)
      && (c1.enabled ==> exists s: PeerState :: s.startStop == state.startStop && s.sessionId == c1.sessionId && r.out == c1.out + [Announce(env.wall, s)])
  {
    hide InRange, Usable, Timeline.FromBeats, GhostXForm.GhostToHost;
    var p := c1.peers[id].(ssKnown := true, ssSession := state.sessionId, ssPropagated := state.startStop);
    var d := c1.(peers := c1.peers[id := p], startStop := state.startStop);
    assert c1.enabled ==> Broadcast(d, env.wall).out == c1.out + [Announce(env.wall, CurrentPeerState(d))];
  }

  /** Some announcement in the log from the given position on carries the transport state. */
  ghost predicate Announced(out: seq<Effect>, from: nat, ss: StartStopState) {
    exists k :: from <= k < |out| && out[k].Announce? && out[k].state.startStop == ss
  }

  /** Where a peer of the own session is heard, the count is positive afterwards and no session is founded. */
  lemma HeardStays(c: Core, state: PeerState, env: Env)
    requires Sound(c)
    ensures var d := NoteStartStop(NoteTimeline(c, state.nodeId, state, env, true), state.nodeId, state, env);
      var r := SawPeerState(c, state.nodeId, state, env, true);
      && (r == d.(peerNbr := r.peerNbr) || r.nodeId == env.newId)
      && (state.sessionId == c.sessionId ==> r == d.(peerNbr := r.peerNbr))
  {
    hide InRange, Usable, NoteTimeline, NoteStartStop, SessionMembershipChanged, Members;
    NotingTimeline(c, state, env);
    var c1 := NoteTimeline(c, state.nodeId, state, env, true);
    NotingStartStop(c, c1, state, env);
    var d := NoteStartStop(c1, state.nodeId, state, env);
    C.RecountStays(d, env);
    MemberOf(d.peers, state.nodeId);
  }

  /** The event of hearing an announcement. */
  predicate IsHearing(c: Core, e: Event, state: PeerState) {
    (e == Alive(state.nodeId, Ok(state)) || e == Response(state.nodeId, Ok(state))) && c.enabled && state.nodeId != c.nodeId
  }

  lemma HearingStep(c: Core, e: Event, state: PeerState, env: Env)
    requires Sound(c) && IsHearing(c, e, state)
    ensures var d, r := SawPeerState(c, state.nodeId, state, env, true), Step(c, e, env, true); r == d.(out := r.out) && d.out <= r.out
  {
    hide InRange, Usable, SawPeerState, CurrentPeerState;
    assert state.(nodeId := state.nodeId) == state;
  }

  /**
   A newer transport state announced by a peer of the own session is taken over,
   starts or stops the client when sync is on, and is announced in turn; an
   older one, or one heard from this peer before, changes nothing.
   */
  lemma PlayingIsHeard(c: Core, e: Event, state: PeerState, env: Env)
    requires Sound(c) && IsHearing(c, e, state) && state.sessionId == c.sessionId
    ensures var r := Step(c, e, env, true);
      var taken := StartStopChanged(EntryOf(c, state.nodeId), state) && state.startStop.timestamp > c.startStop.timestamp;
      && r.startStop == (if taken then state.startStop else c.startStop)
      && r.sessionId == c.sessionId
      && (taken ==> Announced(r.out, |c.out|, state.startStop))
      && (taken && c.startStopSync && state.startStop != NO_START_STOP
          ==> r.clientStartStop.isPlaying == state.startStop.isPlaying
              && r.clientStartStop.timestamp == r.xform.GhostToHost(state.startStop.timestamp)
              && r.clientStartStop.time == r.xform.GhostToHost(r.timeline.FromBeats(state.startStop.beats)))
  {
    hide InRange, Usable, SawPeerState, Step, NoteTimeline, NoteStartStop, Timeline.FromBeats, GhostXForm.GhostToHost;
    HearingStep(c, e, state, env);
    HeardStays(c, state, env);
    NotingTimeline(c, state, env);
    var c1 := NoteTimeline(c, state.nodeId, state, env, true);
    NotingStartStop(c, c1, state, env);
    if StartStopChanged(EntryOf(c, state.nodeId), state) && state.startStop.timestamp > c.startStop.timestamp {
      TakenOver(c1, state.nodeId, state, env);
      assert Step(c, e, env, true).out[|c1.out|].Announce?;
    }
  }

  // ----- A node in a network -----

  /** No transport state propagated from a peer for the node's session is newer than the one the node holds. */
  ghost predicate PlayCurrent(c: Core) {
    forall id | id in c.peers && c.peers[id].ssKnown && c.peers[id].ssSession == c.sessionId ::
      c.peers[id].ssPropagated.timestamp <= c.startStop.timestamp
  }

  lemma SamePlayCurrent(c: Core, r: Core)
    requires PlayCurrent(c) && r.sessionId == c.sessionId && r.startStop.timestamp >= c.startStop.timestamp && r.peers.Keys <= c.peers.Keys
    requires forall id | id in r.peers ::
      && r.peers[id].ssKnown == c.peers[id].ssKnown && r.peers[id].ssSession == c.peers[id].ssSession
      && r.peers[id].ssPropagated == c.peers[id].ssPropagated
    ensures PlayCurrent(r)
  {}

  /** Hearing any announcement, unless the node founds a session over a foreign one. */
  lemma HearingPlays(c: Core, state: PeerState, env: Env)
    requires Sound(c) && PlayCurrent(c)
    ensures var r := SawPeerState(c, state.nodeId, state, env, true);
      && (state.sessionId == c.sessionId || r.nodeId != env.newId ==>
            && PlayCurrent(r) && r.sessionId == c.sessionId && r.nodeId == c.nodeId
            && (r.startStop == c.startStop || (state.sessionId == c.sessionId && r.startStop == state.startStop))
            && r.startStop.timestamp >= c.startStop.timestamp)
      && (state.sessionId == c.sessionId ==> r.startStop.timestamp >= state.startStop.timestamp)
  {
    hide InRange, Usable, SawPeerState, NoteTimeline, NoteStartStop;
    HeardStays(c, state, env);
    NotingTimeline(c, state, env);
    var c1 := NoteTimeline(c, state.nodeId, state, env, true);
    NotingStartStop(c, c1, state, env);
    if !StartStopChanged(EntryOf(c, state.nodeId), state) {
      assert state.nodeId in c.peers;
    }
  }

  lemma CommitPlays(c: Core, e: Event, env: Env)
    requires Sound(c) && PlayCurrent(c) && (e.SetTempo? || e.ForceBeat? || e.RequestBeat?)
    ensures var r := Step(c, e, env, true); PlayCurrent(r) && r.sessionId == c.sessionId && r.startStop == c.startStop
  {
    hide Step, PlayCurrent, Clean, InRange, Usable;
    CommandCommits(c, e, env, true);
    SamePlayCurrent(c, Step(c, e, env, true));
  }

  /** A play change never lowers the timestamp of the session's transport state. */
  lemma ChangePlays(c: Core, playing: bool, at: Micros, env: Env)
    requires Sound(c) && PlayCurrent(c)
    ensures var r := Step(c, SetPlaying(playing, at), env, true);
      PlayCurrent(r) && r.sessionId == c.sessionId && r.startStop.timestamp >= c.startStop.timestamp
  {
    hide Step, ApplyPlayingChange, PlayCurrent, Clean, InRange, Usable;
    StepIs(c, SetPlaying(playing, at), env, true);
    PlayingForm(c, playing, at, env);
    SamePlayCurrent(c, Step(c, SetPlaying(playing, at), env, true));
  }

  /** Anything else with which the node stays in its session. */
  ghost predicate Attends(c: Core, e: Event, env: Env)
    requires Sound(c)
  {
    !e.SetPlaying? && !C.HearsOwnSession(c, e) && C.Stays(c, Step(c, e, env, true), env)
  }

  lemma AttendingPlays(c: Core, e: Event, env: Env)
    requires Sound(c) && PlayCurrent(c) && Attends(c, e, env)
    ensures var r := Step(c, e, env, true); PlayCurrent(r) && r.sessionId == c.sessionId && r.startStop == c.startStop
  {
    hide Step, PlayCurrent, InRange, Usable;
    if e.SetTempo? || e.ForceBeat? || e.RequestBeat? {
      CommitPlays(c, e, env);
    } else if e.Alive? || e.Response? {
      ForeignPlays(c, e, env);
    } else if e.ByeBye? || e.PruneTick? {
      LosingPlays(c, e, env);
    } else {
      if e.PongReceived? || e.WatchdogDue? || e.RemeasureDue? {
        C.MeasuringStays(c, e, env);
      } else {
        C.IdleStays(c, e, env);
      }
      SamePlayCurrent(c, Step(c, e, env, true));
    }
  }

  lemma ForeignPlays(c: Core, e: Event, env: Env)
    requires Sound(c) && PlayCurrent(c) && Attends(c, e, env) && (e.Alive? || e.Response?)
    ensures var r := Step(c, e, env, true); PlayCurrent(r) && r.sessionId == c.sessionId && r.startStop == c.startStop
  {
    hide SawPeerState, CurrentPeerState, PlayCurrent, InRange, Usable;
    SamePlayCurrent(c, Emit(c, Respond(CurrentPeerState(c))));
    if e.id != c.nodeId && c.enabled && e.announced.Ok? {
      HearingPlays(c, e.announced.value.(nodeId := e.id), env);
      SamePlayCurrent(Discovered(c, e.id, e.announced, env, true), Step(c, e, env, true));
    }
  }

  lemma LosingPlays(c: Core, e: Event, env: Env)
    requires Sound(c) && PlayCurrent(c) && Attends(c, e, env) && (e.ByeBye? || e.PruneTick?)
    ensures var r := Step(c, e, env, true); PlayCurrent(r) && r.sessionId == c.sessionId && r.startStop == c.startStop
  {
    hide SessionMembershipChanged, Expired, PlayCurrent, InRange, Usable;
    var ids := if e.ByeBye? then {e.id} else Expired(c.peers, env.wall);
    var d := c.(peers := c.peers - ids);
    C.RecountStays(d, env);
    SamePlayCurrent(c, d.(peerNbr := SessionMembershipChanged(d, env).peerNbr));
  }

  // ----- The network -----

  /** The nodes, every message ever sent, the transport states each node has heard of, and those made or there at the start. */
  datatype Stage = Stage(nodes: seq<C.Node>, sent: set<PeerState>, heard: seq<set<StartStopState>>, played: set<StartStopState>)

  /** What happens at one node; a message that was sent may be delivered any number of times, in any order, or never. */
  datatype Cue =
    | Publish(who: nat)
    | Deliver(who: nat, message: PeerState, asResponse: bool, env: Env)
    | Play(who: nat, playing: bool, at: Micros, env: Env)
    | Attend(who: nat, event: Event, env: Env)

  ghost predicate OnStage(s: Stage, sid: NodeId) {
    forall i | 0 <= i < |s.nodes| :: s.nodes[i].sessionId == sid && PlayCurrent(s.nodes[i]) && s.nodes[i].startStop in s.played
  }

  ghost predicate Reached(nodes: seq<C.Node>, timestamp: Micros) {
    exists i :: 0 <= i < |nodes| && timestamp <= nodes[i].startStop.timestamp
  }

  /** Messages carry states that were made, no node is behind what it heard, and no state is ahead of all nodes. */
  ghost predicate InTune(s: Stage, sid: NodeId) {
    && |s.heard| == |s.nodes| && OnStage(s, sid)
    && (forall m | m in s.sent :: m.sessionId == sid && m.startStop in s.played)
    && (forall i, ss | 0 <= i < |s.nodes| && ss in s.heard[i] :: ss.timestamp <= s.nodes[i].startStop.timestamp)
    && (forall ss | ss in s.played :: Reached(s.nodes, ss.timestamp))
  }

  ghost predicate CanHappen(s: Stage, cue: Cue) {
    && cue.who < |s.nodes| == |s.heard|
    && match cue
       case Publish(_) => true
       case Deliver(i, m, _, _) => m in s.sent && s.nodes[i].enabled && m.nodeId != s.nodes[i].nodeId
       case Play(_, _, _, _) => true
       case Attend(i, e, env) => Attends(s.nodes[i], e, env)
  }

  ghost function Placed(s: Stage, i: nat, r: C.Node, heard: set<StartStopState>, played: set<StartStopState>): Stage
    requires i < |s.nodes| == |s.heard|
  {
    Stage(s.nodes[i := r], s.sent, s.heard[i := s.heard[i] + heard], s.played + played)
  }

  ghost function Act(s: Stage, cue: Cue): Stage {
    hide InRange, Step;
    if !CanHappen(s, cue) then s
    else
      var c := s.nodes[cue.who];
      match cue
      case Publish(i) => s.(sent := s.sent + {C.Message(c)})
      case Deliver(i, m, asResponse, env) =>
        Placed(s, i, Step(c, if asResponse then Response(m.nodeId, Ok(m)) else Alive(m.nodeId, Ok(m)), env, true), {m.startStop}, {})
      case Play(i, playing, at, env) =>
        var r := Step(c, SetPlaying(playing, at), env, true);
        Placed(s, i, r, {}, {r.startStop})
      case Attend(i, e, env) => Placed(s, i, Step(c, e, env, true), {}, {})
  }

  ghost predicate Rises(s: Stage, r: Stage) {
    && |r.nodes| == |s.nodes|
    && forall i | 0 <= i < |s.nodes| :: s.nodes[i].startStop.timestamp <= r.nodes[i].startStop.timestamp
  }

  lemma PlacedReached(s: Stage, i: nat, r: C.Node, heard: set<StartStopState>, played: set<StartStopState>, timestamp: Micros)
    requires i < |s.nodes| == |s.heard| && s.nodes[i].startStop.timestamp <= r.startStop.timestamp
    requires Reached(s.nodes, timestamp) || timestamp <= r.startStop.timestamp
    ensures Reached(Placed(s, i, r, heard, played).nodes, timestamp)
  {
    var p := Placed(s, i, r, heard, played);
    if Reached(s.nodes, timestamp) {
      var k :| 0 <= k < |s.nodes| && timestamp <= s.nodes[k].startStop.timestamp;
      assert timestamp <= p.nodes[k].startStop.timestamp;
    } else {
      assert timestamp <= p.nodes[i].startStop.timestamp;
    }
  }

  lemma PlacedStaysInTune(s: Stage, sid: NodeId, i: nat, r: C.Node, heard: set<StartStopState>, played: set<StartStopState>)
    requires InTune(s, sid) && i < |s.nodes|
    requires r.sessionId == sid && PlayCurrent(r) && r.startStop in s.played + played && played <= {r.startStop}
    requires s.nodes[i].startStop.timestamp <= r.startStop.timestamp
    requires forall ss | ss in heard :: ss.timestamp <= r.startStop.timestamp
    ensures InTune(Placed(s, i, r, heard, played), sid) && Rises(s, Placed(s, i, r, heard, played))
  {
    hide PlayCurrent, Reached, Sound;
    var p := Placed(s, i, r, heard, played);
    forall ss | ss in p.played ensures Reached(p.nodes, ss.timestamp) {
      PlacedReached(s, i, r, heard, played, ss.timestamp);
    }
  }

  lemma DeliveryPlays(c: Core, m: PeerState, asResponse: bool, env: Env)
    requires Sound(c) && PlayCurrent(c) && c.enabled && m.sessionId == c.sessionId && m.nodeId != c.nodeId
    ensures var r := Step(c, if asResponse then Response(m.nodeId, Ok(m)) else Alive(m.nodeId, Ok(m)), env, true);
      && PlayCurrent(r) && r.sessionId == c.sessionId
      && (r.startStop == c.startStop || r.startStop == m.startStop)
      && r.startStop.timestamp >= c.startStop.timestamp && r.startStop.timestamp >= m.startStop.timestamp
  {
    hide Step, SawPeerState, PlayCurrent, InRange, Usable;
    var e := if asResponse then Response(m.nodeId, Ok(m)) else Alive(m.nodeId, Ok(m));
    HearingStep(c, e, m, env);
    HearingPlays(c, m, env);
    SamePlayCurrent(SawPeerState(c, m.nodeId, m, env, true), Step(c, e, env, true));
  }

  /** Every cue keeps the stage in tune and lowers no timestamp; only play changes make states. */
  lemma CueKeeps(s: Stage, cue: Cue, sid: NodeId)
    requires InTune(s, sid)
    ensures InTune(Act(s, cue), sid) && Rises(s, Act(s, cue))
    ensures s.played <= Act(s, cue).played && (!cue.Play? ==> Act(s, cue).played == s.played)
  {
    hide Step, PlayCurrent, Attends, Reached, C.Message, InRange, Usable;
    if CanHappen(s, cue) {
      var c := s.nodes[cue.who];
      if cue.Publish? {
        MessageCarries(c);
      } else if cue.Deliver? {
        var m := cue.message;
        DeliveryPlays(c, m, cue.asResponse, cue.env);
        var e := if cue.asResponse then Response(m.nodeId, Ok(m)) else Alive(m.nodeId, Ok(m));
        PlacedStaysInTune(s, sid, cue.who, Step(c, e, cue.env, true), {m.startStop}, {});
      } else if cue.Play? {
        ChangePlays(c, cue.playing, cue.at, cue.env);
        var r := Step(c, SetPlaying(cue.playing, cue.at), cue.env, true);
        PlacedStaysInTune(s, sid, cue.who, r, {}, {r.startStop});
      } else {
        AttendingPlays(c, cue.event, cue.env);
        PlacedStaysInTune(s, sid, cue.who, Step(c, cue.event, cue.env, true), {}, {});
      }
    }
  }

  lemma MessageCarries(c: C.Node)
    ensures C.Message(c).sessionId == c.sessionId && C.Message(c).startStop == c.startStop
  {
    hide OnTheWire, InRange, Usable;
  }

  ghost function Perform(s: Stage, cues: seq<Cue>): Stage
    decreases |cues|
  {
    if cues == [] then s else Act(Perform(s, cues[..|cues| - 1]), cues[|cues| - 1])
  }

  /** However cues interleave, no node's transport state ever gets older. */
  lemma {:induction false} PerformanceKeeps(s: Stage, cues: seq<Cue>, sid: NodeId)
    requires InTune(s, sid)
    ensures InTune(Perform(s, cues), sid) && Rises(s, Perform(s, cues)) && s.played <= Perform(s, cues).played
    ensures (forall cue | cue in cues :: !cue.Play?) ==> Perform(s, cues).played == s.played
    decreases |cues|
  {
    hide Act, InTune, InRange;
    if cues != [] {
      var last := |cues| - 1;
      PerformanceKeeps(s, cues[..last], sid);
      CueKeeps(Perform(s, cues[..last]), cues[last], sid);
      assert cues[last] in cues;
    }
  }

  /** The state is the latest ever made. */
  ghost predicate Latest(ss: StartStopState, played: set<StartStopState>) {
    ss in played && forall x | x in played :: x.timestamp <= ss.timestamp
  }

  /** Every node of r has heard of the transport state each other node has in s. */
  ghost predicate AllHeard(s: Stage, r: Stage) {
    |r.heard| == |s.nodes| &&
    forall i, j | 0 <= i < |s.nodes| && 0 <= j < |s.nodes| && i != j :: s.nodes[i].startStop in r.heard[j]
  }

  /**
   Once nobody plays or stops any more, one exchange is enough: after any run in
   which every node heard the transport state every other had at its start, all
   nodes hold a latest state, and the same one if there is only one.
   */
  lemma PlayingConverges(s: Stage, cues: seq<Cue>, sid: NodeId)
    requires InTune(s, sid) && (forall cue | cue in cues :: !cue.Play?) && AllHeard(s, Perform(s, cues))
    ensures var r := Perform(s, cues);
      && InTune(r, sid)
      && (forall j | 0 <= j < |r.nodes| :: Latest(r.nodes[j].startStop, s.played))
      && (forall ss | Latest(ss, s.played) && (forall x | Latest(x, s.played) :: x == ss) ::
            forall j | 0 <= j < |r.nodes| :: r.nodes[j].startStop == ss)
  {
    hide Perform, PlayCurrent, Sound, InRange;
    PerformanceKeeps(s, cues, sid);
    var r := Perform(s, cues);
    forall j | 0 <= j < |r.nodes| ensures Latest(r.nodes[j].startStop, s.played) {
      HearingMakesLatest(s, r, sid, j);
    }
  }

  lemma HearingMakesLatest(s: Stage, r: Stage, sid: NodeId, j: nat)
    requires InTune(s, sid) && InTune(r, sid) && Rises(s, r) && r.played == s.played && AllHeard(s, r) && j < |r.nodes|
    ensures Latest(r.nodes[j].startStop, s.played)
  {
    hide PlayCurrent, Sound, InRange;
    forall x | x in s.played ensures x.timestamp <= r.nodes[j].startStop.timestamp {
      assert Reached(s.nodes, x.timestamp);
      var i :| 0 <= i < |s.nodes| && x.timestamp <= s.nodes[i].startStop.timestamp;
      if i != j {
        assert s.nodes[i].startStop in r.heard[j];
      }
    }
  }

  // ----- Who hears the session play -----

  /** The founder of a session knows of no peer, so nothing of it is behind. */
  lemma FounderIsCurrent(c: Core, env: Env)
    requires Sound(c)
    ensures PlayCurrent(ResetState(c, env)) && ResetState(c, env).sessionId == env.newId
  {
    hide ResetState, InRange, Usable;
    ResetKeeps(c, env);
  }

  /**
   A node that joins a session starts without a transport state, and is current
   exactly when no peer told it, before it joined, that the session plays.
   */
  lemma JoinerIsCurrentIff(c: Core, sid: NodeId, xform: GhostXForm, env: Env)
    requires Sound(c) && xform.slope == 1.0 && sid in c.others && JoinSession(c, sid, xform, env).nodeId != env.newId
    ensures var r := JoinSession(c, sid, xform, env);
      && r.sessionId == sid && r.startStop == NO_START_STOP
      && (PlayCurrent(r) <==>
            forall id | id in c.peers && c.peers[id].ssKnown && c.peers[id].ssSession == sid :: c.peers[id].ssPropagated.timestamp <= 0)
  {
    hide SwitchSession, SessionMembershipChanged, InRange, Usable;
    SwitchForgetsTransport(c, sid, xform, env);
    C.RecountStays(SwitchSession(c, sid, xform, env), env);
  }

  lemma SwitchForgetsTransport(c: Core, sid: NodeId, xform: GhostXForm, env: Env)
    requires Sound(c) && xform.slope == 1.0 && sid in c.others
    ensures var r := SwitchSession(c, sid, xform, env); r.sessionId == sid && r.peers == c.peers && r.startStop == NO_START_STOP
  {
    hide UpdateSessionTiming, CurrentPeerState, ClampTempo, InRange, Usable;
    var rest := c.others - {sid};
    var d := c.(others := if c.sessionId in rest then rest else rest[c.sessionId := c.timeline], sessionId := sid, startStop := NO_START_STOP);
    TimingKeeps(d, c.others[sid], xform, env.update);
  }

  /** So a joiner that was told does not hear it again: the peer's unchanged announcements leave it without a transport state. */
  lemma JoinerStaysSilent(c: Core, e: Event, state: PeerState, env: Env)
    requires Sound(c) && IsHearing(c, e, state) && state.sessionId == c.sessionId && c.startStop == NO_START_STOP
    requires state.nodeId in c.peers && !StartStopChanged(c.peers[state.nodeId], state)
    ensures Step(c, e, env, true).startStop == NO_START_STOP
  {
    hide Step, InRange, Usable;
    PlayingIsHeard(c, e, state, env);
  }

  /** The transport states of nodes and messages. */
  ghost function StatesOf(nodes: seq<C.Node>, sent: set<PeerState>): set<StartStopState> {
    (set i | 0 <= i < |nodes| :: nodes[i].startStop) + (set m | m in sent :: m.startStop)
  }

  /** Any nodes of the session that are current, with any of its announcements under way that are no later than all of them, are in tune. */
  lemma StartsInTune(nodes: seq<C.Node>, sent: set<PeerState>, sid: NodeId)
    requires forall i | 0 <= i < |nodes| :: nodes[i].sessionId == sid && PlayCurrent(nodes[i])
    requires forall m | m in sent :: m.sessionId == sid && Reached(nodes, m.startStop.timestamp)
    ensures InTune(Stage(nodes, sent, seq(|nodes|, _ => {}), StatesOf(nodes, sent)), sid)
  {
    hide PlayCurrent, Sound, InRange;
    forall ss | ss in StatesOf(nodes, sent) ensures Reached(nodes, ss.timestamp) {
      if i :| 0 <= i < |nodes| && ss == nodes[i].startStop {
        assert ss.timestamp <= nodes[i].startStop.timestamp;
      }
    }
  }
}
