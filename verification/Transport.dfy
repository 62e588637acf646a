/**
 The transport state: how the start/stop state of the session moves forward
 and when the client's transport agrees with it (link/engine.go:623-638, 674-695).
 */
module Transport {
  import opened Rounding
  import opened BeatGrid
  import opened Tempos
  import opened Timelines
  import opened Wire
  import opened NodeIds
  import opened PeerStates
  import opened Measurement
  import opened Session

  /** The client plays what the session plays: the same state at the same instant, its beat within 2 microseconds. */
  ghost predicate Agrees(client: ClientStartStop, ss: StartStopState, tl: Timeline, xform: GhostXForm)
    requires Usable(tl.bpm) && xform.slope != 0.0
  {
    && client.isPlaying == ss.isPlaying
    && client.timestamp == xform.GhostToHost(ss.timestamp)
    && Abs(client.time - xform.GhostToHost(tl.FromBeats(ss.beats))) <= 2
  }

  /** With start/stop sync on, the client's transport agrees with that of the session once there is one. */
  ghost predicate Follows(c: Core)
    requires Sound(c)
  {
    c.startStopSync && c.startStop != NO_START_STOP ==> Agrees(c.clientStartStop, c.startStop, c.timeline, c.xform)
  }

  /** Within a session the start/stop state only moves to later timestamps; with the session it starts afresh. */
  ghost predicate Forward(c: Core, r: Core, env: Env) {
    && (r.startStop == c.startStop || r.startStop.timestamp > c.startStop.timestamp
        || (r.startStop == NO_START_STOP && (r.sessionId != c.sessionId || r.nodeId == env.newId)))
    && (r.sessionId != c.sessionId ==> r.startStop == NO_START_STOP)
  }

  ghost predicate SameTransport(c: Core, r: Core) {
    && r.startStop == c.startStop && r.clientStartStop == c.clientStartStop && r.startStopSync == c.startStopSync
    && r.timeline == c.timeline && r.xform == c.xform && r.sessionId == c.sessionId && r.nodeId == c.nodeId
  }

  /** What every event does to the transport. */
  ghost predicate Moves(c: Core, r: Core, env: Env)
    requires Sound(c) && Sound(r)
  {
    (Follows(c) ==> Follows(r)) && Forward(c, r, env) && r.startStopSync == c.startStopSync
  }

  lemma SameTransportMoves(c: Core, r: Core, env: Env)
    requires Sound(c) && Sound(r) && SameTransport(c, r)
    ensures Moves(c, r, env)
  {}

  lemma SameThen(c: Core, d: Core, r: Core, env: Env)
    requires Sound(c) && Sound(d) && Sound(r) && SameTransport(c, d) && Moves(d, r, env)
    ensures Moves(c, r, env)
  {}

  /** A transport mapped from the session's agrees with it. */
  lemma MappedAgrees(ss: StartStopState, tl: Timeline, xform: GhostXForm)
    requires Usable(tl.bpm) && xform.slope != 0.0
    ensures Agrees(StartStopToClient(ss, tl, xform), ss, tl, xform)
  {
    hide Timeline.FromBeats, GhostXForm.GhostToHost;
  }

  lemma TimingFollows(c: Core, tl: Timeline, xform: GhostXForm, now: Micros)
    requires Sound(c) && xform.slope == 1.0
    ensures var r := UpdateSessionTiming(c, tl, xform, now);
      && (Follows(c) ==> Follows(r))
      && r == c.(timeline := r.timeline, xform := r.xform, client := r.client, clientStartStop := r.clientStartStop)
  {
    hide InRange, UpdateClientTimelineFromSession, StartStopToClient, Agrees;
    MappedAgrees(c.startStop, ClampTempo(tl), xform);
    hide Usable;
  }

  lemma StartStopMoves(c: Core, sid: NodeId, ss: StartStopState, env: Env)
    requires Sound(c)
    ensures Moves(c, HandleStartStop(c, sid, ss, env), env)
  {
    hide InRange, StartStopToClient, Agrees, CurrentPeerState;
    MappedAgrees(ss, c.timeline, c.xform);
    hide Usable;
  }

  /** Founding a session leaves it without a transport state and the client's as it was. */
  lemma ResetMoves(c: Core, env: Env)
    requires Sound(c)
    ensures var r := ResetState(c, env); Moves(c, r, env) && r.startStop == NO_START_STOP && r.clientStartStop == c.clientStartStop && r.nodeId == env.newId
  {
    hide InRange, Usable, FoundedTimeline, UpdateClientTimelineFromSession, StartStopToClient, Agrees, CurrentPeerState;
  }

  lemma MembershipMoves(c: Core, env: Env)
    requires Sound(c)
    ensures Moves(c, SessionMembershipChanged(c, env), env)
    ensures var r := SessionMembershipChanged(c, env); SameTransport(c, r) || (r.startStop == NO_START_STOP && r.nodeId == env.newId)
  {
    hide InRange, Usable, Agrees, ResetState, Members;
    ResetMoves(c.(peerNbr := 0), env);
    SameTransportMoves(c, c, env);
  }

  lemma SwitchMoves(c: Core, sid: NodeId, xform: GhostXForm, env: Env)
    requires Sound(c) && xform.slope == 1.0 && sid in c.others
    ensures var r := SwitchSession(c, sid, xform, env);
      r.sessionId == sid && r.startStop == NO_START_STOP && r.startStopSync == c.startStopSync
  {}

  lemma ResultMoves(c: Core, sid: NodeId, xform: GhostXForm, env: Env)
    requires Sound(c) && IsResult(xform)
    ensures Moves(c, HandleMeasurementResult(c, sid, xform, env), env)
    ensures xform == ZERO_XFORM ==> SameTransport(c, HandleMeasurementResult(c, sid, xform, env))
  {
    hide InRange, Usable, Agrees, UpdateSessionTiming, SwitchSession, SessionMembershipChanged, CurrentPeerState, Wins;
    if sid == c.sessionId {
      if xform != ZERO_XFORM {
        TimingFollows(c, c.timeline, xform, env.update);
      }
    } else if sid in c.others && xform != ZERO_XFORM && Wins(sid, xform, c.sessionId, c.xform, env.decide) {
      SwitchMoves(c, sid, xform, env);
      MembershipMoves(SwitchSession(c, sid, xform, env), env);
    }
  }

  lemma LaunchMoves(c: Core, sid: NodeId, env: Env)
    requires Sound(c)
    ensures SameTransport(c, LaunchMeasurement(c, sid, env))
  {
    hide InRange, Usable, HandleMeasurementResult, Members, Chosen;
    ResultMoves(c, sid, ZERO_XFORM, env);
  }

  lemma SawTimelineMoves(c: Core, sid: NodeId, tl: Timeline, env: Env)
    requires Sound(c)
    ensures var r := SawSessionTimeline(c, sid, tl, env);
      && (Follows(c) ==> Follows(r)) && r.startStop == c.startStop && r.startStopSync == c.startStopSync
      && r.sessionId == c.sessionId && r.nodeId == c.nodeId
  {
    hide InRange, Usable, Agrees, UpdateSessionTiming, LaunchMeasurement, CurrentPeerState;
    TimingFollows(c, tl, c.xform, env.update);
    LaunchMoves(c.(others := c.others[sid := tl]), sid, env);
  }

  lemma SawPeerMoves(c: Core, id: NodeId, state: PeerState, env: Env, filtered: bool)
    requires Sound(c)
    ensures Moves(c, SawPeerState(c, id, state, env, filtered), env)
  {
    hide InRange, Usable, Follows, NoteTimeline, NoteStartStop, SessionMembershipChanged;
    NoteMoves(c, id, state, env, filtered);
    var c1 := NoteTimeline(c, id, state, env, filtered);
    NoteStartStopMoves(c1, id, state, env);
    MembershipMoves(NoteStartStop(c1, id, state, env), env);
  }

  lemma NoteMoves(c: Core, id: NodeId, state: PeerState, env: Env, filtered: bool)
    requires Sound(c)
    ensures var r := NoteTimeline(c, id, state, env, filtered);
      && (Follows(c) ==> Follows(r)) && r.startStop == c.startStop && r.startStopSync == c.startStopSync
      && r.sessionId == c.sessionId && r.nodeId == c.nodeId
  {
    hide InRange, Usable, Follows, SawSessionTimeline, TimelineChanged;
    var propagate := !filtered || TimelineChanged(EntryOf(c, id), state);
    var d := c.(peers := c.peers[id := NotedPeer(EntryOf(c, id), state, env, propagate)]);
    SawTimelineMoves(d, state.sessionId, state.timeline, env);
    SameTransportMoves(c, d, env);
  }

  lemma NoteStartStopMoves(c: Core, id: NodeId, state: PeerState, env: Env)
    requires Sound(c) && id in c.peers
    ensures var r := NoteStartStop(c, id, state, env);
      && Moves(c, r, env) && r.sessionId == c.sessionId && r.nodeId == c.nodeId
      && (r.startStop == c.startStop || r.startStop.timestamp > c.startStop.timestamp)
  {
    hide InRange, Usable, Follows, HandleStartStop;
    var p := c.peers[id].(ssKnown := true, ssSession := state.sessionId, ssPropagated := state.startStop);
    var d := c.(peers := c.peers[id := p]);
    SameTransportMoves(c, d, env);
    SameTransportMoves(c, c, env);
    StartStopMoves(d, state.sessionId, state.startStop, env);
    HandlingKeepsIds(d, state.sessionId, state.startStop, env);
  }

  lemma HandlingKeepsIds(c: Core, sid: NodeId, ss: StartStopState, env: Env)
    requires Sound(c)
    ensures var r := HandleStartStop(c, sid, ss, env); r.sessionId == c.sessionId && r.nodeId == c.nodeId
    ensures var r := HandleStartStop(c, sid, ss, env); r.startStop == c.startStop || r.startStop.timestamp > c.startStop.timestamp
  {
    hide InRange, Usable, StartStopToClient, CurrentPeerState;
  }

  lemma FinishMoves(c: Core, sid: NodeId, xform: GhostXForm, env: Env)
    requires Sound(c) && IsResult(xform) && sid in c.measurements
    ensures Moves(c, FinishMeasurement(c, sid, xform, env), env)
  {
    hide InRange, Usable, Agrees, HandleMeasurementResult, Moves;
    var c1 := Emit(c, DisarmWatchdog(sid)).(measurements := c.measurements - {sid});
    var c2 := Emit(c1, Ended(sid, xform != ZERO_XFORM, |c.measurements[sid].points|));
    ResultMoves(c2, sid, xform, env);
    SameThen(c, c2, HandleMeasurementResult(c2, sid, xform, env), env);
  }

  lemma PongMoves(c: Core, sid: NodeId, pong: Result<Pong>, env: Env)
    requires Sound(c) && sid in c.measurements
    ensures Moves(c, HandlePong(c, sid, pong, env), env)
  {
    hide InRange, Usable, Agrees, FinishMeasurement, Samples, Median, Llround, Moves;
    if pong.Err? || pong.value.sessionId != sid {
      FinishMoves(c, sid, ZERO_XFORM, env);
    } else {
      var m := c.measurements[sid];
      var points := m.points + Samples(pong.value, env.ping);
      var c1 := Emit(c, PingSent(sid, m.target, env.ping, pong.value.ghostTime)).(measurements := c.measurements[sid := m.(points := points)]);
      if |points| > MAX_MEASURE_POINTS {
        var xform := GhostXForm(1.0, Llround(Median(points)));
        FinishMoves(c1, sid, xform, env);
        SameThen(c, c1, FinishMeasurement(c1, sid, xform, env), env);
      } else {
        SameTransportMoves(c, HandlePong(c, sid, pong, env), env);
      }
    }
  }

  lemma MeasuringMoves(c: Core, e: Event, env: Env, filtered: bool)
    requires Sound(c) && (e.PongReceived? || e.WatchdogDue? || e.RemeasureDue?)
    ensures Moves(c, Step(c, e, env, filtered), env)
  {
    hide InRange, Usable, Agrees, FinishMeasurement, HandlePong, LaunchMeasurement, Moves;
    if e.RemeasureDue? {
      LaunchMoves(Emit(c, RemeasureRan), c.sessionId, env);
      SameTransportMoves(c, RemeasureFired(c, env), env);
    } else if e.sid !in c.measurements {
      SameTransportMoves(c, Step(c, e, env, filtered), env);
    } else if e.PongReceived? {
      PongMoves(c, e.sid, e.pong, env);
      SameTransportMoves(c, c, env);
    } else {
      var c1 := Emit(c, WatchdogRan(e.sid));
      if c.measurements[e.sid].started < MAX_MEASURE_STARTS {
        SameTransportMoves(c, WatchdogFired(c, e.sid, env), env);
      } else {
        FinishMoves(c1, e.sid, ZERO_XFORM, env);
        SameThen(c, c1, FinishMeasurement(c1, e.sid, ZERO_XFORM, env), env);
      }
    }
  }

  lemma CommitMoves(c: Core, client: Timeline, at: Micros, env: Env)
    requires Sound(c) && InRange(client.bpm)
    ensures Moves(c, CommitClientTimeline(c.(client := client), at, env), env)
  {
    hide InRange, Usable, Agrees, UpdateSessionTiming, UpdateSessionTimelineFromClient, CacheTimeline, CurrentPeerState;
    var c1 := c.(client := client);
    TimingFollows(c1, UpdateSessionTimelineFromClient(c.timeline, client, at, c.xform), c.xform, env.update);
  }

  lemma CommandMoves(c: Core, e: Event, env: Env, filtered: bool)
    requires Sound(c) && (e.SetTempo? || e.ForceBeat? || e.RequestBeat?)
    ensures Moves(c, Step(c, e, env, filtered), env)
  {
    hide InRange, Usable, CommitClientTimeline, RequestedTime, ForceBeatWithRetry, WithTempo, Moves;
    match e
    case SetTempo(bpm, at) =>
      TempoChangeKeepsBeat(c.client, bpm, at);
      CommitMoves(c, WithTempo(c.client, bpm, at), at, env);
    case ForceBeat(beat, at, quantum) =>
      ForcedBeatWithRetry(c.client, beat, at, quantum);
      CommitMoves(c, ForceBeatWithRetry(c.client, beat, at, quantum), at, env);
    case RequestBeat(beat, at, quantum) =>
      var t := RequestedTime(c, beat, at, quantum);
      ForcedBeatWithRetry(c.client, beat, t, quantum);
      CommitMoves(c, ForceBeatWithRetry(c.client, beat, t, quantum), t, env);
  }

  // ----- Playing and stopping -----

  /**
   What keeps client and session in agreement over a play change: it is not at
   the very instant of the session's latest change, unless it says the same;
   and the first change of a session is not older than the client's latest.
   */
  predicate Consistent(c: Core, playing: bool, at: Micros)
    requires Sound(c)
  {
    var ghostAt := c.xform.HostToGhost(at);
    !c.startStopSync ||
    if c.startStop == NO_START_STOP then ghostAt <= 0 || at >= c.clientStartStop.timestamp
    else ghostAt != c.startStop.timestamp || Repeats(c, playing, at)
  }

  /** The change says what the session's latest change says. */
  predicate Repeats(c: Core, playing: bool, at: Micros)
    requires Sound(c)
  {
    playing == c.startStop.isPlaying && Abs(at - c.xform.GhostToHost(c.timeline.FromBeats(c.startStop.beats))) <= 2
  }

  /** A play change taken over by client and session at once leaves them in agreement. */
  lemma PlayedAgrees(playing: bool, at: Micros, tl: Timeline, xform: GhostXForm)
    requires InRange(tl.bpm) && Usable(tl.bpm) && xform.slope == 1.0
    ensures var ghostAt := xform.HostToGhost(at);
      Agrees(ClientStartStop(playing, at, at), StartStopState(playing, tl.ToBeats(ghostAt), ghostAt), tl, xform)
  {
    var ghostAt := xform.HostToGhost(at);
    PlayedBeatIsNear(tl, ghostAt);
    UnitSlopeTranslates(xform, at);
    UnitSlopeTranslates(xform, ghostAt);
    UnitSlopeTranslates(xform, tl.FromBeats(tl.ToBeats(ghostAt)));
    hide InRange, Usable, Timeline.ToBeats, Timeline.FromBeats, GhostXForm.HostToGhost, GhostXForm.GhostToHost;
  }

  lemma PlayedBeatIsNear(tl: Timeline, t: Micros)
    requires InRange(tl.bpm) && Usable(tl.bpm)
    ensures Abs(tl.FromBeats(tl.ToBeats(t)) - t) <= 2
  {
    InRangeMicros(tl.bpm);
    BackToMicros(MicrosPerBeat(tl.bpm), t - tl.timeOrigin);
    hide MicrosPerBeat, BeatsOf, MicrosOf;
  }

  /** Agreement compares the instants of the latest changes. */
  lemma AgreeingInstants(client: ClientStartStop, ss: StartStopState, tl: Timeline, xform: GhostXForm, at: Micros)
    requires Usable(tl.bpm) && xform.slope == 1.0 && client.timestamp == xform.GhostToHost(ss.timestamp)
    ensures at >= client.timestamp <==> xform.HostToGhost(at) >= ss.timestamp
    ensures at == client.timestamp <==> xform.HostToGhost(at) == ss.timestamp
  {}

  /** After the first play change of a session the client agrees exactly when it took the change over too. */
  lemma FirstChangeAgreesIff(c: Core, playing: bool, at: Micros, env: Env)
    requires Sound(c) && c.startStopSync && c.startStop == NO_START_STOP
    ensures Follows(ApplyPlayingChange(c, playing, at, env)) <==> Consistent(c, playing, at)
  {
    PlayedAgrees(playing, at, c.timeline, c.xform);
    UnitSlopeTranslates(c.xform, at);
    UnitSlopeTranslates(c.xform, c.xform.HostToGhost(at));
    hide InRange, Usable, Timeline.ToBeats, Timeline.FromBeats, GhostXForm.HostToGhost, GhostXForm.GhostToHost, CurrentPeerState;
  }

  lemma LaterChangeAgreesIff(c: Core, playing: bool, at: Micros, env: Env)
    requires Sound(c) && c.startStopSync && c.startStop != NO_START_STOP && Follows(c)
    ensures Follows(ApplyPlayingChange(c, playing, at, env)) <==> Consistent(c, playing, at)
  {
    PlayedAgrees(playing, at, c.timeline, c.xform);
    AgreeingInstants(c.clientStartStop, c.startStop, c.timeline, c.xform, at);
    hide InRange, Usable, Timeline.ToBeats, Timeline.FromBeats, GhostXForm.HostToGhost, GhostXForm.GhostToHost, CurrentPeerState;
    var ghostAt := c.xform.HostToGhost(at);
    if ghostAt != c.startStop.timestamp {
      hide Agrees;
    }
  }

  /**
   After a play change the client still agrees with the session exactly when
   the change was consistent. In particular a change at the very instant of the
   session's latest one reaches the client alone.
   */
  lemma PlayChangeAgreesIff(c: Core, playing: bool, at: Micros, env: Env)
    requires Sound(c) && Follows(c)
    ensures var r := ApplyPlayingChange(c, playing, at, env);
      Follows(r) <==> Consistent(c, playing, at)
  {
    if c.startStopSync {
      if c.startStop == NO_START_STOP {
        FirstChangeAgreesIff(c, playing, at, env);
      } else {
        LaterChangeAgreesIff(c, playing, at, env);
      }
    }
    hide InRange, Usable, Agrees, Repeats, Timeline.ToBeats, Timeline.FromBeats, GhostXForm.HostToGhost, GhostXForm.GhostToHost, CurrentPeerState;
  }

  lemma PlayChangeIsForward(c: Core, playing: bool, at: Micros, env: Env)
    requires Sound(c)
    ensures var r := ApplyPlayingChange(c, playing, at, env); Forward(c, r, env)
  {
    hide InRange, Usable, Timeline.ToBeats, GhostXForm.HostToGhost, CurrentPeerState;
  }

  /** Playing and stopping at the same instant: the session keeps playing, the client has stopped. */
  lemma PlayChangeCanDisagree(c: Core, at: Micros, env: Env)
    requires Sound(c) && c.enabled && c.startStopSync && c.startStop == NO_START_STOP
    requires at >= c.clientStartStop.timestamp && c.xform.HostToGhost(at) > 0
    ensures var r := ApplyPlayingChange(ApplyPlayingChange(c, true, at, env), false, at, env);
      r.startStop.isPlaying && !r.clientStartStop.isPlaying && !Follows(r)
  {}

  /** Turning sync on maps nothing: right after it the client disagrees with a session that plays without it. */
  lemma LateSyncDisagrees(c: Core, env: Env)
    requires Sound(c) && c.startStop.isPlaying && !c.clientStartStop.isPlaying
    ensures !Follows(Step(c, SetSync(true), env, true))
  {
    hide InRange, Usable, GhostXForm.GhostToHost, Timeline.FromBeats;
  }

  /** With sync on, whatever was before, a change of session timing or a newer state of the session brings agreement. */
  lemma ChangesBringAgreement(c: Core, tl: Timeline, xform: GhostXForm, sid: NodeId, ss: StartStopState, env: Env)
    requires Sound(c) && c.startStopSync && xform.slope == 1.0
    ensures var r := UpdateSessionTiming(c, tl, xform, env.update); r.timeline != c.timeline || r.xform != c.xform ==> Follows(r)
    ensures sid == c.sessionId && ss.timestamp > c.startStop.timestamp ==> Follows(HandleStartStop(c, sid, ss, env))
  {
    MappedAgrees(c.startStop, ClampTempo(tl), xform);
    MappedAgrees(ss, c.timeline, c.xform);
    hide InRange, Usable, Agrees, UpdateClientTimelineFromSession, StartStopToClient, CurrentPeerState;
  }

  // ----- Every event -----

  /** A play change is consistent, and sync is turned on only while the session has no transport state. */
  predicate Harmonious(c: Core, e: Event)
    requires Sound(c)
  {
    && (e.SetPlaying? ==> Consistent(c, e.playing, e.at))
    && (e.SetSync? && e.on ==> c.startStopSync || c.startStop == NO_START_STOP)
  }

  /** Every event moves the session's transport only forward, and every harmonious one keeps the client in agreement with it. */
  lemma StepMoves(c: Core, e: Event, env: Env, filtered: bool)
    requires Sound(c)
    ensures Forward(c, Step(c, e, env, filtered), env)
    ensures Follows(c) && Harmonious(c, e) ==> Follows(Step(c, e, env, filtered))
  {
    if e.SetSync? {
      hide Agrees, InRange, Usable;
    } else if e.SetTempo? || e.ForceBeat? || e.RequestBeat? {
      CommandMoves(c, e, env, filtered);
      hide *;
    } else if e.PongReceived? || e.WatchdogDue? || e.RemeasureDue? {
      MeasuringMoves(c, e, env, filtered);
      hide *;
    } else if e.SetPlaying? {
      PlayChangeIsForward(c, e.playing, e.at, env);
      if Follows(c) {
        PlayChangeAgreesIff(c, e.playing, e.at, env);
      }
      hide Follows, Consistent, Forward, ApplyPlayingChange, InRange, Usable;
    } else {
      OtherEventMoves(c, e, env, filtered);
      hide *;
    }
  }

  lemma OtherEventMoves(c: Core, e: Event, env: Env, filtered: bool)
    requires Sound(c)
    requires !(e.SetTempo? || e.ForceBeat? || e.RequestBeat? || e.PongReceived? || e.WatchdogDue? || e.RemeasureDue? || e.SetPlaying? || e.SetSync?)
    ensures Moves(c, Step(c, e, env, filtered), env)
  {
    hide InRange, Usable, Agrees, SawPeerState, SessionMembershipChanged, ResetState, CurrentPeerState, PongMessage,
      GhostXForm.HostToGhost, Members;
    if (e.Alive? || e.Response?) && e.announced.Ok? {
      SawPeerMoves(c, e.id, e.announced.value.(nodeId := e.id), env, filtered);
    } else if e.ByeBye? {
      MembershipMoves(c.(peers := c.peers - {e.id}), env);
    } else if e.PruneTick? {
      MembershipMoves(c.(peers := c.peers - Expired(c.peers, env.wall)), env);
    } else if e.Enable? {
      ResetMoves(c.(enabled := true), env);
    }
  }

  ghost predicate HarmoniousRun(c: Core, occurrences: seq<Occurrence>, filtered: bool)
    requires Sound(c)
    decreases |occurrences|
  {
    occurrences == [] ||
    (var before, e := occurrences[..|occurrences| - 1], occurrences[|occurrences| - 1].event;
     && HarmoniousRun(c, before, filtered)
     && Harmonious(Run(c, before, filtered), e))
  }

  /** In every state reached by harmonious events the client plays what the session plays. */
  lemma {:induction false} RunFollows(c: Core, occurrences: seq<Occurrence>, filtered: bool)
    requires Sound(c) && Follows(c) && HarmoniousRun(c, occurrences, filtered)
    ensures Follows(Run(c, occurrences, filtered))
    decreases |occurrences|
  {
    hide InRange, Usable, Agrees, Step, Harmonious;
    if occurrences != [] {
      var last := |occurrences| - 1;
      RunFollows(c, occurrences[..last], filtered);
      StepMoves(Run(c, occurrences[..last], filtered), occurrences[last].event, occurrences[last].env, filtered);
    }
  }
}
