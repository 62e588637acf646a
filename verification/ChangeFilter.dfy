/**
 Leaving out unchanged timelines does no harm (link/engine.go:387-392): as long
 as no session was forgotten, the engine goes through the same states as one
 that propagates every announcement.
 */
module ChangeFilter {
  import opened Rounding
  import opened BeatGrid
  import opened Tempos
  import opened Timelines
  import opened Wire
  import opened NodeIds
  import opened PeerStates
  import opened Measurement
  import opened Session
  import opened Bookkeeping

  /** Two states alike in everything but the log of what was sent and scheduled. */
  predicate Alike(a: Core, b: Core) {
    b == a.(out := b.out)
  }

  // ----- No handler looks at the log -----

  lemma BroadcastAlike(a: Core, b: Core, wall: int)
    requires Alike(a, b)
    ensures Alike(Broadcast(a, wall), Broadcast(b, wall)) && Alike(Broadcast(a, wall), a)
  {}

  lemma TimingAlike(a: Core, b: Core, tl: Timeline, xform: GhostXForm, now: Micros)
    requires Alike(a, b) && Sound(a) && Sound(b) && xform.slope == 1.0
    ensures Alike(UpdateSessionTiming(a, tl, xform, now), UpdateSessionTiming(b, tl, xform, now))
  {}

  lemma ResetAlike(a: Core, b: Core, env: Env)
    requires Alike(a, b) && Sound(a) && Sound(b)
    ensures Alike(ResetState(a, env), ResetState(b, env))
  {
    hide InRange, Usable, FoundedTimeline, UpdateSessionTiming, CurrentPeerState;
    var tl := FoundedTimeline(a.timeline, a.xform, env.found);
    var a1 := a.(nodeId := env.newId, sessionId := env.newId, startStop := NO_START_STOP);
    var b1 := b.(nodeId := env.newId, sessionId := env.newId, startStop := NO_START_STOP);
    TimingAlike(a1, b1, tl, InitXForm(env.found), env.settle);
  }

  lemma MembershipAlike(a: Core, b: Core, env: Env)
    requires Alike(a, b) && Sound(a) && Sound(b)
    ensures Alike(SessionMembershipChanged(a, env), SessionMembershipChanged(b, env))
  {
    hide InRange, Usable, ResetState, Members;
    ResetAlike(a.(peerNbr := 0), b.(peerNbr := 0), env);
  }

  lemma ResultAlike(a: Core, b: Core, sid: NodeId, xform: GhostXForm, env: Env)
    requires Alike(a, b) && Sound(a) && Sound(b) && IsResult(xform)
    ensures Alike(HandleMeasurementResult(a, sid, xform, env), HandleMeasurementResult(b, sid, xform, env))
  {
    hide InRange, Usable, UpdateSessionTiming, SessionMembershipChanged, SwitchSession, CurrentPeerState, Wins;
    if xform != ZERO_XFORM {
      if sid == a.sessionId {
        TimingAlike(a, b, a.timeline, xform, env.update);
      } else if sid in a.others {
        SwitchAlike(a, b, sid, xform, env);
        MembershipAlike(SwitchSession(a, sid, xform, env), SwitchSession(b, sid, xform, env), env);
      }
    }
  }

  lemma SwitchAlike(a: Core, b: Core, sid: NodeId, xform: GhostXForm, env: Env)
    requires Alike(a, b) && Sound(a) && Sound(b) && xform.slope == 1.0 && sid in a.others
    ensures Alike(SwitchSession(a, sid, xform, env), SwitchSession(b, sid, xform, env))
  {
    hide InRange, Usable, UpdateSessionTiming, CurrentPeerState;
    var rest := a.others - {sid};
    var others := if a.sessionId in rest then rest else rest[a.sessionId := a.timeline];
    TimingAlike(a.(others := others, sessionId := sid, startStop := NO_START_STOP),
                b.(others := others, sessionId := sid, startStop := NO_START_STOP), a.others[sid], xform, env.update);
  }

  lemma LaunchAlike(a: Core, b: Core, sid: NodeId, env: Env)
    requires Alike(a, b) && Sound(a) && Sound(b)
    ensures Alike(LaunchMeasurement(a, sid, env), LaunchMeasurement(b, sid, env))
  {
    hide InRange, Usable, HandleMeasurementResult, StartMeasurement, Chosen;
    var candidates := Members(a.peers, sid);
    assert Members(b.peers, sid) == candidates;
    if sid !in a.measurements && candidates != {} {
      match a.peers[Chosen(sid, candidates)].state.endpoint {
        case None => ResultAlike(a, b, sid, ZERO_XFORM, env);
        case Some(target) => StartAlike(a, b, sid, target, env);
      }
    }
  }

  lemma StartAlike(a: Core, b: Core, sid: NodeId, target: Endpoint, env: Env)
    requires Alike(a, b)
    ensures Alike(StartMeasurement(a, sid, target, env), StartMeasurement(b, sid, target, env))
  {}

  lemma SawTimelineAlike(a: Core, b: Core, sid: NodeId, tl: Timeline, env: Env)
    requires Alike(a, b) && Sound(a) && Sound(b)
    ensures Alike(SawSessionTimeline(a, sid, tl, env), SawSessionTimeline(b, sid, tl, env))
  {
    hide InRange, Usable, UpdateSessionTiming, LaunchMeasurement, CurrentPeerState;
    TimingAlike(a, b, tl, a.xform, env.update);
    LaunchAlike(a.(others := a.others[sid := tl]), b.(others := b.others[sid := tl]), sid, env);
  }

  lemma NoteTimelineAlike(a: Core, b: Core, id: NodeId, state: PeerState, env: Env, filtered: bool)
    requires Alike(a, b) && Sound(a) && Sound(b)
    ensures Alike(NoteTimeline(a, id, state, env, filtered), NoteTimeline(b, id, state, env, filtered))
  {
    hide InRange, Usable, SawSessionTimeline;
    var propagate := !filtered || TimelineChanged(EntryOf(a, id), state);
    var peers := a.peers[id := NotedPeer(EntryOf(a, id), state, env, propagate)];
    SawTimelineAlike(a.(peers := peers), b.(peers := peers), state.sessionId, state.timeline, env);
  }

  lemma StartStopAlike(a: Core, b: Core, sid: NodeId, ss: StartStopState, env: Env)
    requires Alike(a, b) && Sound(a) && Sound(b)
    ensures Alike(HandleStartStop(a, sid, ss, env), HandleStartStop(b, sid, ss, env))
  {
    hide InRange, Usable, StartStopToClient, CurrentPeerState, Broadcast;
    BroadcastAlike(a.(startStop := ss), b.(startStop := ss), env.wall);
  }

  lemma NoteStartStopAlike(a: Core, b: Core, id: NodeId, state: PeerState, env: Env)
    requires Alike(a, b) && Sound(a) && Sound(b) && id in a.peers
    ensures Alike(NoteStartStop(a, id, state, env), NoteStartStop(b, id, state, env))
  {
    hide InRange, Usable, HandleStartStop;
    var p := a.peers[id].(ssKnown := true, ssSession := state.sessionId, ssPropagated := state.startStop);
    StartStopAlike(a.(peers := a.peers[id := p]), b.(peers := b.peers[id := p]), state.sessionId, state.startStop, env);
  }

  /** The rest of an announcement after its timeline has been noted. */
  lemma AnnouncementAlike(a: Core, b: Core, a1: Core, b1: Core, id: NodeId, state: PeerState, env: Env, filteredA: bool, filteredB: bool)
    requires Alike(a, b) && Sound(a) && Sound(b)
    requires a1 == NoteTimeline(a, id, state, env, filteredA) && b1 == NoteTimeline(b, id, state, env, filteredB)
    requires Alike(a1, b1)
    ensures Alike(SawPeerState(a, id, state, env, filteredA), SawPeerState(b, id, state, env, filteredB))
  {
    hide InRange, Usable, NoteTimeline, NoteStartStop, SessionMembershipChanged;
    NoteStartStopAlike(a1, b1, id, state, env);
    MembershipAlike(NoteStartStop(a1, id, state, env), NoteStartStop(b1, id, state, env), env);
  }

  lemma SawPeerAlike(a: Core, b: Core, id: NodeId, state: PeerState, env: Env, filtered: bool)
    requires Alike(a, b) && Sound(a) && Sound(b)
    ensures Alike(SawPeerState(a, id, state, env, filtered), SawPeerState(b, id, state, env, filtered))
  {
    hide InRange, Usable, NoteTimeline, SawPeerState;
    NoteTimelineAlike(a, b, id, state, env, filtered);
    AnnouncementAlike(a, b, NoteTimeline(a, id, state, env, filtered), NoteTimeline(b, id, state, env, filtered), id, state, env, filtered, filtered);
  }

  lemma FinishAlike(a: Core, b: Core, sid: NodeId, xform: GhostXForm, env: Env)
    requires Alike(a, b) && Sound(a) && Sound(b) && IsResult(xform) && sid in a.measurements
    ensures Alike(FinishMeasurement(a, sid, xform, env), FinishMeasurement(b, sid, xform, env))
  {
    hide InRange, Usable, HandleMeasurementResult;
    var e := Ended(sid, xform != ZERO_XFORM, |a.measurements[sid].points|);
    var a1 := Emit(Emit(a, DisarmWatchdog(sid)).(measurements := a.measurements - {sid}), e);
    var b1 := Emit(Emit(b, DisarmWatchdog(sid)).(measurements := b.measurements - {sid}), e);
    ResultAlike(a1, b1, sid, xform, env);
  }

  lemma PongAlike(a: Core, b: Core, sid: NodeId, pong: Result<Pong>, env: Env)
    requires Alike(a, b) && Sound(a) && Sound(b) && sid in a.measurements
    ensures Alike(HandlePong(a, sid, pong, env), HandlePong(b, sid, pong, env))
  {
    hide InRange, Usable, FinishMeasurement, Samples, Median, Llround;
    if pong.Err? || pong.value.sessionId != sid {
      FinishAlike(a, b, sid, ZERO_XFORM, env);
    } else {
      var m := a.measurements[sid];
      var ping := PingSent(sid, m.target, env.ping, pong.value.ghostTime);
      var points := m.points + Samples(pong.value, env.ping);
      var a1 := Emit(a, ping).(measurements := a.measurements[sid := m.(points := points)]);
      var b1 := Emit(b, ping).(measurements := b.measurements[sid := m.(points := points)]);
      if |points| > MAX_MEASURE_POINTS {
        FinishAlike(a1, b1, sid, GhostXForm(1.0, Llround(Median(points))), env);
      }
    }
  }

  lemma CommitAlike(a: Core, b: Core, client: Timeline, at: Micros, env: Env)
    requires Alike(a, b) && Sound(a) && Sound(b) && InRange(client.bpm)
    ensures Alike(CommitClientTimeline(a.(client := client), at, env), CommitClientTimeline(b.(client := client), at, env))
  {
    hide InRange, Usable, UpdateSessionTiming, UpdateSessionTimelineFromClient, CacheTimeline, CurrentPeerState;
    var a1, b1 := a.(client := client), b.(client := client);
    TimingAlike(a1, b1, UpdateSessionTimelineFromClient(a.timeline, client, at, a.xform), a.xform, env.update);
  }

  lemma DiscoveryAlike(a: Core, b: Core, e: Event, env: Env, filtered: bool)
    requires Alike(a, b) && Sound(a) && Sound(b)
    requires e.Alive? || e.Response? || e.ByeBye? || e.PruneTick?
    ensures Alike(Step(a, e, env, filtered), Step(b, e, env, filtered))
  {
    hide InRange, Usable, SawPeerState, SessionMembershipChanged, CurrentPeerState, Expired;
    if e.ByeBye? {
      MembershipAlike(a.(peers := a.peers - {e.id}), b.(peers := b.peers - {e.id}), env);
    } else if e.PruneTick? {
      var expired := Expired(a.peers, env.wall);
      MembershipAlike(a.(peers := a.peers - expired), b.(peers := b.peers - expired), env);
    } else if e.announced.Ok? {
      SawPeerAlike(a, b, e.id, e.announced.value.(nodeId := e.id), env, filtered);
    }
  }

  lemma CommandAlike(a: Core, b: Core, e: Event, env: Env, filtered: bool)
    requires Alike(a, b) && Sound(a) && Sound(b)
    requires e.SetTempo? || e.ForceBeat? || e.RequestBeat?
    ensures Alike(Step(a, e, env, filtered), Step(b, e, env, filtered))
  {
    hide InRange, Usable, CommitClientTimeline, RequestedTime, ForceBeatWithRetry, WithTempo, Alike;
    match e
    case SetTempo(bpm, at) =>
      TempoChangeKeepsBeat(a.client, bpm, at);
      SameClient(a, b);
      CommitAlike(a, b, WithTempo(a.client, bpm, at), at, env);
    case ForceBeat(beat, at, quantum) =>
      ForcedBeatWithRetry(a.client, beat, at, quantum);
      SameClient(a, b);
      CommitAlike(a, b, ForceBeatWithRetry(a.client, beat, at, quantum), at, env);
    case RequestBeat(beat, at, quantum) =>
      RequestAlike(a, b, beat, at, quantum);
      var t := RequestedTime(a, beat, at, quantum);
      ForcedBeatWithRetry(a.client, beat, t, quantum);
      SameClient(a, b);
      CommitAlike(a, b, ForceBeatWithRetry(a.client, beat, t, quantum), t, env);
  }

  lemma SameClient(a: Core, b: Core)
    requires Alike(a, b)
    ensures a.client == b.client
  {}

  lemma WatchdogAlike(a: Core, b: Core, sid: NodeId, env: Env)
    requires Alike(a, b) && Sound(a) && Sound(b)
    ensures Alike(WatchdogFired(a, sid, env), WatchdogFired(b, sid, env))
  {
    hide InRange, Usable, FinishMeasurement;
    if sid in a.measurements {
      FinishAlike(Emit(a, WatchdogRan(sid)), Emit(b, WatchdogRan(sid)), sid, ZERO_XFORM, env);
    }
  }

  lemma RemeasureAlike(a: Core, b: Core, env: Env)
    requires Alike(a, b) && Sound(a) && Sound(b)
    ensures Alike(RemeasureFired(a, env), RemeasureFired(b, env))
  {
    hide InRange, Usable, LaunchMeasurement;
    LaunchAlike(Emit(a, RemeasureRan), Emit(b, RemeasureRan), a.sessionId, env);
  }

  lemma MeasurementAlike(a: Core, b: Core, e: Event, env: Env, filtered: bool)
    requires Alike(a, b) && Sound(a) && Sound(b)
    requires e.PongReceived? || e.WatchdogDue? || e.RemeasureDue?
    ensures Alike(Step(a, e, env, filtered), Step(b, e, env, filtered))
  {
    hide InRange, Usable, WatchdogFired, RemeasureFired, HandlePong;
    if e.RemeasureDue? {
      RemeasureAlike(a, b, env);
    } else if e.WatchdogDue? {
      WatchdogAlike(a, b, e.sid, env);
    } else if e.sid in a.measurements {
      PongAlike(a, b, e.sid, e.pong, env);
    }
  }

  /** Every event takes states alike to states alike. */
  lemma StepAlike(a: Core, b: Core, e: Event, env: Env, filtered: bool)
    requires Alike(a, b) && Sound(a) && Sound(b)
    ensures Alike(Step(a, e, env, filtered), Step(b, e, env, filtered))
  {
    if e.Alive? || e.Response? || e.ByeBye? || e.PruneTick? {
      hide *;
      DiscoveryAlike(a, b, e, env, filtered);
    } else if e.SetTempo? || e.ForceBeat? || e.RequestBeat? {
      hide *;
      CommandAlike(a, b, e, env, filtered);
    } else if e.PongReceived? || e.WatchdogDue? || e.RemeasureDue? {
      hide *;
      MeasurementAlike(a, b, e, env, filtered);
    } else if e.Enable? {
      EnableAlike(a, b, e.on, env);
      hide SetEnabled, InRange, Usable, Alike;
    } else if e.SetPlaying? {
      PlayingAlike(a, b, e.playing, e.at, env);
      hide ApplyPlayingChange, InRange, Usable, Alike;
    } else {
      hide InRange, Usable, CurrentPeerState, PongMessage, GhostXForm.HostToGhost;
    }
  }

  lemma EnableAlike(a: Core, b: Core, on: bool, env: Env)
    requires Alike(a, b) && Sound(a) && Sound(b)
    ensures Alike(SetEnabled(a, on, env), SetEnabled(b, on, env))
  {
    hide InRange, Usable, ResetState, CurrentPeerState;
    ResetAlike(a.(enabled := true), b.(enabled := true), env);
  }

  lemma PlayingAlike(a: Core, b: Core, playing: bool, at: Micros, env: Env)
    requires Alike(a, b) && Sound(a) && Sound(b)
    ensures Alike(ApplyPlayingChange(a, playing, at, env), ApplyPlayingChange(b, playing, at, env))
  {
    hide InRange, Usable, Broadcast, GhostXForm.HostToGhost, Timeline.ToBeats;
    var client := if at >= a.clientStartStop.timestamp then ClientStartStop(playing, at, at) else a.clientStartStop;
    var ghostAt := a.xform.HostToGhost(at);
    var ss := StartStopState(playing, a.timeline.ToBeats(ghostAt), ghostAt);
    BroadcastAlike(a.(clientStartStop := client, startStop := ss), b.(clientStartStop := client, startStop := ss), env.wall);
  }

  lemma RequestAlike(a: Core, b: Core, beat: Beats, at: Micros, quantum: Quantum)
    requires Alike(a, b) && Sound(a) && Sound(b)
    ensures RequestedTime(a, beat, at, quantum) == RequestedTime(b, beat, at, quantum)
  {}

  // ----- What the filter leaves out would have changed nothing -----

  /** Propagating an unchanged timeline again finds it held already. */
  lemma UnchangedIsIdle(c: Core, id: NodeId, state: PeerState, env: Env)
    requires Sound(c) && Kept(c) && Clean(c.out)
    ensures Alike(NoteTimeline(c, id, state, env, true), NoteTimeline(c, id, state, env, false))
  {
    hide InRange, Usable, Clean, UpdateSessionTiming, LaunchMeasurement, CurrentPeerState, Members;
    if !TimelineChanged(EntryOf(c, id), state) {
      assert id in c.peers;
      assert HeldAtLeast(c, c.peers[id].tlSession, c.peers[id].tlPropagated.beatOrigin);
      assert NotedPeer(c.peers[id], state, env, true) == NotedPeer(c.peers[id], state, env, false);
    }
  }

  lemma StepWithoutFilter(c: Core, e: Event, env: Env)
    requires Sound(c) && Kept(c) && Clean(c.out)
    ensures Alike(Step(c, e, env, true), Step(c, e, env, false))
  {
    hide InRange, Usable, Clean, SawPeerState, Kept, CurrentPeerState;
    if (e.Alive? || e.Response?) && e.announced.Ok? {
      var state := e.announced.value.(nodeId := e.id);
      UnchangedIsIdle(c, e.id, state, env);
      AnnouncementAlike(c, c, NoteTimeline(c, e.id, state, env, true), NoteTimeline(c, e.id, state, env, false), e.id, state, env, true, false);
    }
  }

  /** No session has been forgotten at any point of the run. */
  ghost predicate AlwaysClean(c: Core, occurrences: seq<Occurrence>)
    requires Sound(c)
    decreases |occurrences|
  {
    && Clean(Run(c, occurrences, true).out)
    && (occurrences == [] || AlwaysClean(c, occurrences[..|occurrences| - 1]))
  }

  /**
   The change filter is harmless: in a run that forgets no session, the engine
   and one without the filter agree at the end, and so at every point, on
   sessions, timelines, peers, measurements and transport.
   */
  lemma {:induction false} FilterIsHarmless(c: Core, occurrences: seq<Occurrence>)
    requires Sound(c) && Kept(c) && AlwaysClean(c, occurrences)
    ensures Alike(Run(c, occurrences, true), Run(c, occurrences, false))
    decreases |occurrences|
  {
    hide InRange, Usable, Clean, Kept, Step, Alike;
    if occurrences == [] {
      assert Alike(c, c) by { AlikeIsEquivalence(c, c, c); }
    } else {
      var last := |occurrences| - 1;
      var before, e, env := occurrences[..last], occurrences[last].event, occurrences[last].env;
      FilterIsHarmless(c, before);
      RunKeeps(c, before, true);
      var a, b := Run(c, before, true), Run(c, before, false);
      StepWithoutFilter(a, e, env);
      StepAlike(a, b, e, env, false);
      AlikeIsEquivalence(Step(a, e, env, true), Step(a, e, env, false), Step(b, e, env, false));
    }
  }

  lemma AlikeIsEquivalence(a: Core, b: Core, c: Core)
    ensures Alike(a, a)
    ensures Alike(a, b) && Alike(b, c) ==> Alike(a, c)
  {}

  // ----- A forgotten session -----

  /**
   After a failed measurement the session is forgotten, and an unchanged
   announcement of it does not bring it back: it stays unknown and unmeasured.
   Without the filter it would be seen again.
   */
  lemma ForgottenUntilChanged(c: Core, id: NodeId, state: PeerState, env: Env)
    requires Sound(c) && Kept(c) && c.enabled && id in c.peers && state.nodeId == id
    requires state.sessionId != c.sessionId && state.sessionId !in c.others && state.sessionId !in c.measurements
    ensures var r := NoteTimeline(c, id, state, env, true);
      var launched := state.sessionId in r.measurements;
      var refused := Forgot(state.sessionId) in r.out[|c.out|..];
      && |c.out| <= |r.out|
      && (launched || refused <==> TimelineChanged(c.peers[id], state))
      && (launched ==> state.sessionId in r.others)
    ensures var r := NoteTimeline(c, id, state, env, false);
      |c.out| <= |r.out| && (state.sessionId in r.measurements || Forgot(state.sessionId) in r.out[|c.out|..])
  {
    hide InRange, Usable, Clean, UpdateSessionTiming, CurrentPeerState;
    var p := NotedPeer(c.peers[id], state, env, true);
    MemberOf(c.peers[id := p], id);
    hide Members;
    var c1 := c.(peers := c.peers[id := p], others := c.others[state.sessionId := state.timeline]);
    SeenAgain(c1, state.sessionId, env);
  }

  lemma SeenAgain(c: Core, sid: NodeId, env: Env)
    requires Sound(c) && sid != c.sessionId && sid in c.others && sid !in c.measurements && Members(c.peers, sid) != {}
    ensures var r := LaunchMeasurement(c, sid, env);
      && |c.out| <= |r.out|
      && (sid in r.measurements <==> Forgot(sid) !in r.out[|c.out|..])
      && (sid in r.measurements ==> sid in r.others)
  {
    hide InRange, Usable, UpdateSessionTiming, JoinSession, Chosen;
  }
}
