/**
 What events add to the log of effects. A run only ever extends it, and only
 the pongs of a measurement add samples to it or pings that answer a pong.
 */
module Trace {
  import opened Rounding
  import opened BeatGrid
  import opened Tempos
  import opened Timelines
  import opened Wire
  import opened NodeIds
  import opened PeerStates
  import opened Measurement
  import opened Session
  import opened Bookkeeping
  import opened Timers

  /** Not a ping of the session's measurement that answers a pong. */
  predicate Bland(e: Effect, sid: NodeId) {
    !(e.PingSent? && e.sid == sid && e.prevGhost != 0)
  }

  /** The log is extended by bland effects, and the measurement of the session has the samples it had or has none yet. */
  ghost predicate Appends(c: Core, r: Core, sid: NodeId) {
    && c.out <= r.out
    && (forall k | |c.out| <= k < |r.out| :: Bland(r.out[k], sid))
    && (sid in r.measurements ==>
          || r.measurements[sid].points == []
          || (sid in c.measurements && r.measurements[sid].points == c.measurements[sid].points))
  }

  lemma Then(c: Core, d: Core, r: Core, sid: NodeId)
    requires Appends(c, d, sid) && Appends(d, r, sid)
    ensures Appends(c, r, sid)
  {
    forall k | |c.out| <= k < |r.out| ensures Bland(r.out[k], sid) {
      if k < |d.out| {
        assert r.out[k] == d.out[k];
      }
    }
  }

  lemma SameAppends(c: Core, r: Core, sid: NodeId)
    requires r.out == c.out && r.measurements == c.measurements
    ensures Appends(c, r, sid)
  {}

  lemma EmitAppends(c: Core, e: Effect, sid: NodeId)
    requires Bland(e, sid)
    ensures Appends(c, Emit(c, e), sid)
  {}

  /** Logging and then changing anything but log and measurements. */
  lemma EmitThen(c: Core, d: Core, e: Effect, r: Core, sid: NodeId)
    requires Appends(c, d, sid) && Bland(e, sid) && r.out == d.out + [e] && r.measurements == d.measurements
    ensures Appends(c, r, sid)
  {
    EmitAppends(d, e, sid);
    Then(c, d, Emit(d, e), sid);
    SameAppends(Emit(d, e), r, sid);
    hide Appends;
    Then(c, Emit(d, e), r, sid);
  }

  // ----- One function at a time -----

  lemma BroadcastAppends(c: Core, d: Core, wall: int, sid: NodeId)
    requires Appends(c, d, sid)
    ensures Appends(c, Broadcast(d, wall), sid)
  {
    hide Appends, CurrentPeerState;
    if d.enabled {
      EmitThen(c, d, Announce(wall, CurrentPeerState(d)), Broadcast(d, wall), sid);
    }
  }

  lemma TimingAppends(c: Core, d: Core, tl: Timeline, xform: GhostXForm, now: Micros, sid: NodeId)
    requires Sound(d) && xform.slope == 1.0 && Appends(c, d, sid)
    ensures Appends(c, UpdateSessionTiming(d, tl, xform, now), sid)
  {
    hide Appends, UpdateSessionTiming, InRange;
    TimingKeeps(d, tl, xform, now);
    SameAppends(d, UpdateSessionTiming(d, tl, xform, now), sid);
    Then(c, d, UpdateSessionTiming(d, tl, xform, now), sid);
  }

  lemma ResetAppends(c: Core, d: Core, env: Env, sid: NodeId)
    requires Sound(d) && Appends(c, d, sid)
    ensures Appends(c, ResetState(d, env), sid)
  {
    hide Appends, UpdateSessionTiming, Broadcast, FoundedTimeline, InRange, Usable;
    var d1 := d.(nodeId := env.newId, sessionId := env.newId, startStop := NO_START_STOP);
    SameAppends(d, d1, sid);
    Then(c, d, d1, sid);
    var founded := FoundedTimeline(d.timeline, d.xform, env.found);
    TimingAppends(c, d1, founded, InitXForm(env.found), env.settle, sid);
    var d2 := UpdateSessionTiming(d1, founded, InitXForm(env.found), env.settle);
    BroadcastAppends(c, d2, env.wall, sid);
    EmitThen(c, Broadcast(d2, env.wall), Founded(env.newId), ResetState(d, env), sid);
  }

  lemma MembershipAppends(c: Core, d: Core, env: Env, sid: NodeId)
    requires Sound(d) && Appends(c, d, sid)
    ensures Appends(c, SessionMembershipChanged(d, env), sid)
  {
    hide Appends, ResetState, Members, InRange, Usable;
    var d1 := d.(peerNbr := |Members(d.peers, d.sessionId)|);
    SameAppends(d, d1, sid);
    Then(c, d, d1, sid);
    ResetAppends(c, d1, env, sid);
  }

  lemma ScheduleAppends(c: Core, d: Core, sid: NodeId)
    requires Appends(c, d, sid)
    ensures Appends(c, ScheduleRemeasure(d), sid)
  {
    EmitThen(c, d, ArmRemeasure, ScheduleRemeasure(d), sid);
    hide Appends;
  }

  lemma JoinAppends(c: Core, d: Core, other: NodeId, xform: GhostXForm, env: Env, sid: NodeId)
    requires Sound(d) && xform.slope == 1.0 && other in d.others && Appends(c, d, sid)
    ensures Appends(c, JoinSession(d, other, xform, env), sid)
  {
    hide Appends, UpdateSessionTiming, Broadcast, SessionMembershipChanged, ScheduleRemeasure, InRange, Usable;
    var rest := d.others - {other};
    var d1 := d.(others := if d.sessionId in rest then rest else rest[d.sessionId := d.timeline], sessionId := other, startStop := NO_START_STOP);
    SameAppends(d, d1, sid);
    Then(c, d, d1, sid);
    TimingAppends(c, d1, d.others[other], xform, env.update, sid);
    BroadcastAppends(c, UpdateSessionTiming(d1, d.others[other], xform, env.update), env.wall, sid);
    var d2 := SwitchSession(d, other, xform, env);
    MembershipAppends(c, d2, env, sid);
    ScheduleAppends(c, SessionMembershipChanged(d2, env), sid);
  }

  lemma ResultAppends(c: Core, d: Core, other: NodeId, xform: GhostXForm, env: Env, sid: NodeId)
    requires Sound(d) && IsResult(xform) && Appends(c, d, sid)
    ensures Appends(c, HandleMeasurementResult(d, other, xform, env), sid)
  {
    hide Appends, UpdateSessionTiming, Broadcast, JoinSession, ScheduleRemeasure, InRange, Usable, Wins;
    if other == d.sessionId {
      if xform == ZERO_XFORM {
        ScheduleAppends(c, d, sid);
      } else {
        TimingAppends(c, d, d.timeline, xform, env.update, sid);
        var d1 := UpdateSessionTiming(d, d.timeline, xform, env.update);
        BroadcastAppends(c, d1, env.wall, sid);
        ScheduleAppends(c, Broadcast(d1, env.wall), sid);
      }
    } else if other in d.others {
      if xform == ZERO_XFORM {
        EmitThen(c, d, Forgot(other), HandleMeasurementResult(d, other, xform, env), sid);
      } else {
        JoinAppends(c, d, other, xform, env, sid);
      }
    }
  }

  lemma StartAppends(c: Core, other: NodeId, target: Endpoint, env: Env, sid: NodeId)
    ensures Appends(c, StartMeasurement(c, other, target, env), sid)
  {}

  lemma LaunchAppends(c: Core, d: Core, other: NodeId, env: Env, sid: NodeId)
    requires Sound(d) && Appends(c, d, sid)
    ensures Appends(c, LaunchMeasurement(d, other, env), sid)
  {
    hide Appends, HandleMeasurementResult, StartMeasurement, Chosen, InRange, Usable;
    var candidates := Members(d.peers, other);
    if other !in d.measurements && candidates == {} {
      SameAppends(d, d.(others := d.others - {other}), sid);
      Then(c, d, d.(others := d.others - {other}), sid);
    } else if other !in d.measurements {
      match d.peers[Chosen(other, candidates)].state.endpoint {
        case None => ResultAppends(c, d, other, ZERO_XFORM, env, sid);
        case Some(target) =>
          StartAppends(d, other, target, env, sid);
          Then(c, d, StartMeasurement(d, other, target, env), sid);
      }
    }
  }

  lemma SawTimelineAppends(c: Core, d: Core, other: NodeId, tl: Timeline, env: Env, sid: NodeId)
    requires Sound(d) && Appends(c, d, sid)
    ensures Appends(c, SawSessionTimeline(d, other, tl, env), sid)
  {
    hide Appends, UpdateSessionTiming, Broadcast, LaunchMeasurement, InRange, Usable;
    if other == d.sessionId {
      TimingAppends(c, d, tl, d.xform, env.update, sid);
      BroadcastAppends(c, if tl.beatOrigin > d.timeline.beatOrigin then UpdateSessionTiming(d, tl, d.xform, env.update) else d, env.wall, sid);
    } else {
      var d1 := d.(others := d.others[other := tl]);
      SameAppends(d, d1, sid);
      Then(c, d, d1, sid);
      LaunchAppends(c, d1, other, env, sid);
    }
  }

  lemma StartStopAppends(c: Core, d: Core, id: NodeId, state: PeerState, env: Env, sid: NodeId)
    requires Sound(d) && id in d.peers && Appends(c, d, sid)
    ensures Appends(c, NoteStartStop(d, id, state, env), sid)
  {
    hide Appends, Broadcast, StartStopToClient, InRange, Usable;
    var p := d.peers[id].(ssKnown := true, ssSession := state.sessionId, ssPropagated := state.startStop);
    var d1 := d.(peers := d.peers[id := p]);
    SameAppends(d, d1, sid);
    Then(c, d, d1, sid);
    var d2 := d1.(startStop := state.startStop);
    SameAppends(d, d2, sid);
    Then(c, d, d2, sid);
    BroadcastAppends(c, d2, env.wall, sid);
    var d3, r := Broadcast(d2, env.wall), NoteStartStop(d, id, state, env);
    if StartStopChanged(d.peers[id], state) && state.sessionId == d.sessionId && state.startStop.timestamp > d.startStop.timestamp {
      SameAppends(d3, r, sid);
      Then(c, d3, r, sid);
    }
  }

  lemma SawPeerAppends(c: Core, id: NodeId, state: PeerState, env: Env, filtered: bool, sid: NodeId)
    requires Sound(c)
    ensures Appends(c, SawPeerState(c, id, state, env, filtered), sid)
  {
    hide Appends, SawSessionTimeline, NoteStartStop, SessionMembershipChanged, TimelineChanged, InRange, Usable;
    var propagate := !filtered || TimelineChanged(EntryOf(c, id), state);
    var c1 := c.(peers := c.peers[id := NotedPeer(EntryOf(c, id), state, env, propagate)]);
    SameAppends(c, c1, sid);
    SawTimelineAppends(c, c1, state.sessionId, state.timeline, env, sid);
    var d := NoteTimeline(c, id, state, env, filtered);
    assert Appends(c, d, sid);
    hide NoteTimeline;
    StartStopAppends(c, d, id, state, env, sid);
    MembershipAppends(c, NoteStartStop(d, id, state, env), env, sid);
  }

  lemma FinishAppends(c: Core, d: Core, other: NodeId, xform: GhostXForm, env: Env, sid: NodeId)
    requires Sound(d) && IsResult(xform) && other in d.measurements && Appends(c, d, sid)
    ensures Appends(c, FinishMeasurement(d, other, xform, env), sid)
  {
    hide HandleMeasurementResult, InRange, Usable;
    var e := Ended(other, xform != ZERO_XFORM, |d.measurements[other].points|);
    var d1 := Emit(d, DisarmWatchdog(other)).(measurements := d.measurements - {other});
    assert Appends(d, d1, sid);
    Then(c, d, d1, sid);
    hide Appends;
    EmitThen(c, d1, e, Emit(d1, e), sid);
    ResultAppends(c, Emit(d1, e), other, xform, env, sid);
  }

  /** The pongs of another measurement. */
  lemma OtherPongAppends(c: Core, other: NodeId, pong: Result<Pong>, env: Env, sid: NodeId)
    requires Sound(c) && other in c.measurements && other != sid
    ensures Appends(c, HandlePong(c, other, pong, env), sid)
  {
    hide FinishMeasurement, Samples, Median, Llround, InRange, Usable;
    if pong.Err? || pong.value.sessionId != other {
      FinishAppends(c, c, other, ZERO_XFORM, env, sid);
    } else {
      var m := c.measurements[other];
      var points := m.points + Samples(pong.value, env.ping);
      var c2 := Emit(c, PingSent(other, m.target, env.ping, pong.value.ghostTime)).(measurements := c.measurements[other := m.(points := points)]);
      assert Appends(c, c2, sid);
      if |points| > MAX_MEASURE_POINTS {
        FinishAppends(c, c2, other, GhostXForm(1.0, Llround(Median(points))), env, sid);
      } else {
        hide Appends;
        EmitThen(c, c2, DisarmWatchdog(other), Emit(c2, DisarmWatchdog(other)), sid);
        EmitThen(c, Emit(c2, DisarmWatchdog(other)), ArmWatchdog(other), HandlePong(c, other, pong, env), sid);
      }
    }
  }

  lemma WatchdogAppends(c: Core, other: NodeId, env: Env, sid: NodeId)
    requires Sound(c)
    ensures Appends(c, WatchdogFired(c, other, env), sid)
  {
    hide FinishMeasurement, InRange, Usable;
    var c1 := Emit(c, WatchdogRan(other));
    if other in c.measurements && c.measurements[other].started >= MAX_MEASURE_STARTS {
      EmitAppends(c, WatchdogRan(other), sid);
      FinishAppends(c, c1, other, ZERO_XFORM, env, sid);
    }
  }

  lemma MeasuringAppends(c: Core, e: Event, env: Env, filtered: bool, sid: NodeId)
    requires Sound(c) && (e.PongReceived? || e.WatchdogDue? || e.RemeasureDue?) && !(e.PongReceived? && e.sid == sid)
    ensures Appends(c, Step(c, e, env, filtered), sid)
  {
    hide Appends, HandlePong, WatchdogFired, LaunchMeasurement, ScheduleRemeasure, InRange, Usable;
    if e.RemeasureDue? {
      EmitAppends(c, RemeasureRan, sid);
      var c1 := Emit(c, RemeasureRan);
      LaunchAppends(c, c1, c1.sessionId, env, sid);
      ScheduleAppends(c, LaunchMeasurement(c1, c1.sessionId, env), sid);
    } else if e.WatchdogDue? {
      WatchdogAppends(c, e.sid, env, sid);
    } else {
      SameAppends(c, c, sid);
      if e.sid in c.measurements {
        OtherPongAppends(c, e.sid, e.pong, env, sid);
      }
    }
  }

  lemma CommitAppends(c: Core, client: Timeline, at: Micros, env: Env, sid: NodeId)
    requires Sound(c) && InRange(client.bpm)
    ensures Appends(c, CommitClientTimeline(c.(client := client), at, env), sid)
  {
    hide Appends, UpdateSessionTiming, Broadcast, UpdateSessionTimelineFromClient, CacheTimeline, InRange, Usable;
    var c1 := c.(client := client);
    SameAppends(c, c1, sid);
    var tl := UpdateSessionTimelineFromClient(c.timeline, client, at, c.xform);
    TimingAppends(c, c1, tl, c.xform, env.update, sid);
    var c2 := UpdateSessionTiming(c1, tl, c.xform, env.update);
    var c3 := c2.(peers := CacheTimeline(c2.peers, c2.sessionId, c2.timeline));
    SameAppends(c2, c3, sid);
    Then(c, c2, c3, sid);
    BroadcastAppends(c, c3, env.wall, sid);
  }

  lemma CommandAppends(c: Core, e: Event, env: Env, filtered: bool, sid: NodeId)
    requires Sound(c) && (e.SetTempo? || e.ForceBeat? || e.RequestBeat?)
    ensures Appends(c, Step(c, e, env, filtered), sid)
  {
    hide Appends, CommitClientTimeline, RequestedTime, ForceBeatWithRetry, WithTempo, InRange, Usable;
    match e
    case SetTempo(bpm, at) =>
      TempoChangeKeepsBeat(c.client, bpm, at);
      CommitAppends(c, WithTempo(c.client, bpm, at), at, env, sid);
    case ForceBeat(beat, at, quantum) =>
      ForcedBeatWithRetry(c.client, beat, at, quantum);
      CommitAppends(c, ForceBeatWithRetry(c.client, beat, at, quantum), at, env, sid);
    case RequestBeat(beat, at, quantum) =>
      var t := RequestedTime(c, beat, at, quantum);
      ForcedBeatWithRetry(c.client, beat, t, quantum);
      CommitAppends(c, ForceBeatWithRetry(c.client, beat, t, quantum), t, env, sid);
  }

  lemma DiscoveryAppends(c: Core, e: Event, env: Env, filtered: bool, sid: NodeId)
    requires Sound(c) && (e.Alive? || e.Response? || e.ByeBye? || e.PruneTick?)
    ensures Appends(c, Step(c, e, env, filtered), sid)
  {
    hide Appends, SawPeerState, SessionMembershipChanged, CurrentPeerState, Expired, InRange, Usable;
    SameAppends(c, c, sid);
    if e.ByeBye? {
      SameAppends(c, c.(peers := c.peers - {e.id}), sid);
      MembershipAppends(c, c.(peers := c.peers - {e.id}), env, sid);
    } else if e.PruneTick? {
      SameAppends(c, c.(peers := c.peers - Expired(c.peers, env.wall)), sid);
      MembershipAppends(c, c.(peers := c.peers - Expired(c.peers, env.wall)), env, sid);
    } else {
      if e.announced.Ok? {
        SawPeerAppends(c, e.id, e.announced.value.(nodeId := e.id), env, filtered, sid);
      }
      var d := Discovered(c, e.id, e.announced, env, filtered);
      EmitThen(c, d, Respond(CurrentPeerState(d)), Emit(d, Respond(CurrentPeerState(d))), sid);
    }
  }

  lemma EnableAppends(c: Core, on: bool, env: Env, sid: NodeId)
    requires Sound(c)
    ensures Appends(c, SetEnabled(c, on, env), sid)
  {
    hide Appends, ResetState, Broadcast, InRange, Usable;
    var c1 := c.(enabled := on);
    SameAppends(c, c, sid);
    SameAppends(c, c1, sid);
    if on != c.enabled && on {
      ResetAppends(c, c1, env, sid);
      BroadcastAppends(c, ResetState(c1, env), env.wall, sid);
    } else if on != c.enabled {
      EmitThen(c, c1, Leave(c.nodeId), SetEnabled(c, on, env), sid);
    }
  }

  lemma PlayingAppends(c: Core, playing: bool, at: Micros, env: Env, sid: NodeId)
    requires Sound(c)
    ensures Appends(c, ApplyPlayingChange(c, playing, at, env), sid)
  {
    hide Appends, Broadcast, Timeline.ToBeats, GhostXForm.HostToGhost, InRange, Usable;
    var c1 := if at >= c.clientStartStop.timestamp then c.(clientStartStop := ClientStartStop(playing, at, at)) else c;
    var ghostAt := c.xform.HostToGhost(at);
    var c2 := c1.(startStop := StartStopState(playing, c.timeline.ToBeats(ghostAt), ghostAt));
    SameAppends(c, c1, sid);
    SameAppends(c, c2, sid);
    BroadcastAppends(c, c2, env.wall, sid);
  }

  lemma OtherEventAppends(c: Core, e: Event, env: Env, filtered: bool, sid: NodeId)
    requires Sound(c)
    requires e.BroadcastTick? || e.PingReceived? || e.BroadcastDue? || e.Elapse? || e.StaleDue? || e.SetPlaying? || e.Enable? || e.SetSync?
    ensures Appends(c, Step(c, e, env, filtered), sid)
  {
    hide SetEnabled, ApplyPlayingChange, CurrentPeerState, PongMessage, GhostXForm.HostToGhost, InRange, Usable;
    if e.Enable? {
      EnableAppends(c, e.on, env, sid);
    } else if e.SetPlaying? {
      PlayingAppends(c, e.playing, e.at, env, sid);
    }
  }

  /** Any event but a pong of the session's measurement extends the log blandly and leaves its samples alone. */
  lemma StepAppends(c: Core, e: Event, env: Env, filtered: bool, sid: NodeId)
    requires Sound(c) && !(e.PongReceived? && e.sid == sid)
    ensures Appends(c, Step(c, e, env, filtered), sid)
  {
    hide *;
    if e.SetTempo? || e.ForceBeat? || e.RequestBeat? {
      CommandAppends(c, e, env, filtered, sid);
    } else if e.PongReceived? || e.WatchdogDue? || e.RemeasureDue? {
      MeasuringAppends(c, e, env, filtered, sid);
    } else if e.Alive? || e.Response? || e.ByeBye? || e.PruneTick? {
      DiscoveryAppends(c, e, env, filtered, sid);
    } else {
      OtherEventAppends(c, e, env, filtered, sid);
    }
  }

  // ----- The log over a run -----

  const ID_ONE: NodeId := RawId([0, 0, 0, 0, 0, 0, 0, 1])

  lemma StepExtends(c: Core, e: Event, env: Env, filtered: bool)
    requires Sound(c)
    ensures c.out <= Step(c, e, env, filtered).out
  {
    assert ID_ONE.bytes[7] != ZERO_ID.bytes[7];
    StepAppends(c, e, env, filtered, if e.PongReceived? && e.sid == ZERO_ID then ID_ONE else ZERO_ID);
    hide Step, InRange, Usable;
  }

  /** A run only extends the log. */
  lemma {:induction false} RunExtends(c: Core, occurrences: seq<Occurrence>, filtered: bool)
    requires Sound(c)
    ensures c.out <= Run(c, occurrences, filtered).out
    decreases |occurrences|
  {
    hide Step, InRange, Usable;
    if occurrences != [] {
      var last := |occurrences| - 1;
      RunExtends(c, occurrences[..last], filtered);
      StepExtends(Run(c, occurrences[..last], filtered), occurrences[last].event, occurrences[last].env, filtered);
    }
  }

  /** A timer cancelled in a reachable state never runs in any state reached from it, not even from the channel. */
  lemma CancelledNeverRuns(c: Core, occurrences: seq<Occurrence>, filtered: bool, id: nat)
    requires Sound(c) && Accounted(c) && PossibleRun(c, occurrences, filtered)
    requires id in Replay(c.out).cancelled
    ensures var h := Replay(Run(c, occurrences, filtered).out); id in h.cancelled && id !in h.ran && id !in h.callbacks
  {
    hide Run, Replay, Owned, Flights, WithinLimits, PossibleRun, InRange, Usable;
    RunAccounts(c, occurrences, filtered);
    RunExtends(c, occurrences, filtered);
    var r := Run(c, occurrences, filtered);
    assert r.out == c.out + r.out[|c.out|..];
    CancelledStays(c.out, r.out[|c.out|..], id);
  }
}
