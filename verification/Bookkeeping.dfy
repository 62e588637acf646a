/** Invariants of the engine's records of peers and sessions, over every run. */
module Bookkeeping {
  import opened Rounding
  import opened BeatGrid
  import opened Tempos
  import opened Timelines
  import opened Wire
  import opened NodeIds
  import opened PeerStates
  import opened Measurement
  import opened Session

  /** How peers and other sessions are recorded. */
  ghost predicate Shape(c: Core) {
    && c.sessionId !in c.others
    && c.nodeId !in c.peers
    && (forall id | id in c.peers ::
          c.peers[id].state.nodeId == id && c.peers[id].tlKnown && c.peers[id].tlSession == c.peers[id].state.sessionId)
    && (!c.enabled ==> c.peers == map[] && c.others == map[])
  }

  /** The peer count is the number of peers whose session is ours. */
  ghost predicate Counted(c: Core) {
    c.peerNbr == |Members(c.peers, c.sessionId)|
  }

  ghost predicate Booked(c: Core) {
    Shape(c) && Counted(c)
  }

  // ----- The change filter -----

  /** The engine holds a timeline of the session with at least this beat origin. */
  ghost predicate HeldAtLeast(c: Core, sid: NodeId, origin: Beats) {
    if sid == c.sessionId then origin <= c.timeline.beatOrigin
    else sid in c.others && origin <= c.others[sid].beatOrigin
  }

  /** Every timeline propagated from a peer is no newer than the one held for its session. */
  ghost predicate Held(c: Core) {
    forall id | id in c.peers :: HeldAtLeast(c, c.peers[id].tlSession, c.peers[id].tlPropagated.beatOrigin)
  }

  /** No session has been forgotten over a failed measurement since the last founding or disabling. */
  ghost predicate Clean(out: seq<Effect>) {
    out == [] ||
    match out[|out| - 1]
    case Forgot(_) => false
    case Founded(_) => true
    case Leave(_) => true
    case _ => Clean(out[..|out| - 1])
  }

  lemma CleanSnoc(out: seq<Effect>, e: Effect)
    ensures Clean(out + [e]) == (e.Founded? || e.Leave? || (!e.Forgot? && Clean(out)))
  {}

  ghost predicate CleanlyHeld(c: Core) {
    Clean(c.out) ==> Held(c)
  }

  ghost predicate Kept(c: Core) {
    Booked(c) && CleanlyHeld(c)
  }

  // ----- One function at a time -----

  lemma BroadcastKeeps(c: Core, wall: int)
    ensures var r := Broadcast(c, wall);
      && r == c.(out := r.out)
      && (Clean(r.out) <==> Clean(c.out))
  {}

  lemma TimingKeeps(c: Core, tl: Timeline, xform: GhostXForm, now: Micros)
    requires Sound(c) && xform.slope == 1.0
    ensures var r := UpdateSessionTiming(c, tl, xform, now);
      && r == c.(timeline := r.timeline, xform := r.xform, client := r.client, clientStartStop := r.clientStartStop)
      && r.timeline == ClampTempo(tl) && r.xform == xform
  {}

  /** Founding a session empties both maps and makes the node its own session. */
  lemma ResetKeeps(c: Core, env: Env)
    requires Sound(c)
    ensures var r := ResetState(c, env);
      && r.nodeId == r.sessionId == env.newId
      && r.peers == map[] && r.others == map[]
      && r.measurements == c.measurements && r.enabled == c.enabled && r.peerNbr == c.peerNbr
      && Shape(r) && Held(r) && Clean(r.out)
      && (c.peerNbr == 0 ==> Counted(r))
  {
    hide FoundedTimeline, InRange;
    var c1 := c.(nodeId := env.newId, sessionId := env.newId, startStop := NO_START_STOP);
    TimingKeeps(c1, FoundedTimeline(c.timeline, c.xform, env.found), InitXForm(env.found), env.settle);
    hide UpdateSessionTiming;
    var r := ResetState(c, env);
    CleanSnoc(r.out[..|r.out| - 1], Founded(env.newId));
    assert Members(r.peers, r.sessionId) == {};
  }

  /** A recount; a drop to zero founds a new session. */
  lemma MembershipKeeps(c: Core, env: Env)
    requires Sound(c) && Shape(c) && CleanlyHeld(c)
    ensures var r := SessionMembershipChanged(c, env);
      && Kept(r)
      && r.measurements == c.measurements && r.enabled == c.enabled
      && (if c.peerNbr > 0 && Members(c.peers, c.sessionId) == {}
          then r.nodeId == r.sessionId == env.newId && r.peers == map[] && r.others == map[] && r.peerNbr == 0
          else r == c.(peerNbr := |Members(c.peers, c.sessionId)|))
  {
    var c1 := c.(peerNbr := |Members(c.peers, c.sessionId)|);
    if c1.peerNbr == 0 {
      ResetKeeps(c1, env);
    }
    hide ResetState, InRange, Members;
  }

  lemma EmitKeeps(c: Core, e: Effect)
    requires Kept(c) && !e.Forgot?
    ensures Kept(Emit(c, e)) || e.Founded? || e.Leave?
  {}

  lemma RefreshKeeps(c: Core, xform: GhostXForm, env: Env)
    requires Sound(c) && xform.slope == 1.0 && Kept(c)
    ensures Kept(Broadcast(UpdateSessionTiming(c, c.timeline, xform, env.update), env.wall))
  {
    TimingKeeps(c, c.timeline, xform, env.update);
    hide UpdateSessionTiming, InRange, Usable, Members, Clean;
    BroadcastKeeps(UpdateSessionTiming(c, c.timeline, xform, env.update), env.wall);
  }

  lemma ResultKeeps(c: Core, sid: NodeId, xform: GhostXForm, env: Env)
    requires Sound(c) && IsResult(xform) && Kept(c)
    ensures Kept(HandleMeasurementResult(c, sid, xform, env))
  {
    hide InRange, Usable, GhostXForm.HostToGhost, JoinSession, UpdateSessionTiming, Clean, Members, Less;
    if sid == c.sessionId {
      if xform == ZERO_XFORM {
        EmitKeeps(c, ArmRemeasure);
      } else {
        RefreshKeeps(c, xform, env);
        EmitKeeps(Broadcast(UpdateSessionTiming(c, c.timeline, xform, env.update), env.wall), ArmRemeasure);
      }
    } else if sid in c.others && xform == ZERO_XFORM {
      CleanSnoc(c.out, Forgot(sid));
    } else if sid in c.others && Wins(sid, xform, c.sessionId, c.xform, env.decide) {
      JoinKeeps(c, sid, xform, env);
    }
  }

  /** Switching remembers the session left behind with everything it held. */
  lemma SwitchKeeps(c: Core, sid: NodeId, xform: GhostXForm, env: Env)
    requires Sound(c) && xform.slope == 1.0 && sid in c.others && sid != c.sessionId && Shape(c) && CleanlyHeld(c)
    ensures var r := SwitchSession(c, sid, xform, env);
      && Shape(r) && CleanlyHeld(r)
      && r.sessionId == sid && r.peerNbr == c.peerNbr && r.peers == c.peers && r.measurements == c.measurements
  {
    var rest := c.others - {sid};
    var c1 := c.(others := rest[c.sessionId := c.timeline], sessionId := sid, startStop := NO_START_STOP);
    TimingKeeps(c1, c.others[sid], xform, env.update);
    hide InRange, Usable, UpdateSessionTiming, Clean;
    var c2 := UpdateSessionTiming(c1, c.others[sid], xform, env.update);
    BroadcastKeeps(c2, env.wall);
    var r := Broadcast(c2, env.wall);
    if Held(c) {
      forall id | id in r.peers ensures HeldAtLeast(r, r.peers[id].tlSession, r.peers[id].tlPropagated.beatOrigin) {
        assert HeldAtLeast(c, c.peers[id].tlSession, c.peers[id].tlPropagated.beatOrigin);
      }
    }
  }

  lemma JoinKeeps(c: Core, sid: NodeId, xform: GhostXForm, env: Env)
    requires Sound(c) && xform.slope == 1.0 && sid in c.others && Kept(c)
    ensures Kept(JoinSession(c, sid, xform, env))
  {
    SwitchKeeps(c, sid, xform, env);
    hide InRange, Usable, SwitchSession, SessionMembershipChanged, Members, Clean;
    var c1 := SwitchSession(c, sid, xform, env);
    MembershipKeeps(c1, env);
    EmitKeeps(SessionMembershipChanged(c1, env), ArmRemeasure);
  }

  /** Launching a measurement touches the records only by forgetting a session it cannot measure. */
  lemma LaunchKeeps(c: Core, sid: NodeId, env: Env)
    requires Sound(c) && Shape(c)
    requires sid == c.sessionId || (sid in c.others && Members(c.peers, sid) != {})
    ensures var r := LaunchMeasurement(c, sid, env);
      && r == c.(others := r.others, measurements := r.measurements, out := r.out)
      && Shape(r)
      && (Clean(r.out) ==> Clean(c.out) && r.others == c.others)
  {
    hide InRange, Usable, GhostXForm.HostToGhost, JoinSession, UpdateSessionTiming, Clean;
    var r := LaunchMeasurement(c, sid, env);
    var candidates := Members(c.peers, sid);
    if sid !in c.measurements && candidates != {} {
      match c.peers[Chosen(sid, candidates)].state.endpoint {
        case None =>
          if sid == c.sessionId {
            CleanSnoc(c.out, ArmRemeasure);
          } else {
            CleanSnoc(c.out, Forgot(sid));
          }
        case Some(target) =>
          hide Members;
          CleanSnoc(c.out, Started(sid));
          CleanSnoc(c.out + [Started(sid)], PingSent(sid, target, env.ping, 0));
          CleanSnoc(c.out + [Started(sid)] + [PingSent(sid, target, env.ping, 0)], ArmWatchdog(sid));
      }
    } else if sid !in c.measurements {
      assert sid == c.sessionId;
      assert c.others - {sid} == c.others;
    }
  }

  lemma RemeasureKeeps(c: Core, env: Env)
    requires Sound(c) && Kept(c)
    ensures Kept(RemeasureFired(c, env))
  {
    EmitKeeps(c, RemeasureRan);
    var c1 := Emit(c, RemeasureRan);
    LaunchKeeps(c1, c1.sessionId, env);
    hide InRange, Usable, LaunchMeasurement, Clean, Members;
    EmitKeeps(LaunchMeasurement(c1, c1.sessionId, env), ArmRemeasure);
  }

  /** r holds every timeline that c holds, or a newer one of the same session. */
  ghost predicate Grows(c: Core, r: Core) {
    forall sid, origin :: HeldAtLeast(c, sid, origin) ==> HeldAtLeast(r, sid, origin)
  }

  /** A seen timeline is held afterwards and nothing held before is lost, unless a session is forgotten. */
  lemma SawTimelineKeeps(c: Core, sid: NodeId, tl: Timeline, env: Env)
    requires Sound(c) && Shape(c) && c.enabled && Members(c.peers, sid) != {}
    ensures var r := SawSessionTimeline(c, sid, tl, env);
      && r == c.(timeline := r.timeline, client := r.client, clientStartStop := r.clientStartStop,
                 others := r.others, measurements := r.measurements, out := r.out)
      && Shape(r)
      && (Clean(r.out) ==> Clean(c.out) && Grows(c, r) && HeldAtLeast(r, sid, tl.beatOrigin))
  {
    hide InRange, Usable, Clean;
    if sid == c.sessionId {
      TimingKeeps(c, tl, c.xform, env.update);
      hide UpdateSessionTiming, Members;
      var c1 := if tl.beatOrigin > c.timeline.beatOrigin then UpdateSessionTiming(c, tl, c.xform, env.update) else c;
      BroadcastKeeps(c1, env.wall);
    } else if sid !in c.others {
      LaunchKeeps(c.(others := c.others[sid := tl]), sid, env);
      hide LaunchMeasurement, Members;
    }
  }

  lemma StartStopKeeps(c: Core, sid: NodeId, ss: StartStopState, env: Env)
    requires Sound(c)
    ensures var r := HandleStartStop(c, sid, ss, env);
      && r == c.(startStop := r.startStop, clientStartStop := r.clientStartStop, out := r.out)
      && (Clean(r.out) <==> Clean(c.out))
  {
    BroadcastKeeps(c.(startStop := ss), env.wall);
    hide InRange, Usable, Broadcast, StartStopToClient, Clean;
  }

  /** What an announcement leaves of the records before membership is recounted. */
  ghost predicate Announced(c: Core, r: Core, id: NodeId, state: PeerState) {
    && r == c.(timeline := r.timeline, client := r.client, clientStartStop := r.clientStartStop, startStop := r.startStop,
               others := r.others, measurements := r.measurements, peers := r.peers, out := r.out)
    && id in r.peers && r.peers[id].state == state
    && r.peers == c.peers[id := r.peers[id]]
    && Shape(r) && CleanlyHeld(r)
  }

  lemma MemberOf(peers: map<NodeId, Peer>, id: NodeId)
    requires id in peers
    ensures id in Members(peers, peers[id].state.sessionId)
  {}

  /** The entry is put in place, propagated if it changed, and held. */
  lemma NoteTimelineKeeps(c: Core, id: NodeId, state: PeerState, env: Env, filtered: bool)
    requires Sound(c) && Shape(c) && CleanlyHeld(c) && c.enabled && id != c.nodeId && state.nodeId == id
    ensures Announced(c, NoteTimeline(c, id, state, env, filtered), id, state)
  {
    hide InRange, Usable, Clean, Members;
    var propagate := !filtered || TimelineChanged(EntryOf(c, id), state);
    var p := NotedPeer(EntryOf(c, id), state, env, propagate);
    var c1 := c.(peers := c.peers[id := p]);
    assert Shape(c1);
    if propagate {
      MemberOf(c1.peers, id);
      SawTimelineKeeps(c1, state.sessionId, state.timeline, env);
      hide SawSessionTimeline;
      var r := SawSessionTimeline(c1, state.sessionId, state.timeline, env);
      if Clean(r.out) {
        forall x | x in r.peers ensures HeldAtLeast(r, r.peers[x].tlSession, r.peers[x].tlPropagated.beatOrigin) {
          if x != id {
            assert HeldAtLeast(c, c.peers[x].tlSession, c.peers[x].tlPropagated.beatOrigin);
          }
        }
      }
    }
  }

  lemma NoteStartStopKeeps(c: Core, c1: Core, id: NodeId, state: PeerState, env: Env)
    requires Sound(c1) && Announced(c, c1, id, state)
    ensures Announced(c, NoteStartStop(c1, id, state, env), id, state)
  {
    hide InRange, Usable, Clean, HeldAtLeast, Held, Shape;
    var p := c1.peers[id].(ssKnown := true, ssSession := state.sessionId, ssPropagated := state.startStop);
    var c2 := c1.(peers := c1.peers[id := p]);
    StartStopKeeps(c2, state.sessionId, state.startStop, env);
    hide HandleStartStop;
    var r := NoteStartStop(c1, id, state, env);
    assert r.peers == c.peers[id := r.peers[id]];
    SameShape(c1, r);
    if Held(c1) {
      SameHeld(c1, r);
    }
  }

  /** Shape depends only on identifiers, sessions known and what was propagated. */
  lemma SameShape(c: Core, r: Core)
    requires Shape(c) && r.sessionId == c.sessionId && r.nodeId == c.nodeId && r.others == c.others && r.enabled == c.enabled
    requires r.peers.Keys == c.peers.Keys
    requires forall id | id in c.peers ::
      r.peers[id].state == c.peers[id].state && r.peers[id].tlKnown == c.peers[id].tlKnown && r.peers[id].tlSession == c.peers[id].tlSession
    ensures Shape(r)
  {}

  /** Held depends only on the timelines held and propagated. */
  lemma SameHeld(c: Core, r: Core)
    requires Held(c) && r.sessionId == c.sessionId && r.timeline == c.timeline && r.others == c.others
    requires r.peers.Keys == c.peers.Keys
    requires forall id | id in c.peers :: r.peers[id].tlSession == c.peers[id].tlSession && r.peers[id].tlPropagated == c.peers[id].tlPropagated
    ensures Held(r)
  {}

  /** Without a change of membership, replacing an entry keeps the count. */
  lemma SameMembers(peers: map<NodeId, Peer>, id: NodeId, p: Peer, sid: NodeId)
    requires id in peers && (peers[id].state.sessionId == sid <==> p.state.sessionId == sid)
    ensures Members(peers[id := p], sid) == Members(peers, sid)
  {}

  lemma SawPeerKeeps(c: Core, id: NodeId, state: PeerState, env: Env, filtered: bool)
    requires Sound(c) && Kept(c) && c.enabled && id != c.nodeId && state.nodeId == id
    ensures Kept(SawPeerState(c, id, state, env, filtered))
  {
    hide InRange, Usable, Clean, Members, NoteTimeline, NoteStartStop, SessionMembershipChanged, Held, HeldAtLeast;
    NoteTimelineKeeps(c, id, state, env, filtered);
    var c1 := NoteTimeline(c, id, state, env, filtered);
    NoteStartStopKeeps(c, c1, id, state, env);
    var c2 := NoteStartStop(c1, id, state, env);
    if MembershipMoved(c, id, state, c2.sessionId) {
      MembershipKeeps(c2, env);
    } else {
      SameMembers(c.peers, id, c2.peers[id], c.sessionId);
    }
  }

  lemma CachingKeepsMembers(peers: map<NodeId, Peer>, sid: NodeId, tl: Timeline)
    ensures Members(CacheTimeline(peers, sid, tl), sid) == Members(peers, sid)
  {}

  /** r is c after a commit: timelines, log and cached peers changed, the beat origin no lower. */
  ghost predicate Committed(c: Core, r: Core) {
    && r == c.(timeline := r.timeline, client := r.client, clientStartStop := r.clientStartStop, peers := r.peers, out := r.out)
    && r.peers == CacheTimeline(c.peers, c.sessionId, r.timeline)
    && r.timeline.beatOrigin >= c.timeline.beatOrigin
    && (Clean(r.out) <==> Clean(c.out))
  }

  /** A commit never lowers the beat origin and touches nothing but timelines and cached peers. */
  lemma CommitForm(c: Core, client: Timeline, at: Micros, env: Env)
    requires Sound(c) && InRange(client.bpm)
    ensures Committed(c, CommitClientTimeline(c.(client := client), at, env))
  {
    hide InRange, Clean, Usable, UpdateSessionTimelineFromClient, GhostXForm.HostToGhost, Timeline.ToBeats, Timeline.FromBeats,
      UpdateSessionTiming, CacheTimeline, Broadcast;
    var d := c.(client := client);
    var tl := UpdateSessionTimelineFromClient(d.timeline, client, at, d.xform);
    SessionFollowsClient(d.timeline, client, at, d.xform);
    TimingKeeps(d, tl, d.xform, env.update);
    var c1 := UpdateSessionTiming(d, tl, d.xform, env.update);
    BroadcastKeeps(c1.(peers := CacheTimeline(c1.peers, c1.sessionId, c1.timeline)), env.wall);
  }

  /** The books are kept across a commit, and optimistic caching stays within the beat origin. */
  lemma CommitKeeps(c: Core, r: Core)
    requires Committed(c, r) && Kept(c)
    ensures Kept(r) && (Held(c) ==> Held(r))
  {
    CachingKeepsMembers(c.peers, c.sessionId, r.timeline);
    hide Clean, Members;
    if Held(c) {
      forall x | x in r.peers ensures HeldAtLeast(r, r.peers[x].tlSession, r.peers[x].tlPropagated.beatOrigin) {
        assert HeldAtLeast(c, c.peers[x].tlSession, c.peers[x].tlPropagated.beatOrigin);
      }
    }
  }

  lemma RemovalKeeps(c: Core, ids: set<NodeId>, env: Env)
    requires Sound(c) && Kept(c)
    ensures Kept(SessionMembershipChanged(c.(peers := c.peers - ids), env))
  {
    hide InRange, Usable, Clean, Members, SessionMembershipChanged;
    var c1 := c.(peers := c.peers - ids);
    if Held(c) {
      forall x | x in c1.peers ensures HeldAtLeast(c1, c1.peers[x].tlSession, c1.peers[x].tlPropagated.beatOrigin) {
        assert HeldAtLeast(c, c.peers[x].tlSession, c.peers[x].tlPropagated.beatOrigin);
      }
    }
    MembershipKeeps(c1, env);
  }

  lemma FinishKeeps(c: Core, sid: NodeId, xform: GhostXForm, env: Env)
    requires Sound(c) && IsResult(xform) && sid in c.measurements && Kept(c)
    ensures Kept(FinishMeasurement(c, sid, xform, env))
  {
    hide InRange, Usable, Clean, Members, HandleMeasurementResult;
    EmitKeeps(c, DisarmWatchdog(sid));
    var c1 := Emit(c, DisarmWatchdog(sid)).(measurements := c.measurements - {sid});
    var e := Ended(sid, xform != ZERO_XFORM, |c.measurements[sid].points|);
    EmitKeeps(c1, e);
    ResultKeeps(Emit(c1, e), sid, xform, env);
  }

  lemma PongKeeps(c: Core, sid: NodeId, pong: Result<Pong>, env: Env)
    requires Sound(c) && sid in c.measurements && Kept(c)
    ensures Kept(HandlePong(c, sid, pong, env))
  {
    hide InRange, Usable, Clean, Members, FinishMeasurement, Median, Samples, Llround, Held;
    if pong.Err? || pong.value.sessionId != sid {
      FinishKeeps(c, sid, ZERO_XFORM, env);
    } else {
      var m := c.measurements[sid];
      var ping := PingSent(sid, m.target, env.ping, pong.value.ghostTime);
      EmitKeeps(c, ping);
      var points := m.points + Samples(pong.value, env.ping);
      var c2 := Emit(c, ping).(measurements := c.measurements[sid := m.(points := points)]);
      assert Kept(c2) by { SameRecords(Emit(c, ping), c2); }
      if |points| > MAX_MEASURE_POINTS {
        FinishKeeps(c2, sid, GhostXForm(1.0, Llround(Median(points))), env);
      } else {
        EmitKeeps(c2, DisarmWatchdog(sid));
        EmitKeeps(Emit(c2, DisarmWatchdog(sid)), ArmWatchdog(sid));
      }
    }
  }

  /** Measurements are no part of what is kept. */
  lemma SameRecords(c: Core, r: Core)
    requires Kept(c) && r == c.(measurements := r.measurements)
    ensures Kept(r)
  {}

  lemma WatchdogKeeps(c: Core, sid: NodeId, env: Env)
    requires Sound(c) && Kept(c)
    ensures Kept(WatchdogFired(c, sid, env))
  {
    hide InRange, Usable, Clean, Members, FinishMeasurement, Held;
    EmitKeeps(c, WatchdogRan(sid));
    var c1 := Emit(c, WatchdogRan(sid));
    if sid in c.measurements {
      var m := c.measurements[sid];
      if m.started < MAX_MEASURE_STARTS {
        var ping := PingSent(sid, m.target, env.ping, 0);
        EmitKeeps(c1, ping);
        var c2 := Emit(c1, ping).(measurements := c.measurements[sid := m.(started := m.started + 1)]);
        SameRecords(Emit(c1, ping), c2);
        EmitKeeps(c2, ArmWatchdog(sid));
      } else {
        FinishKeeps(c1, sid, ZERO_XFORM, env);
      }
    }
  }

  lemma EnableKeeps(c: Core, on: bool, env: Env)
    requires Sound(c) && Kept(c)
    ensures Kept(SetEnabled(c, on, env))
  {}

  /** A play change touches the two transport states only, and raises the timestamp of the session's if it changes it. */
  lemma PlayingForm(c: Core, playing: bool, at: Micros, env: Env)
    requires Sound(c)
    ensures var r := ApplyPlayingChange(c, playing, at, env);
      && r == c.(clientStartStop := r.clientStartStop, startStop := r.startStop, out := r.out)
      && (r.startStop == c.startStop || r.startStop.timestamp > c.startStop.timestamp)
      && (Clean(r.out) <==> Clean(c.out))
  {
    hide Broadcast, Clean, GhostXForm.HostToGhost, Timeline.ToBeats, InRange, Usable;
    var c1 := if at >= c.clientStartStop.timestamp then c.(clientStartStop := ClientStartStop(playing, at, at)) else c;
    var ghostAt := c.xform.HostToGhost(at);
    BroadcastKeeps(c1.(startStop := StartStopState(playing, c.timeline.ToBeats(ghostAt), ghostAt)), env.wall);
  }

  lemma PlayingKeeps(c: Core, playing: bool, at: Micros, env: Env)
    requires Sound(c) && Kept(c)
    ensures Kept(ApplyPlayingChange(c, playing, at, env))
  {
    hide ApplyPlayingChange, Clean, Members, InRange, Usable;
    PlayingForm(c, playing, at, env);
    if Held(c) {
      SameHeld(c, ApplyPlayingChange(c, playing, at, env));
    }
  }

  /** Start/stop sync is no part of what is kept. */
  lemma SyncKeeps(c: Core, r: Core)
    requires Kept(c) && r == c.(startStopSync := r.startStopSync)
    ensures Kept(r)
  {}

  lemma CommandCommits(c: Core, e: Event, env: Env, filtered: bool)
    requires Sound(c) && (e.SetTempo? || e.ForceBeat? || e.RequestBeat?)
    ensures Committed(c, Step(c, e, env, filtered))
  {
    hide CommitClientTimeline, Committed, RequestedTime, ForceBeatWithRetry, WithTempo, InRange, Usable;
    match e
    case SetTempo(bpm, at) =>
      TempoChangeKeepsBeat(c.client, bpm, at);
      CommitForm(c, WithTempo(c.client, bpm, at), at, env);
    case ForceBeat(beat, at, quantum) =>
      ForcedBeatWithRetry(c.client, beat, at, quantum);
      CommitForm(c, ForceBeatWithRetry(c.client, beat, at, quantum), at, env);
    case RequestBeat(beat, at, quantum) =>
      var t := RequestedTime(c, beat, at, quantum);
      ForcedBeatWithRetry(c.client, beat, t, quantum);
      CommitForm(c, ForceBeatWithRetry(c.client, beat, t, quantum), t, env);
  }

  lemma CommandKeeps(c: Core, e: Event, env: Env, filtered: bool)
    requires Sound(c) && Kept(c) && (e.SetTempo? || e.ForceBeat? || e.RequestBeat?)
    ensures Kept(Step(c, e, env, filtered))
  {
    hide *;
    CommandCommits(c, e, env, filtered);
    CommitKeeps(c, Step(c, e, env, filtered));
  }

  /** Every event keeps the books. */
  lemma StepKeeps(c: Core, e: Event, env: Env, filtered: bool)
    requires Sound(c) && Kept(c)
    ensures Kept(Step(c, e, env, filtered))
  {
    hide InRange, Usable, Clean, Members, Kept, SawPeerState, SessionMembershipChanged, CommitClientTimeline,
      GhostXForm.HostToGhost, PongMessage, HandlePong, WatchdogFired, RemeasureFired, ApplyPlayingChange, SetEnabled,
      ApplyTempoChange, ApplyForceBeatAtTime, ApplyRequestBeatAtTime, CurrentPeerState;
    match e
    case Alive(id, announced) => AnnouncementKeeps(c, e, env, filtered);
    case Response(id, announced) => AnnouncementKeeps(c, e, env, filtered);
    case ByeBye(id) =>
      RemovalKeeps(c, {id}, env);
    case PruneTick =>
      RemovalKeeps(c, Expired(c.peers, env.wall), env);
    case BroadcastTick => EmitKeeps(c, Announce(env.wall, CurrentPeerState(c)));
    case PingReceived(from, payload) =>
      EmitKeeps(c, PongSent(from, PongMessage(c.sessionId, c.xform.HostToGhost(env.ping), payload)));
    case PongReceived(sid, pong) =>
      if sid in c.measurements {
        PongKeeps(c, sid, pong, env);
      }
    case WatchdogDue(sid) => WatchdogKeeps(c, sid, env);
    case RemeasureDue => RemeasureKeeps(c, env);
    case BroadcastDue => EmitKeeps(c, BroadcastRan(env.wall, c.enabled, CurrentPeerState(c)));
    case Elapse(timer) => EmitKeeps(c, TimerElapsed(timer));
    case StaleDue => EmitKeeps(c, StaleTimer);
    case SetTempo(bpm, at) => CommandKeeps(c, e, env, filtered);
    case ForceBeat(beat, at, quantum) => CommandKeeps(c, e, env, filtered);
    case RequestBeat(beat, at, quantum) => CommandKeeps(c, e, env, filtered);
    case SetPlaying(playing, at) => PlayingKeeps(c, playing, at, env);
    case Enable(on) => EnableKeeps(c, on, env);
    case SetSync(on) => SyncKeeps(c, c.(startStopSync := on));
  }

  lemma AnnouncementKeeps(c: Core, e: Event, env: Env, filtered: bool)
    requires Sound(c) && Kept(c) && (e.Alive? || e.Response?)
    ensures Kept(Step(c, e, env, filtered))
  {
    hide InRange, Usable, Clean, Kept, SawPeerState, CurrentPeerState;
    if e.id != c.nodeId && c.enabled {
      if e.announced.Ok? {
        SawPeerKeeps(c, e.id, e.announced.value.(nodeId := e.id), env, filtered);
      }
      var c1 := Discovered(c, e.id, e.announced, env, filtered);
      EmitKeeps(c1, Respond(CurrentPeerState(c1)));
    }
  }

  /**
   In every reachable state the peer count, the records of peers and the
   records of sessions are right, and unless a session was forgotten since the
   last founding or disabling every propagated timeline is held.
   */
  lemma {:induction false} RunKeeps(c: Core, occurrences: seq<Occurrence>, filtered: bool)
    requires Sound(c) && Kept(c)
    ensures Kept(Run(c, occurrences, filtered))
    decreases |occurrences|
  {
    if occurrences != [] {
      var last := |occurrences| - 1;
      RunKeeps(c, occurrences[..last], filtered);
      StepKeeps(Run(c, occurrences[..last], filtered), occurrences[last].event, occurrences[last].env, filtered);
    }
  }

  lemma InitiallyKept(self: Option<Endpoint>, id: NodeId, bpm: real, sync: bool, now: Micros)
    ensures Kept(InitialCore(self, id, bpm, sync, now))
  {}
}
