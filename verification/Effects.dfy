/** What single events bring about, beyond what they preserve (link/engine.go, link/measurement.go). */
module Effects {
  import opened Rounding
  import opened BeatGrid
  import opened Tempos
  import opened Timelines
  import opened Wire
  import opened NodeIds
  import opened PeerStates
  import opened Measurement
  import opened Session
  import opened Bookkeeping
  import opened Coupling
  import opened Timers
  import Presence
  import Joining
  import C = Convergence

  // ----- A new node and a new session -----

  /** A new node is disabled, alone in its own session and at beat 0 now, in session and client alike, not playing. */
  lemma NewNodeStartsAtBeatZero(self: Option<Endpoint>, id: NodeId, bpm: real, sync: bool, now: Micros)
    ensures var c := InitialCore(self, id, bpm, sync, now);
      && c.nodeId == c.sessionId == id && !c.enabled && c.peers == map[] && c.others == map[] && c.measurements == map[] && c.peerNbr == 0
      && c.xform.HostToGhost(now) == 0
      && c.timeline.bpm == c.client.bpm == Clamp(bpm)
      && c.timeline.ToBeats(0) == 0 && c.client.ToBeats(now) == 0
      && !c.clientStartStop.isPlaying && c.startStop == NO_START_STOP && c.out == []
  {
    hide MicrosPerBeat, BeatsOf, GhostXForm.HostToGhost, GhostXForm.GhostToHost, InRange;
    var c := InitialCore(self, id, bpm, sync, now);
    UnitSlopeTranslates(InitXForm(now), now);
    UnitSlopeTranslates(InitXForm(now), 0);
    ConversionsAreOdd(MicrosPerBeat(c.timeline.bpm), 0, 0);
  }

  /** A founded session starts its ghost time now and is announced, without a transport state. */
  lemma FoundedSessionIsAnnounced(c: Core, env: Env)
    requires Sound(c)
    ensures var r := ResetState(c, env);
      && r.nodeId == r.sessionId == env.newId && r.peers == map[] && r.others == map[]
      && r.xform.HostToGhost(env.found) == 0 && r.startStop == NO_START_STOP && r.enabled == c.enabled
      && r.out == c.out + (if c.enabled then [Announce(env.wall, CurrentPeerState(r))] else []) + [Founded(env.newId)]
  {
    hide UpdateSessionTiming, FoundedTimeline, GhostXForm.HostToGhost, InRange, Usable;
    var d := c.(nodeId := env.newId, sessionId := env.newId, startStop := NO_START_STOP);
    TimingKeeps(d, FoundedTimeline(c.timeline, c.xform, env.found), InitXForm(env.found), env.settle);
    UnitSlopeTranslates(InitXForm(env.found), env.found);
  }

  /** Enabling founds a session and announces it; disabling says goodbye and forgets peers and sessions; neither does anything twice. */
  lemma EnablingFounds(c: Core, on: bool, env: Env)
    requires Sound(c)
    ensures var r := Step(c, Enable(on), env, true);
      && r.enabled == on
      && (on == c.enabled ==> r == c)
      && (on && !c.enabled ==> r.sessionId == r.nodeId == env.newId && r.peers == map[] && r.others == map[]
                               && |r.out| > 0 && r.out[|r.out| - 1] == Announce(env.wall, CurrentPeerState(r)))
      && (!on && c.enabled ==> r.peers == map[] && r.others == map[] && r.peerNbr == 0 && r.out == c.out + [Leave(c.nodeId)])
  {
    hide Step, ResetState, InRange, Usable;
    StepIs(c, Enable(on), env, true);
    ResetKeeps(c.(enabled := true), env);
  }

  // ----- Peers -----

  /** What a node announces is what another one hears, field by field. */
  lemma NodeIsHeardAsItIs(c: Core)
    requires Sound(c)
    ensures C.Message(c) == PeerState(c.nodeId, c.sessionId, OnTheWire(c.timeline), c.startStop, c.self)
  {
    hide OnTheWire, InRange, Usable;
  }

  /** Alive and response messages do the same, except that an alive message is answered with the node's state. */
  lemma OnlyAliveIsAnswered(c: Core, id: NodeId, announced: Result<PeerState>, env: Env)
    requires Sound(c) && c.enabled && id != c.nodeId
    ensures var heard := Step(c, Response(id, announced), env, true);
      Step(c, Alive(id, announced), env, true) == heard.(out := heard.out + [Respond(CurrentPeerState(heard))])
  {
    hide SawPeerState, CurrentPeerState, InRange, Usable;
  }

  /** A heard peer lives for six seconds: a later pruning drops it exactly if they are over. */
  lemma PeerLivesSixSeconds(c: Core, id: NodeId, state: PeerState, heard: Env, pruned: Env)
    requires Sound(c) && Kept(c) && c.enabled && id != c.nodeId
    requires !Presence.FoundedAlone(Step(c, Alive(id, Ok(state)), heard, true), heard)
    requires !Presence.FoundedAlone(Step(Step(c, Alive(id, Ok(state)), heard, true), PruneTick, pruned, true), pruned)
    ensures id in Step(c, Alive(id, Ok(state)), heard, true).peers
    ensures id in Step(Step(c, Alive(id, Ok(state)), heard, true), PruneTick, pruned, true).peers
      <==> pruned.wall <= heard.wall + 6000000
  {
    hide Step, Kept, Presence.FoundedAlone, InRange, Usable;
    var d := Step(c, Alive(id, Ok(state)), heard, true);
    StepKeeps(c, Alive(id, Ok(state)), heard, true);
    Presence.StepPeers(c, Alive(id, Ok(state)), heard, true);
    Presence.StepPeers(d, PruneTick, pruned, true);
    assert d.peers[id].expireAt == Presence.Expiries(d.peers)[id] == heard.wall + 6000000;
  }

  // ----- Timelines of sessions -----

  /** The own session's timeline is replaced exactly by a strictly newer one, not heard from this peer before. */
  lemma OwnTimelineIsAdoptedIff(c: Core, id: NodeId, state: PeerState, env: Env)
    requires Sound(c) && state.sessionId == c.sessionId
    ensures var r := NoteTimeline(c, id, state, env, true);
      && r.timeline == (if TimelineChanged(EntryOf(c, id), state) && state.timeline.beatOrigin > c.timeline.beatOrigin
                        then ClampTempo(state.timeline) else c.timeline)
      && r.xform == c.xform
      && r.client.ToBeats(env.update) == c.client.ToBeats(env.update)
      && (TimelineChanged(EntryOf(c, id), state) && c.enabled ==> r.out == c.out + [Announce(env.wall, CurrentPeerState(r))])
  {
    hide UpdateSessionTiming, LaunchMeasurement, TimelineChanged, ClampTempo, Timeline.ToBeats, InRange, Usable;
    var d := c.(peers := c.peers[id := NotedPeer(EntryOf(c, id), state, env, true)]);
    TimingKeeps(d, state.timeline, d.xform, env.update);
    TimingCouples(d, state.timeline, d.xform, env.update);
  }

  /** Of another known session the newer timeline is remembered. */
  lemma OtherTimelineIsTracked(c: Core, id: NodeId, state: PeerState, env: Env)
    requires Sound(c) && state.sessionId != c.sessionId && state.sessionId in c.others && TimelineChanged(EntryOf(c, id), state)
    ensures var r := NoteTimeline(c, id, state, env, true);
      && r.others == c.others[state.sessionId :=
           if state.timeline.beatOrigin > c.others[state.sessionId].beatOrigin then state.timeline else c.others[state.sessionId]]
      && r.timeline == c.timeline && r.xform == c.xform && r.measurements == c.measurements && r.out == c.out
  {
    hide LaunchMeasurement, UpdateSessionTiming, InRange, Usable;
  }

  // ----- Measurements -----

  /** The peer measured is the session's founder if it is there, and otherwise the first in the order of identifiers. */
  lemma FounderIsPreferred(sid: NodeId, candidates: set<NodeId>)
    requires candidates != {}
    ensures Chosen(sid, candidates) in candidates
    ensures sid in candidates ==> Chosen(sid, candidates) == sid
    ensures sid !in candidates ==> forall x | x in candidates :: Value(Chosen(sid, candidates)) <= Value(x)
  {
    LeastExists(candidates);
  }

  /** A session with peers that is not being measured is, at the preferred peer's endpoint, beginning with a ping. */
  lemma SessionIsMeasured(c: Core, sid: NodeId, env: Env)
    requires Sound(c) && sid !in c.measurements && Members(c.peers, sid) != {}
    requires c.peers[Chosen(sid, Members(c.peers, sid))].state.endpoint.Some?
    ensures var r, target := LaunchMeasurement(c, sid, env), c.peers[Chosen(sid, Members(c.peers, sid))].state.endpoint.value;
      && r == c.(measurements := c.measurements[sid := Measurer(target, [], 0)], out := r.out)
      && r.out == c.out + [Started(sid), PingSent(sid, target, env.ping, 0), ArmWatchdog(sid)]
  {
    hide HandleMeasurementResult, Chosen, Members, InRange, Usable;
  }

  /** A session heard of for the first time is remembered and measured, if its preferred peer can be. */
  lemma NewSessionIsMeasured(c: Core, id: NodeId, state: PeerState, env: Env)
    requires Sound(c) && state.sessionId != c.sessionId && state.sessionId !in c.others && state.sessionId !in c.measurements
    requires TimelineChanged(EntryOf(c, id), state)
    ensures var r, sid := NoteTimeline(c, id, state, env, true), state.sessionId;
      && id in Members(r.peers, sid)
      && var chosen := Chosen(sid, Members(r.peers, sid));
      && (r.peers[chosen].state.endpoint.Some? ==>
            && sid in r.others && r.others[sid] == state.timeline
            && sid in r.measurements && r.measurements[sid] == Measurer(r.peers[chosen].state.endpoint.value, [], 0)
            && PingSent(sid, r.peers[chosen].state.endpoint.value, env.ping, 0) in r.out)
      && (r.peers[chosen].state.endpoint.None? ==> sid !in r.others && sid !in r.measurements && Forgot(sid) in r.out)
  {
    hide Chosen, TimelineChanged, JoinSession, UpdateSessionTiming, InRange, Usable;
    var sid := state.sessionId;
    var d := c.(peers := c.peers[id := NotedPeer(EntryOf(c, id), state, env, true)], others := c.others[sid := state.timeline]);
    MemberOf(d.peers, id);
    hide Members;
    if d.peers[Chosen(sid, Members(d.peers, sid))].state.endpoint.Some? {
      SessionIsMeasured(d, sid, env);
    }
  }

  /** The remeasure timer measures the own session, if it has a peer to measure, and is armed again. */
  lemma RemeasureMeasures(c: Core, env: Env)
    requires Sound(c) && c.sessionId !in c.measurements && Members(c.peers, c.sessionId) != {}
    requires c.peers[Chosen(c.sessionId, Members(c.peers, c.sessionId))].state.endpoint.Some?
    ensures var r := Step(c, RemeasureDue, env, true);
      var target := c.peers[Chosen(c.sessionId, Members(c.peers, c.sessionId))].state.endpoint.value;
      && c.sessionId in r.measurements && r.measurements[c.sessionId] == Measurer(target, [], 0)
      && PingSent(c.sessionId, target, env.ping, 0) in r.out
      && |r.out| > 0 && r.out[|r.out| - 1] == ArmRemeasure
  {
    hide Step, LaunchMeasurement, Chosen, Members, InRange, Usable;
    StepIs(c, RemeasureDue, env, true);
    SessionIsMeasured(Emit(c, RemeasureRan), c.sessionId, env);
  }

  /** Arming leaves exactly one remeasure timer, the one the engine remembers. */
  lemma RemeasureIsArmed(out: seq<Effect>, live: set<NodeId>)
    requires Orderly(Replay(out), live)
    ensures var h := Replay(out + [ArmRemeasure]);
      && h.remeasureId in h.callbacks && h.callbacks[h.remeasureId] == Remeasure
      && forall id | id in h.callbacks && h.callbacks[id] == Remeasure :: id == h.remeasureId
  {
    hide Replay, Once;
    ReplaySnoc(out, ArmRemeasure);
    ArmRemeasureKeeps(Replay(out), live);
    hide Apply;
    ArmedSet(Replay(out));
  }

  lemma ArmedSet(h: Hub)
    ensures Apply(h, ArmRemeasure).remeasureId != 0
  {}

  /** A watchdog pings again up to five times and then gives the measurement up. */
  lemma WatchdogRestartsFiveTimes(c: Core, sid: NodeId, env: Env)
    requires Sound(c) && sid in c.measurements
    ensures var r, m := Step(c, WatchdogDue(sid), env, true), c.measurements[sid];
      && (m.started < 5 ==>
            r == c.(measurements := c.measurements[sid := m.(started := m.started + 1)],
                    out := c.out + [WatchdogRan(sid)] + [PingSent(sid, m.target, env.ping, 0)] + [ArmWatchdog(sid)]))
      && (m.started >= 5 ==>
            sid !in r.measurements && |r.out| > |c.out| + 2 && r.out[|c.out| + 2] == Ended(sid, false, |m.points|))
  {
    hide Step, HandleMeasurementResult, InRange, Usable;
    StepIs(c, WatchdogDue(sid), env, true);
    var d := Emit(Emit(c, WatchdogRan(sid)), DisarmWatchdog(sid)).(measurements := c.measurements - {sid});
    Joining.FailureDecides(Emit(d, Ended(sid, false, |c.measurements[sid].points|)), sid, env);
  }

  // ----- Broadcasts -----

  /** An announcement goes out at once if the last broadcast is 50 ms old, and otherwise leaves a deferred one pending. */
  lemma AnnouncementGoesOut(h: Hub, wall: int, state: PeerState)
    ensures var r := Apply(h, Announce(wall, state));
      if h.lastBroadcast.None? || wall - h.lastBroadcast.value >= 50000
      then r.broadcasts == h.broadcasts + [state] && r.lastBroadcast == Some(wall) && r.callbacks == h.callbacks
      else r.broadcasts == h.broadcasts && r.broadcastPending && (h.broadcastPending ==> r == h)
  {}

  /** The deferred broadcast sends what the node's state is then, if it is still enabled. */
  lemma DeferredBroadcastGoesOut(c: Core, env: Env)
    requires Sound(c)
    ensures var h, r := Replay(c.out), Replay(Step(c, BroadcastDue, env, true).out);
      && !r.broadcastPending
      && (c.enabled ==> r.broadcasts == h.broadcasts + [CurrentPeerState(c)] && r.lastBroadcast == Some(env.wall))
      && (!c.enabled ==> r.broadcasts == h.broadcasts)
  {
    hide Replay, CurrentPeerState, InRange, Usable;
    ReplaySnoc(c.out, BroadcastRan(env.wall, c.enabled, CurrentPeerState(c)));
  }

  /** Since the given position of the log something was broadcast, or a broadcast is pending, or one ran while the node was disabled. */
  ghost predicate IsOut(out: seq<Effect>, from: nat)
    requires from <= |out|
  {
    || |Replay(out).broadcasts| > |Replay(out[..from]).broadcasts|
    || Replay(out).broadcastPending
    || (exists k :: from <= k < |out| && out[k].BroadcastRan? && !out[k].enabled)
  }

  lemma BroadcastsGrow(h: Hub, e: Effect)
    ensures |h.broadcasts| <= |Apply(h, e).broadcasts|
    ensures h.broadcastPending && !e.BroadcastRan? ==> Apply(h, e).broadcastPending
    ensures e.BroadcastRan? && e.enabled ==> |h.broadcasts| < |Apply(h, e).broadcasts|
    ensures e.Announce? ==> |h.broadcasts| < |Apply(h, e).broadcasts| || Apply(h, e).broadcastPending
  {}

  lemma {:induction false} BroadcastsOnlyGrow(out: seq<Effect>, from: nat)
    requires from <= |out|
    ensures |Replay(out[..from]).broadcasts| <= |Replay(out).broadcasts|
    decreases |out|
  {
    if from < |out| {
      var before, e := out[..|out| - 1], out[|out| - 1];
      assert before[..from] == out[..from] && out == before + [e];
      BroadcastsOnlyGrow(before, from);
      ReplaySnoc(before, e);
      BroadcastsGrow(Replay(before), e);
      hide Replay, Apply;
    } else {
      assert out[..from] == out;
    }
  }

  /** No announcement is lost: from then on something went out, or is pending, or had its turn while the node was disabled. */
  lemma {:induction false} NoAnnouncementIsLost(out: seq<Effect>, i: nat)
    requires i < |out| && out[i].Announce?
    ensures IsOut(out, i)
    decreases |out|
  {
    var before, e := out[..|out| - 1], out[|out| - 1];
    assert before[..i] == out[..i] && out == before + [e];
    hide Replay, Apply;
    ReplaySnoc(before, e);
    BroadcastsGrow(Replay(before), e);
    BroadcastsOnlyGrow(before, i);
    if i < |out| - 1 {
      NoAnnouncementIsLost(before, i);
      if exists k :: i <= k < |before| && before[k].BroadcastRan? && !before[k].enabled {
        var k :| i <= k < |before| && before[k].BroadcastRan? && !before[k].enabled;
        assert out[k] == before[k];
      } else if e.BroadcastRan? && !e.enabled {
        assert out[|out| - 1] == e;
      }
    }
  }

  /** An elapsed timer is put on the channel while it holds fewer than 64 ids, and dropped otherwise. */
  lemma ChannelHoldsSixtyFour(h: Hub, id: nat)
    ensures Apply(h, TimerElapsed(id)).channel == if |h.channel| < 64 then h.channel + [id] else h.channel
  {}

  /** Every tick announces an enabled node's state, and nothing of a disabled one. */
  lemma TickAnnounces(c: Core, env: Env)
    requires Sound(c)
    ensures Step(c, BroadcastTick, env, true)
      == c.(out := c.out + if c.enabled then [Announce(env.wall, CurrentPeerState(c))] else [])
  {
    hide CurrentPeerState, InRange, Usable;
  }

  // ----- Commands -----

  /**
   A play change no older than the client's latest reaches the client, with sync
   or without; with sync, and newer than the session's, it reaches the session
   at the same instant and is announced.
   */
  lemma PlayChangeTakesEffect(c: Core, playing: bool, at: Micros, env: Env)
    requires Sound(c)
    ensures var r := Step(c, SetPlaying(playing, at), env, true);
      && r.clientStartStop == (if at >= c.clientStartStop.timestamp then ClientStartStop(playing, at, at) else c.clientStartStop)
      && (if c.startStopSync && at + c.xform.intercept > c.startStop.timestamp
          then r.startStop.isPlaying == playing && r.startStop.timestamp == at + c.xform.intercept
               && r.startStop.beats == c.timeline.ToBeats(at + c.xform.intercept)
               && r.out == c.out + (if c.enabled then [Announce(env.wall, CurrentPeerState(r))] else [])
          else r.startStop == c.startStop && r.out == c.out)
  {
    hide Step, GhostXForm.HostToGhost, Timeline.ToBeats, InRange, Usable;
    StepIs(c, SetPlaying(playing, at), env, true);
    UnitSlopeTranslates(c.xform, at);
  }

  /** Without peers a requested beat is forced at the requested time itself. */
  lemma RequestAloneIsForced(c: Core, beat: Beats, at: Micros, quantum: Quantum, env: Env)
    requires Sound(c) && c.peerNbr == 0
    ensures var r := Step(c, RequestBeat(beat, at, quantum), env, true);
      -35 <= ToPhaseEncodedBeats(r.client, at, quantum) - beat <= 2
  {
    hide ApplyForceBeatAtTime, ToPhaseEncodedBeats, MicrosPerBeat, InRange, Usable;
    ForcedBeatIsHeard(c, beat, at, quantum, env);
  }

  /** A commit is cached for the peers of the session, and for no others, as if they had announced it. */
  lemma CommitIsCached(c: Core, e: Event, env: Env, id: NodeId)
    requires Sound(c) && id in c.peers && (e.SetTempo? || e.ForceBeat? || e.RequestBeat?)
    ensures var r := Step(c, e, env, true);
      && id in r.peers
      && (if c.peers[id].state.sessionId == c.sessionId
          then r.peers[id] == c.peers[id].(state := c.peers[id].state.(timeline := r.timeline), tlPropagated := r.timeline)
          else r.peers[id] == c.peers[id])
  {
    hide Step, Clean, InRange, Usable;
    CommandCommits(c, e, env, true);
  }

  /** So a peer of the session that announces the committed timeline tells nothing new: only its entry is renewed. */
  lemma EchoOfCommitIsIdle(c: Core, e: Event, env: Env, state: PeerState, later: Env)
    requires Sound(c) && Kept(c) && (e.SetTempo? || e.ForceBeat? || e.RequestBeat?)
    requires state.nodeId in c.peers && c.peers[state.nodeId].state.sessionId == state.sessionId == c.sessionId
    requires state.timeline == Step(c, e, env, true).timeline
    ensures var r := Step(c, e, env, true);
      var s := NoteTimeline(r, state.nodeId, state, later, true);
      s == r.(peers := s.peers)
  {
    hide Step, SawSessionTimeline, Clean, Members, Held, InRange, Usable;
    CommandCommits(c, e, env, true);
    CommitIsCached(c, e, env, state.nodeId);
  }

  // ----- Tempo and names on the wire -----

  /** Microseconds per beat are the whole number nearest to sixty seconds divided by the tempo. */
  lemma MicrosPerBeatIsNearest(bpm: real)
    requires bpm > 0.0
    ensures -bpm <= 2.0 * (MicrosPerBeat(bpm) as real * bpm - 60000000.0) <= bpm
  {
    var z := 60000000.0 / bpm;
    assert z * bpm == 60000000.0;
    NearestScaled(z, bpm, MicrosPerBeat(bpm) as real);
  }

  lemma NearestScaled(z: real, bpm: real, m: real)
    requires bpm > 0.0 && -0.5 <= m - z <= 0.5
    ensures -bpm <= 2.0 * (m * bpm - z * bpm) <= bpm
  {
    var d := m - z;
    assert m * bpm - z * bpm == d * bpm;
    RealScale(d, 0.5, bpm);
    RealScale(-0.5, d, bpm);
  }

  lemma RealScale(x: real, y: real, d: real)
    requires d > 0.0 && x <= y
    ensures x * d <= y * d
  {
    if x < y {
      RealProduct(x, y, d);
    }
  }

  /** The keys are the four-letter names of the entries: tmln, sess, stst, mep4, __ht, __gt and _pgt. */
  lemma KeysAreNames()
    ensures BigEndian(KEY_TIMELINE, 4) == [0x74, 0x6d, 0x6c, 0x6e] && BigEndian(KEY_SESSION, 4) == [0x73, 0x65, 0x73, 0x73]
    ensures BigEndian(KEY_START_STOP, 4) == [0x73, 0x74, 0x73, 0x74] && BigEndian(KEY_MEEP_V4, 4) == [0x6d, 0x65, 0x70, 0x34]
    ensures BigEndian(KEY_HOST_TIME, 4) == [0x5f, 0x5f, 0x68, 0x74] && BigEndian(KEY_GHOST_TIME, 4) == [0x5f, 0x5f, 0x67, 0x74]
    ensures BigEndian(KEY_PREV_GHOST_TIME, 4) == [0x5f, 0x70, 0x67, 0x74]
  {
    FourBytes(0x74, 0x6d, 0x6c, 0x6e);
    FourBytes(0x73, 0x65, 0x73, 0x73);
    FourBytes(0x73, 0x74, 0x73, 0x74);
    FourBytes(0x6d, 0x65, 0x70, 0x34);
    FourBytes(0x5f, 0x5f, 0x68, 0x74);
    FourBytes(0x5f, 0x5f, 0x67, 0x74);
    FourBytes(0x5f, 0x70, 0x67, 0x74);
    hide BigEndian;
  }

  lemma FourBytes(a: byte, b: byte, c: byte, d: byte)
    ensures BigEndian(((a as nat * 256 + b as nat) * 256 + c as nat) * 256 + d as nat, 4) == [a, b, c, d]
  {
    var s := [a, b, c, d];
    assert [a][..0] == [] && [a, b][..1] == [a] && [a, b, c][..2] == [a, b] && s[..3] == [a, b, c];
    assert FromBigEndian([a]) == a as nat && FromBigEndian([a, b]) == a as nat * 256 + b as nat;
    assert FromBigEndian([a, b, c]) == FromBigEndian([a, b]) * 256 + c as nat;
    FromBigEndianRoundTrip(s);
  }

  /** How pings, pongs and announcements begin: the protocol's name and version and the message type. */
  lemma MessagesBegin(id: NodeId)
    ensures EncodeLinkMessage(LINK_PING, []) == [0x5f, 0x6c, 0x69, 0x6e, 0x6b, 0x5f, 0x76, 1, 1]
    ensures EncodeLinkMessage(LINK_PONG, []) == [0x5f, 0x6c, 0x69, 0x6e, 0x6b, 0x5f, 0x76, 1, 2]
    ensures EncodeDiscoveryMessage(DISCOVERY_ALIVE, 5, 0, id.bytes, []) == [0x5f, 0x61, 0x73, 0x64, 0x70, 0x5f, 0x76, 1, 1, 5, 0, 0] + id.bytes
    ensures EncodeDiscoveryMessage(DISCOVERY_RESPONSE, 5, 0, id.bytes, []) == [0x5f, 0x61, 0x73, 0x64, 0x70, 0x5f, 0x76, 1, 2, 5, 0, 0] + id.bytes
  {
    assert BigEndian(0, 2) == BigEndian(0, 1) + [0] && BigEndian(0, 1) == BigEndian(0, 0) + [0] && BigEndian(0, 0) == [];
    assert EncodeEntries([]) == [];
  }

  /** The goodbye of a node, byte for byte: the protocol's name and version, the message type, no lifetime, group 0, the node. */
  lemma GoodbyeBytes(id: NodeId)
    ensures EncodeDiscoveryMessage(DISCOVERY_BYEBYE, 0, 0, id.bytes, [])
      == [0x5f, 0x61, 0x73, 0x64, 0x70, 0x5f, 0x76, 1, 3, 0, 0, 0] + id.bytes
  {
    assert BigEndian(0, 2) == BigEndian(0, 1) + [0] && BigEndian(0, 1) == BigEndian(0, 0) + [0] && BigEndian(0, 0) == [];
    assert EncodeEntries([]) == [];
  }
}
