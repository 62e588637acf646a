/**
 How the client timeline, the session timeline and ghost time stay together,
 and what commands from the client do to the beat.
 */
module Coupling {
  import opened Rounding
  import opened BeatGrid
  import opened Tempos
  import opened Timelines
  import opened Wire
  import opened NodeIds
  import opened PeerStates
  import opened Measurement
  import opened Session

  /** Client and session share a tempo in range, ghost time runs at host speed, and the client's origin is session beat 0. */
  ghost predicate Coupled(c: Core) {
    && Sound(c)
    && c.client.bpm == c.timeline.bpm
    && Anchored(c.client, c.timeline, c.xform)
  }

  /** Nothing that Coupled depends on has changed. */
  ghost predicate SameTiming(c: Core, r: Core) {
    r.client == c.client && r.timeline == c.timeline && r.xform == c.xform
  }

  /** Any change of session timing couples, and keeps the client's beat at its instant. */
  lemma TimingCouples(c: Core, tl: Timeline, xform: GhostXForm, now: Micros)
    requires Sound(c) && xform.slope == 1.0
    ensures var r := UpdateSessionTiming(c, tl, xform, now);
      && r.client.ToBeats(now) == c.client.ToBeats(now)
      && r.timeline == ClampTempo(tl) && r.xform == xform
      && (Coupled(c) || r.timeline != c.timeline || r.xform != c.xform ==> Coupled(r))
  {
    ClientFollowsSession(c.client, ClampTempo(tl), now, xform);
    hide Usable, UpdateClientTimelineFromSession, StartStopToClient, GhostXForm.HostToGhost, GhostXForm.GhostToHost,
      Timeline.ToBeats, Timeline.FromBeats;
  }

  /**
   A commit never changes the client timeline. It leaves the session timeline
   alone, or raises its beat origin and puts its beat 0 exactly on the
   client's origin.
   */
  lemma CommitFidelity(c: Core, at: Micros, env: Env)
    requires Sound(c)
    ensures var r := CommitClientTimeline(c, at, env);
      && r.client == c.client && r.xform == c.xform
      && Coupled(r)
      && (r.timeline == c.timeline
          || (r.timeline.beatOrigin > c.timeline.beatOrigin && r.timeline.FromBeats(0) == c.xform.HostToGhost(c.client.timeOrigin)))
  {
    var tl := UpdateSessionTimelineFromClient(c.timeline, c.client, at, c.xform);
    SessionFollowsClient(c.timeline, c.client, at, c.xform);
    if tl == c.timeline {
      BeatZeroIsNear(c.timeline, c.xform.HostToGhost(c.client.timeOrigin));
    } else {
      AnchoredClientIsFixpoint(c.client, tl, env.update, c.xform);
    }
    hide Usable, UpdateSessionTimelineFromClient, UpdateClientTimelineFromSession, StartStopToClient, CacheTimeline, CurrentPeerState,
      GhostXForm.HostToGhost, GhostXForm.GhostToHost, Timeline.ToBeats, Timeline.FromBeats;
  }

  // ----- Commands -----

  /** A tempo change moves the client's beat at its instant by at most 8 micro-beats, and not at all up to 60 BPM. */
  lemma TempoChangeContinuity(c: Core, bpm: real, at: Micros, env: Env)
    requires Sound(c)
    ensures var r := ApplyTempoChange(c, bpm, at, env);
      && r.timeline.bpm == r.client.bpm == Clamp(bpm)
      && Abs(r.client.ToBeats(at) - c.client.ToBeats(at)) <= 8
      && (bpm <= 60.0 ==> r.client.ToBeats(at) == c.client.ToBeats(at))
  {
    TempoChangeKeepsBeat(c.client, bpm, at);
    var c1 := c.(client := WithTempo(c.client, bpm, at));
    assert c1.client.bpm == Clamp(bpm);
    hide WithTempo, Clamp, Timeline.ToBeats;
    CommitFidelity(c1, at, env);
    hide CommitClientTimeline;
  }

  /** After a forced beat the encoded beat is at most two micro-beats late and within 2,000,000/mpb + 2 of the request. */
  lemma ForcedBeatIsHeard(c: Core, beat: Beats, at: Micros, quantum: Quantum, env: Env)
    requires Sound(c)
    ensures var r := ApplyForceBeatAtTime(c, beat, at, quantum, env);
      var encoded := ToPhaseEncodedBeats(r.client, at, quantum);
      && r.client == ForceBeatWithRetry(c.client, beat, at, quantum)
      && r.client.bpm == c.client.bpm
      && encoded <= beat + 2
      && MicrosPerBeat(c.client.bpm) * (beat - encoded) <= 2000000 + 2 * MicrosPerBeat(c.client.bpm)
      && beat - encoded <= 35
  {
    hide ForceBeatWithRetry, ToPhaseEncodedBeats, MicrosPerBeat, CommitClientTimeline, InRange;
    ForcedBeatWithRetry(c.client, beat, at, quantum);
    InRangeMicros(c.client.bpm);
    var c1 := c.(client := ForceBeatWithRetry(c.client, beat, at, quantum));
    CommitFidelity(c1, at, env);
    ShortByAtMost35(MicrosPerBeat(c.client.bpm), beat - ToPhaseEncodedBeats(c1.client, at, quantum));
  }

  lemma ShortByAtMost35(p: int, short: int)
    requires p >= 60060 && p * short <= 2000000 + 2 * p
    ensures short <= 35
  {
    if short >= 36 {
      assert p * short == 36 * p + p * (short - 36);
      NonNegativeProduct(p, short - 36);
    }
  }

  /**
   With others in the session a requested beat waits for the quantum: the
   chosen time is where the least matching phase at or after the current beat
   falls, within 8 micro-beats, and never more than 2 microseconds too early.
   */
  lemma RequestRespectsQuantum(c: Core, beat: Beats, at: Micros, quantum: Quantum)
    requires Sound(c) && c.peerNbr > 0
    ensures var now := ToPhaseEncodedBeats(c.client, at, quantum);
      var next := NextPhaseMatch(now, beat, quantum);
      var t := RequestedTime(c, beat, at, quantum);
      && now <= next < now + quantum && Congruent(next, beat, quantum)
      && Abs(ToPhaseEncodedBeats(c.client, t, quantum) - next) <= 8
      && at - 2 <= t
  {
    hide ToPhaseEncodedBeats, FromPhaseEncodedBeats, NextPhaseMatch, EncodingOffset, MicrosPerBeat, Congruent, InRange;
    var tl, q := c.client, quantum;
    var now := ToPhaseEncodedBeats(tl, at, q);
    var next := NextPhaseMatch(now, beat, q);
    InRangeMicros(tl.bpm);
    NextPhaseMatchIsLeast(now, beat, q);
    EncodeOfDecode(tl, next, q);
    DecodeOfEncode(tl, at, q);
    PhaseDecodingTranslates(tl, next, q);
    PhaseDecodingTranslates(tl, now, q);
    var d, p := EncodingOffset(tl.beatOrigin, q), MicrosPerBeat(tl.bpm);
    LaterBeatsAreLater(p, now - d - tl.beatOrigin, next - d - tl.beatOrigin);
  }

  /** x is within the bound of a multiple of q. */
  ghost predicate NearMultiple(x: int, q: int, bound: nat) {
    exists k: int :: Abs(x - q * k) <= bound
  }

  lemma NearCongruent(x: int, a: Beats, b: Beats, q: int, bound: nat)
    requires Congruent(a, b, q) && Abs(x - (b - a)) <= bound
    ensures NearMultiple(x, q, bound)
  {
    var k :| a - b == q * k;
    assert x - q * -k == x - (b - a);
  }

  /**
   After the whole command the requested beat is heard at the chosen time, at
   most 2 micro-beats late and 35 early, and the grid everyone plays on is kept:
   the beat origin moves by whole quanta, and the beat at every time by whole
   quanta within 76 micro-beats.
   */
  lemma RequestKeepsGrid(c: Core, beat: Beats, at: Micros, quantum: Quantum, env: Env, s: Micros)
    requires Sound(c) && c.peerNbr > 0
    ensures var r := ApplyRequestBeatAtTime(c, beat, at, quantum, env);
      var encoded := ToPhaseEncodedBeats(r.client, RequestedTime(c, beat, at, quantum), quantum);
      && -35 <= encoded - beat <= 2
      && Congruent(r.client.beatOrigin, c.client.beatOrigin, quantum)
      && NearMultiple(r.client.ToBeats(s) - c.client.ToBeats(s), quantum, 76)
  {
    hide ForceBeatWithRetry, ToPhaseEncodedBeats, NextPhaseMatch, RequestedTime, ApplyForceBeatAtTime, Congruent, NearMultiple,
      InRange, Timeline.ToBeats;
    var t := RequestedTime(c, beat, at, quantum);
    var next := NextPhaseMatch(ToPhaseEncodedBeats(c.client, at, quantum), beat, quantum);
    RequestRespectsQuantum(c, beat, at, quantum);
    ForcedBeatIsHeard(c, beat, t, quantum, env);
    ForcedGridWithRetry(c.client, beat, t, quantum, s);
    var r := ApplyForceBeatAtTime(c, beat, t, quantum, env);
    NearCongruent(r.client.ToBeats(s) - c.client.ToBeats(s), next, beat, quantum, 76);
  }

  lemma LaterBeatsAreLater(p: int, a: Beats, b: Beats)
    requires p > 0 && a <= b
    ensures MicrosOf(p, a) <= MicrosOf(p, b)
  {
    assert b * p == a * p + p * (b - a);
    NonNegativeProduct(p, b - a);
    RoundMonotone(a * p, b * p, MICRO);
  }

  /** Founding a session keeps the client's beat at the update exactly and moves the grid by at most 2 microseconds. */
  lemma FoundingIsContinuous(c: Core, env: Env)
    requires Sound(c)
    ensures var r := ResetState(c, env);
      && r.client.ToBeats(env.settle) == c.client.ToBeats(env.settle)
      && Abs(r.xform.GhostToHost(r.timeline.FromBeats(0)) - c.xform.GhostToHost(c.timeline.FromBeats(0))) <= 2
      && r.timeline.bpm == c.timeline.bpm
      && (Coupled(c) ==> Coupled(r))
  {
    FoundingKeepsGrid(c.timeline, c.xform, env.found);
    var founded := FoundedTimeline(c.timeline, c.xform, env.found);
    var c1 := c.(nodeId := env.newId, sessionId := env.newId, startStop := NO_START_STOP);
    TimingCouples(c1, founded, InitXForm(env.found), env.settle);
    assert founded.bpm == c.timeline.bpm;
    hide Usable, FoundedTimeline, UpdateSessionTiming, GhostXForm.HostToGhost, GhostXForm.GhostToHost,
      Timeline.ToBeats, Timeline.FromBeats, CurrentPeerState;
  }

  // ----- Every event -----

  lemma ResultCouples(c: Core, sid: NodeId, xform: GhostXForm, env: Env)
    requires Coupled(c) && IsResult(xform)
    ensures Coupled(HandleMeasurementResult(c, sid, xform, env))
    ensures xform == ZERO_XFORM ==> SameTiming(c, HandleMeasurementResult(c, sid, xform, env))
  {
    hide Anchored, InRange, UpdateSessionTiming, SessionMembershipChanged, CurrentPeerState, Wins, Members;
    if sid == c.sessionId {
      if xform != ZERO_XFORM {
        TimingCouples(c, c.timeline, xform, env.update);
      }
    } else if sid in c.others && xform != ZERO_XFORM && Wins(sid, xform, c.sessionId, c.xform, env.decide) {
      SwitchCouples(c, sid, xform, env);
      hide SwitchSession;
      MembershipCouples(SwitchSession(c, sid, xform, env), env);
    }
  }

  lemma SwitchCouples(c: Core, sid: NodeId, xform: GhostXForm, env: Env)
    requires Coupled(c) && xform.slope == 1.0 && sid in c.others
    ensures Coupled(SwitchSession(c, sid, xform, env))
  {
    hide Anchored, InRange, UpdateSessionTiming, CurrentPeerState;
    var rest := c.others - {sid};
    var c1 := c.(others := if c.sessionId in rest then rest else rest[c.sessionId := c.timeline], sessionId := sid, startStop := NO_START_STOP);
    TimingCouples(c1, c.others[sid], xform, env.update);
  }

  lemma MembershipCouples(c: Core, env: Env)
    requires Coupled(c)
    ensures Coupled(SessionMembershipChanged(c, env))
  {
    hide Anchored, InRange, ResetState, Members;
    FoundingIsContinuous(c.(peerNbr := 0), env);
  }

  lemma SawTimelineCouples(c: Core, sid: NodeId, tl: Timeline, env: Env)
    requires Coupled(c)
    ensures Coupled(SawSessionTimeline(c, sid, tl, env))
  {
    hide Anchored, InRange, UpdateSessionTiming, LaunchMeasurement, CurrentPeerState;
    TimingCouples(c, tl, c.xform, env.update);
    LaunchCouples(c.(others := c.others[sid := tl]), sid, env);
  }

  lemma SawPeerCouples(c: Core, id: NodeId, state: PeerState, env: Env, filtered: bool)
    requires Coupled(c)
    ensures Coupled(SawPeerState(c, id, state, env, filtered))
  {
    hide Anchored, InRange, SawSessionTimeline, SessionMembershipChanged, StartStopToClient, CurrentPeerState;
    var propagate := !filtered || TimelineChanged(EntryOf(c, id), state);
    SawTimelineCouples(c.(peers := c.peers[id := NotedPeer(EntryOf(c, id), state, env, propagate)]), state.sessionId, state.timeline, env);
    var c1 := NoteTimeline(c, id, state, env, filtered);
    hide NoteTimeline;
    var c2 := NoteStartStop(c1, id, state, env);
    assert SameTiming(c1, c2);
    MembershipCouples(c2, env);
  }

  lemma FinishCouples(c: Core, sid: NodeId, xform: GhostXForm, env: Env)
    requires Coupled(c) && IsResult(xform) && sid in c.measurements
    ensures Coupled(FinishMeasurement(c, sid, xform, env))
  {
    hide Anchored, InRange, HandleMeasurementResult;
    var c1 := Emit(c, DisarmWatchdog(sid)).(measurements := c.measurements - {sid});
    ResultCouples(Emit(c1, Ended(sid, xform != ZERO_XFORM, |c.measurements[sid].points|)), sid, xform, env);
  }

  lemma PongCouples(c: Core, sid: NodeId, pong: Result<Pong>, env: Env)
    requires Coupled(c) && sid in c.measurements
    ensures Coupled(HandlePong(c, sid, pong, env))
  {
    hide Anchored, InRange, FinishMeasurement, Samples, Median, Llround;
    if pong.Err? || pong.value.sessionId != sid {
      FinishCouples(c, sid, ZERO_XFORM, env);
    } else {
      var m := c.measurements[sid];
      var points := m.points + Samples(pong.value, env.ping);
      var c1 := Emit(c, PingSent(sid, m.target, env.ping, pong.value.ghostTime)).(measurements := c.measurements[sid := m.(points := points)]);
      if |points| > MAX_MEASURE_POINTS {
        FinishCouples(c1, sid, GhostXForm(1.0, Llround(Median(points))), env);
      }
    }
  }

  lemma LaunchCouples(c: Core, sid: NodeId, env: Env)
    requires Coupled(c)
    ensures SameTiming(c, LaunchMeasurement(c, sid, env))
  {
    hide Anchored, InRange, HandleMeasurementResult, Members, Chosen;
    ResultCouples(c, sid, ZERO_XFORM, env);
  }

  lemma CommandCouples(c: Core, e: Event, env: Env, filtered: bool)
    requires Coupled(c) && (e.SetTempo? || e.ForceBeat? || e.RequestBeat?)
    ensures Coupled(Step(c, e, env, filtered))
  {
    hide Anchored, InRange, Usable, CommitClientTimeline, RequestedTime, ForceBeatWithRetry, WithTempo;
    match e
    case SetTempo(bpm, at) =>
      TempoChangeKeepsBeat(c.client, bpm, at);
      CommitFidelity(c.(client := WithTempo(c.client, bpm, at)), at, env);
    case ForceBeat(beat, at, quantum) =>
      ForcedBeatWithRetry(c.client, beat, at, quantum);
      CommitFidelity(c.(client := ForceBeatWithRetry(c.client, beat, at, quantum)), at, env);
    case RequestBeat(beat, at, quantum) =>
      var t := RequestedTime(c, beat, at, quantum);
      ForcedBeatWithRetry(c.client, beat, t, quantum);
      CommitFidelity(c.(client := ForceBeatWithRetry(c.client, beat, t, quantum)), t, env);
  }

  lemma MeasuringCouples(c: Core, e: Event, env: Env, filtered: bool)
    requires Coupled(c) && (e.PongReceived? || e.WatchdogDue? || e.RemeasureDue?)
    ensures Coupled(Step(c, e, env, filtered))
  {
    hide Anchored, InRange, Usable, FinishMeasurement, HandlePong, LaunchMeasurement;
    if e.RemeasureDue? {
      LaunchCouples(Emit(c, RemeasureRan), c.sessionId, env);
    } else if e.sid in c.measurements {
      if e.PongReceived? {
        PongCouples(c, e.sid, e.pong, env);
      } else {
        FinishCouples(Emit(c, WatchdogRan(e.sid)), e.sid, ZERO_XFORM, env);
      }
    }
  }

  lemma DiscoveryCouples(c: Core, e: Event, env: Env, filtered: bool)
    requires Coupled(c) && (e.Alive? || e.Response? || e.ByeBye? || e.PruneTick?)
    ensures Coupled(Step(c, e, env, filtered))
  {
    hide Anchored, InRange, Usable, SawPeerState, SessionMembershipChanged, CurrentPeerState, Expired;
    if e.ByeBye? {
      MembershipCouples(c.(peers := c.peers - {e.id}), env);
    } else if e.PruneTick? {
      MembershipCouples(c.(peers := c.peers - Expired(c.peers, env.wall)), env);
    } else if e.announced.Ok? {
      SawPeerCouples(c, e.id, e.announced.value.(nodeId := e.id), env, filtered);
    }
  }

  lemma PlayingKeepsTiming(c: Core, playing: bool, at: Micros, env: Env)
    requires Sound(c)
    ensures SameTiming(c, ApplyPlayingChange(c, playing, at, env))
  {
    hide InRange, Usable, CurrentPeerState, GhostXForm.HostToGhost, Timeline.ToBeats;
  }

  lemma OtherEventCouples(c: Core, e: Event, env: Env, filtered: bool)
    requires Coupled(c) && !(e.SetTempo? || e.ForceBeat? || e.RequestBeat? || e.PongReceived? || e.WatchdogDue? || e.RemeasureDue?)
    requires !(e.Alive? || e.Response? || e.ByeBye? || e.PruneTick?)
    ensures Coupled(Step(c, e, env, filtered))
  {
    hide Anchored, InRange, Usable, ResetState, CurrentPeerState, PongMessage, GhostXForm.HostToGhost, ApplyPlayingChange;
    if e.Enable? {
      FoundingIsContinuous(c.(enabled := true), env);
    } else if e.SetPlaying? {
      PlayingKeepsTiming(c, e.playing, e.at, env);
    }
  }

  /** Every event leaves the timelines coupled. */
  lemma StepCouples(c: Core, e: Event, env: Env, filtered: bool)
    requires Coupled(c)
    ensures Coupled(Step(c, e, env, filtered))
  {
    hide *;
    if e.SetTempo? || e.ForceBeat? || e.RequestBeat? {
      CommandCouples(c, e, env, filtered);
    } else if e.PongReceived? || e.WatchdogDue? || e.RemeasureDue? {
      MeasuringCouples(c, e, env, filtered);
    } else if e.Alive? || e.Response? || e.ByeBye? || e.PruneTick? {
      DiscoveryCouples(c, e, env, filtered);
    } else {
      OtherEventCouples(c, e, env, filtered);
    }
  }

  /** In every reachable state client and session timelines are coupled. */
  lemma {:induction false} RunCouples(c: Core, occurrences: seq<Occurrence>, filtered: bool)
    requires Coupled(c)
    ensures Coupled(Run(c, occurrences, filtered))
    decreases |occurrences|
  {
    hide Anchored, InRange;
    if occurrences != [] {
      var last := |occurrences| - 1;
      RunCouples(c, occurrences[..last], filtered);
      StepCouples(Run(c, occurrences[..last], filtered), occurrences[last].event, occurrences[last].env, filtered);
    }
  }

  lemma InitiallyCoupled(self: Option<Endpoint>, id: NodeId, bpm: real, sync: bool, now: Micros)
    ensures Coupled(InitialCore(self, id, bpm, sync, now))
  {
    var c := InitialCore(self, id, bpm, sync, now);
    UnitSlopeTranslates(InitXForm(now), 0);
    UnitSlopeTranslates(InitXForm(now), c.client.timeOrigin);
    hide MicrosPerBeat;
    assert MicrosOf(MicrosPerBeat(c.timeline.bpm), 0) == 0;
  }
}
