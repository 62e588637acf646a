/** Runs from a new node on which the engine does not do what its comments say. */
module Witnesses {
  import opened Rounding
  import opened BeatGrid
  import opened Tempos
  import opened Timelines
  import opened Wire
  import opened NodeIds
  import opened PeerStates
  import opened Measurement
  import opened Session
  import opened Bookkeeping
  import opened Timers
  import opened Silence

  lemma RunSnoc(c: Core, occurrences: seq<Occurrence>, o: Occurrence)
    requires Sound(c)
    ensures Run(c, occurrences + [o], true) == Step(Run(c, occurrences, true), o.event, o.env, true)
    ensures PossibleRun(c, occurrences + [o], true)
      <==> PossibleRun(c, occurrences, true) && Possible(Replay(Run(c, occurrences, true).out), o.event)
  {
    assert (occurrences + [o])[..|occurrences|] == occurrences;
    hide Step, Possible, Replay, InRange, Usable;
  }

  /** A node that is enabled, alone in its own session and has measured nothing. */
  ghost predicate Alone(c: Core, id: NodeId) {
    && Sound(c) && c.enabled && c.nodeId == id && c.sessionId == id && c.peerNbr == 0
    && c.peers == map[] && c.others == map[] && c.measurements == map[]
  }

  ghost predicate NothingElapsed(out: seq<Effect>) {
    forall e | e in out :: !e.TimerElapsed?
  }

  lemma ResetLog(c: Core, env: Env)
    requires Sound(c) && c.enabled
    ensures |ResetState(c, env).out| == |c.out| + 2 && c.out <= ResetState(c, env).out
    ensures forall e | e in ResetState(c, env).out[|c.out|..] :: e.Announce? || e.Founded?
  {
    hide UpdateClientTimelineFromSession, StartStopToClient, FoundedTimeline, CurrentPeerState, InRange, Usable;
  }

  /** A new node that is enabled. */
  lemma Enabled(self: Option<Endpoint>, id: NodeId, bpm: real, sync: bool, now: Micros, env: Env)
    ensures var r := Step(InitialCore(self, id, bpm, sync, now), Enable(true), env, true);
      Alone(r, env.newId) && NothingElapsed(r.out)
  {
    hide ResetState, CurrentPeerState, Step, InRange, Usable;
    var c := InitialCore(self, id, bpm, sync, now).(enabled := true);
    ResetKeeps(c, env);
    ResetLog(c, env);
    StepIs(InitialCore(self, id, bpm, sync, now), Enable(true), env, true);
  }

  /** The entry of a peer after its first announcement. */
  function FirstEntry(state: PeerState, env: Env, started: bool): Peer {
    Peer(state, env.wall + PEER_EXPIRY, true, state.sessionId, state.timeline,
         started, if started then state.sessionId else ZERO_ID, if started then state.startStop else NO_START_STOP)
  }

  /** Measuring a session with a single peer starts, or fails at once for want of an endpoint. */
  lemma LaunchSingle(c: Core, id: NodeId, sid: NodeId, env: Env)
    requires Sound(c) && sid != c.sessionId && sid !in c.measurements && c.others.Keys == {sid}
    requires id in c.peers && Members(c.peers, sid) == {id}
    ensures var r := LaunchMeasurement(c, sid, env);
      match c.peers[id].state.endpoint
      case None => r == c.(others := map[], out := c.out + [Forgot(sid)])
      case Some(target) => r == StartMeasurement(c, sid, target, env)
  {
    hide InRange, Usable, JoinSession, UpdateSessionTiming, StartMeasurement, Members;
    assert Chosen(sid, {id}) == id;
    assert c.others - {sid} == map[];
  }

  /** The first announcement of a peer of another session, up to the measurement it launches. */
  lemma FirstNoted(c: Core, state: PeerState, env: Env)
    requires Alone(c, c.nodeId) && state.sessionId != c.nodeId
    ensures var sid, p, r := state.sessionId, FirstEntry(state, env, false), NoteTimeline(c, state.nodeId, state, env, true);
      var d := c.(peers := map[state.nodeId := p], others := map[sid := state.timeline]);
      match state.endpoint
      case None => r == d.(others := map[], out := c.out + [Forgot(sid)])
      case Some(target) => r == StartMeasurement(d, sid, target, env)
  {
    hide InRange, Usable, LaunchMeasurement, StartMeasurement, UpdateSessionTiming, Broadcast;
    var id, sid := state.nodeId, state.sessionId;
    var d := c.(peers := map[id := FirstEntry(state, env, false)], others := map[sid := state.timeline]);
    assert c.peers[id := FirstEntry(state, env, false)] == d.peers && c.others[sid := state.timeline] == d.others;
    assert Members(d.peers, sid) == {id};
    LaunchSingle(d, id, sid, env);
  }

  /** The rest of a first announcement changes nothing but the entry. */
  lemma FirstCounted(c: Core, state: PeerState, env: Env)
    requires Alone(c, c.nodeId) && state.nodeId != c.nodeId && state.sessionId != c.nodeId
    ensures var d := NoteTimeline(c, state.nodeId, state, env, true);
      SawPeerState(c, state.nodeId, state, env, true) == d.(peers := map[state.nodeId := FirstEntry(state, env, true)])
  {
    hide InRange, Usable, NoteTimeline, HandleStartStop, ResetState, StartMeasurement;
    FirstNoted(c, state, env);
    var d := NoteTimeline(c, state.nodeId, state, env, true);
    StartKeepsRecords(c.(peers := map[state.nodeId := FirstEntry(state, env, false)], others := map[state.sessionId := state.timeline]),
      state, env);
    assert d.peers == map[state.nodeId := FirstEntry(state, env, false)] && d.sessionId == c.sessionId && d.peerNbr == 0;
    var e := d.(peers := map[state.nodeId := FirstEntry(state, env, true)]);
    assert d.peers[state.nodeId := FirstEntry(state, env, true)] == e.peers;
    HandleOther(e, state.sessionId, state.startStop, env);
    assert NoteStartStop(d, state.nodeId, state, env) == e;
    assert Members(e.peers, e.sessionId) == {};
  }

  lemma StartKeepsRecords(c: Core, state: PeerState, env: Env)
    ensures state.endpoint.Some? ==>
      var r := StartMeasurement(c, state.sessionId, state.endpoint.value, env);
      r == c.(measurements := c.measurements[state.sessionId := Measurer(state.endpoint.value, [], 0)], out := r.out)
      && r.out == c.out + [Started(state.sessionId), PingSent(state.sessionId, state.endpoint.value, env.ping, 0), ArmWatchdog(state.sessionId)]
  {}

  lemma HandleOther(c: Core, sid: NodeId, ss: StartStopState, env: Env)
    requires Sound(c) && sid != c.sessionId
    ensures HandleStartStop(c, sid, ss, env) == c
  {}

  /** An announcement with the session, timeline and transport already propagated only renews the entry. */
  lemma SeenUnchanged(c: Core, state: PeerState, env: Env)
    requires Sound(c) && state.sessionId != c.sessionId && state.nodeId in c.peers
    requires var p := c.peers[state.nodeId];
      p.state.sessionId == state.sessionId && !TimelineChanged(p, state) && !StartStopChanged(p, state)
    ensures SawPeerState(c, state.nodeId, state, env, true)
      == c.(peers := c.peers[state.nodeId := NotedPeer(c.peers[state.nodeId], state, env, false)])
  {
    hide SawSessionTimeline, HandleStartStop, SessionMembershipChanged, InRange, Usable;
  }

  lemma AliveStep(c: Core, state: PeerState, env: Env)
    requires Sound(c) && c.enabled && state.nodeId != c.nodeId
    ensures var d := SawPeerState(c, state.nodeId, state, env, true);
      Step(c, Alive(state.nodeId, Ok(state)), env, true) == Emit(d, Respond(CurrentPeerState(d)))
  {
    hide SawPeerState, CurrentPeerState, InRange, Usable;
    assert state.(nodeId := state.nodeId) == state;
  }

  /** The node after a first announcement that cannot be measured, or one that is. */
  function AfterFirst(c: Core, state: PeerState, env: Env): Core {
    var sid, d := state.sessionId, c.(peers := map[state.nodeId := FirstEntry(state, env, true)]);
    match state.endpoint
    case None => d.(out := c.out + [Forgot(sid)] + [Respond(CurrentPeerState(c))])
    case Some(target) =>
      d.(others := map[sid := state.timeline], measurements := map[sid := Measurer(target, [], 0)],
         out := c.out + [Started(sid), PingSent(sid, target, env.ping, 0), ArmWatchdog(sid)] + [Respond(CurrentPeerState(c))])
  }

  lemma FirstHeard(c: Core, state: PeerState, env: Env)
    requires Alone(c, c.nodeId) && state.nodeId != c.nodeId && state.sessionId != c.nodeId
    ensures Step(c, Alive(state.nodeId, Ok(state)), env, true) == AfterFirst(c, state, env)
  {
    hide SawPeerState, NoteTimeline, StartMeasurement, Step, InRange, Usable;
    AliveStep(c, state, env);
    FirstNoted(c, state, env);
    FirstCounted(c, state, env);
    StartKeepsRecords(c.(peers := map[state.nodeId := FirstEntry(state, env, false)], others := map[state.sessionId := state.timeline]), state, env);
  }

  // ----- A forgotten session -----

  /** A node is enabled and hears twice of a session by one peer, the second time perhaps with an endpoint to measure. */
  ghost function HeardTwice(e0: Env, state: PeerState, e1: Env, endpoint: Option<Endpoint>, e2: Env): seq<Occurrence> {
    [Occurrence(Enable(true), e0)]
    + [Occurrence(Alive(state.nodeId, Ok(state)), e1)]
    + [Occurrence(Alive(state.nodeId, Ok(state.(endpoint := endpoint))), e2)]
  }

  /** Hearing again, with only the endpoint changed, renews the entry and answers. */
  lemma HeardAgain(c: Core, state: PeerState, e1: Env, endpoint: Option<Endpoint>, e2: Env)
    requires Sound(c) && c.enabled && state.nodeId != c.nodeId && state.sessionId != c.sessionId
    requires state.nodeId in c.peers && c.peers[state.nodeId] == FirstEntry(state, e1, true)
    ensures var again := state.(endpoint := endpoint);
      var r := Step(c, Alive(state.nodeId, Ok(again)), e2, true);
      r == c.(peers := c.peers[state.nodeId := NotedPeer(c.peers[state.nodeId], again, e2, false)],
              out := c.out + [Respond(CurrentPeerState(c))])
  {
    hide SawPeerState, Step, InRange, Usable;
    var again := state.(endpoint := endpoint);
    AliveStep(c, again, e2);
    SeenUnchanged(c, again, e2);
  }

  /**
   From a new node on: a session whose peer could not be measured is forgotten,
   and the next announcement of it leaves it unknown and unmeasured, even when
   the peer now can be measured, because its timeline is unchanged.
   */
  lemma ForgottenInARun(self: Option<Endpoint>, id: NodeId, bpm: real, sync: bool, now: Micros,
                        e0: Env, state: PeerState, e1: Env, endpoint: Option<Endpoint>, e2: Env)
    requires state.nodeId != e0.newId && state.sessionId != e0.newId && state.endpoint == None
    ensures var c, run := InitialCore(self, id, bpm, sync, now), HeardTwice(e0, state, e1, endpoint, e2);
      var before, r := Run(c, run[..2], true), Run(c, run, true);
      && PossibleRun(c, run, true)
      && Forgot(state.sessionId) in before.out
      && r.out == before.out + [Respond(CurrentPeerState(before))]
      && state.nodeId in r.peers && r.peers[state.nodeId].state == state.(endpoint := endpoint)
      && state.sessionId != r.sessionId && state.sessionId !in r.others && state.sessionId !in r.measurements
  {
    hide Step, Run, PossibleRun, Replay, CurrentPeerState, InRange, Usable;
    var c := InitialCore(self, id, bpm, sync, now);
    var o0, o1 := Occurrence(Enable(true), e0), Occurrence(Alive(state.nodeId, Ok(state)), e1);
    var o2 := Occurrence(Alive(state.nodeId, Ok(state.(endpoint := endpoint))), e2);
    EmptyRun(c);
    RunSnoc(c, [], o0);
    RunSnoc(c, [o0], o1);
    RunSnoc(c, [o0] + [o1], o2);
    assert [] + [o0] == [o0] && HeardTwice(e0, state, e1, endpoint, e2)[..2] == [o0] + [o1];
    Enabled(self, id, bpm, sync, now, e0);
    FirstHeard(Run(c, [o0], true), state, e1);
    HeardAgain(Run(c, [o0] + [o1], true), state, e1, endpoint, e2);
  }

  lemma EmptyRun(c: Core)
    requires Sound(c)
    ensures Run(c, [], true) == c && PossibleRun(c, [], true)
  {}

  // ----- A disabled node that pings -----

  lemma {:induction false} NothingReceived(out: seq<Effect>)
    requires NothingElapsed(out)
    ensures Replay(out).channel == [] && Replay(out).elapsed == {}
  {
    if out != [] {
      var before, e := out[..|out| - 1], out[|out| - 1];
      assert out == before + [e];
      NothingReceived(before);
      ReplaySnoc(before, e);
      hide Replay;
    }
  }

  /** A disabled node with one measurement in flight whose watchdog has yet to elapse. */
  ghost predicate Waiting(c: Core, sid: NodeId, target: Endpoint) {
    && Sound(c) && Accounted(c) && !c.enabled && c.others == map[]
    && c.measurements == map[sid := Measurer(target, [], 0)] && NothingElapsed(c.out)
  }

  lemma DisabledWhileMeasuring(c: Core, state: PeerState, e1: Env, e2: Env)
    requires Alone(c, c.nodeId) && state.nodeId != c.nodeId && state.sessionId != c.nodeId && state.endpoint.Some?
    requires Accounted(c) && NothingElapsed(c.out)
    ensures var d := Step(c, Alive(state.nodeId, Ok(state)), e1, true);
      var r := Step(d, Enable(false), e2, true);
      Waiting(r, state.sessionId, state.endpoint.value)
  {
    hide SawPeerState, Step, CurrentPeerState, Accounted, Replay, Possible, InRange, Usable;
    AlwaysPossible(Replay(c.out), Alive(state.nodeId, Ok(state)));
    StepAccounts(c, Alive(state.nodeId, Ok(state)), e1, true);
    FirstHeard(c, state, e1);
    var d := Step(c, Alive(state.nodeId, Ok(state)), e1, true);
    AlwaysPossible(Replay(d.out), Enable(false));
    StepAccounts(d, Enable(false), e2, true);
    DisableStep(d, e2);
  }

  lemma AlwaysPossible(h: Hub, e: Event)
    requires e.Alive? || e.Enable?
    ensures Possible(h, e)
  {}

  lemma DisableStep(c: Core, env: Env)
    requires Sound(c) && c.enabled
    ensures Step(c, Enable(false), env, true) == c.(enabled := false, out := c.out + [Leave(c.nodeId)], peers := map[], others := map[], peerNbr := 0)
  {
    hide ResetState, InRange, Usable;
  }

  /** The watchdog of a measurement in flight whose log shows no timer elapsed. */
  lemma WatchdogRuns(c: Core, sid: NodeId) returns (timer: nat)
    requires Accounted(c) && sid in c.measurements && NothingElapsed(c.out)
    ensures Possible(Replay(c.out), Elapse(timer))
    ensures Possible(Replay(c.out + [TimerElapsed(timer)]), WatchdogDue(sid))
  {
    hide Replay, Owned, Once, Flights, WithinLimits, NothingElapsed, Apply;
    NothingReceived(c.out);
    WatchdogOf(Replay(c.out), c.measurements.Keys, sid);
    timer := Replay(c.out).watchdogs[sid];
    ReplaySnoc(c.out, TimerElapsed(timer));
    ElapsedIsDue(Replay(c.out), timer);
  }

  lemma WatchdogOf(h: Hub, live: set<NodeId>, sid: NodeId)
    requires Owned(h, live) && sid in live
    ensures sid in h.watchdogs && 1 <= h.watchdogs[sid] <= h.issued
    ensures h.watchdogs[sid] in h.callbacks && h.callbacks[h.watchdogs[sid]] == Watchdog(sid)
  {}

  lemma ElapsedIsDue(h: Hub, timer: nat)
    requires h.channel == []
    ensures var r := Apply(h, TimerElapsed(timer)); r.channel == [timer] && r.callbacks == h.callbacks
  {}

  /** The watchdog of a waiting node elapses, is due, and pings. */
  lemma WaitingPings(c: Core, sid: NodeId, target: Endpoint, e3: Env, e4: Env) returns (timer: nat)
    requires Waiting(c, sid, target)
    ensures var d := Step(c, Elapse(timer), e3, true);
      var r := Step(d, WatchdogDue(sid), e4, true);
      && Possible(Replay(c.out), Elapse(timer)) && Possible(Replay(d.out), WatchdogDue(sid))
      && !d.enabled && !r.enabled && Sent(r.out) == Sent(d.out) + [PingSent(sid, target, e4.ping, 0)]
  {
    hide Replay, Possible, NothingElapsed, Step, Sent, Accounted, InRange, Usable;
    timer := WatchdogRuns(c, sid);
    ElapseStep(c, timer, e3);
    DisabledNodePings(Step(c, Elapse(timer), e3, true), sid, e4);
  }

  lemma ElapseStep(c: Core, timer: nat, env: Env)
    requires Sound(c)
    ensures Step(c, Elapse(timer), env, true) == Emit(c, TimerElapsed(timer))
  {}

  /** A node is enabled, hears of a session it starts to measure, is disabled, and the watchdog of the measurement elapses. */
  ghost function DisabledAmidMeasuring(e0: Env, state: PeerState, e1: Env, e2: Env, timer: nat, e3: Env, e4: Env): seq<Occurrence> {
    [Occurrence(Enable(true), e0)]
    + [Occurrence(Alive(state.nodeId, Ok(state)), e1)]
    + [Occurrence(Enable(false), e2)]
    + [Occurrence(Elapse(timer), e3)]
    + [Occurrence(WatchdogDue(state.sessionId), e4)]
  }

  /** A new node after it was enabled, began to measure a peer's session and was disabled. */
  lemma NewNodeWaits(self: Option<Endpoint>, id: NodeId, bpm: real, sync: bool, now: Micros, e0: Env, state: PeerState, e1: Env, e2: Env)
    requires state.nodeId != e0.newId && state.sessionId != e0.newId && state.endpoint.Some?
    ensures var c := InitialCore(self, id, bpm, sync, now);
      var run := [Occurrence(Enable(true), e0)] + [Occurrence(Alive(state.nodeId, Ok(state)), e1)] + [Occurrence(Enable(false), e2)];
      PossibleRun(c, run, true) && Waiting(Run(c, run, true), state.sessionId, state.endpoint.value)
  {
    hide Step, Run, PossibleRun, Possible, Replay, Accounted, CurrentPeerState, InitialCore, NothingElapsed, Waiting, InRange, Usable;
    var c := InitialCore(self, id, bpm, sync, now);
    Enabled(self, id, bpm, sync, now, e0);
    InitiallyAccounted(self, id, bpm, sync, now);
    AlwaysPossible(Replay(c.out), Enable(true));
    StepAccounts(c, Enable(true), e0, true);
    var o0, o1, o2 := Occurrence(Enable(true), e0), Occurrence(Alive(state.nodeId, Ok(state)), e1), Occurrence(Enable(false), e2);
    EmptyRun(c);
    RunSnoc(c, [], o0);
    assert [] + [o0] == [o0];
    RunSnoc(c, [o0], o1);
    RunSnoc(c, [o0] + [o1], o2);
    AlwaysPossible(Replay(Run(c, [o0], true).out), o1.event);
    AlwaysPossible(Replay(Run(c, [o0] + [o1], true).out), o2.event);
    DisabledWhileMeasuring(Run(c, [o0], true), state, e1, e2);
  }

  /** From a new node on: after it was disabled, a ping goes out when the watchdog of a measurement is due. */
  lemma DisabledNodePingsInARun(self: Option<Endpoint>, id: NodeId, bpm: real, sync: bool, now: Micros,
                                e0: Env, state: PeerState, e1: Env, e2: Env, e3: Env, e4: Env) returns (timer: nat)
    requires state.nodeId != e0.newId && state.sessionId != e0.newId && state.endpoint.Some?
    ensures var c, run := InitialCore(self, id, bpm, sync, now), DisabledAmidMeasuring(e0, state, e1, e2, timer, e3, e4);
      var before, r := Run(c, run[..4], true), Run(c, run, true);
      && PossibleRun(c, run, true)
      && !before.enabled && !r.enabled
      && Sent(r.out) == Sent(before.out) + [PingSent(state.sessionId, state.endpoint.value, e4.ping, 0)]
  {
    hide Step, Run, PossibleRun, Possible, Replay, Sent, InitialCore, Waiting, InRange, Usable;
    var c := InitialCore(self, id, bpm, sync, now);
    var run := [Occurrence(Enable(true), e0)] + [Occurrence(Alive(state.nodeId, Ok(state)), e1)] + [Occurrence(Enable(false), e2)];
    NewNodeWaits(self, id, bpm, sync, now, e0, state, e1, e2);
    timer := WaitingPings(Run(c, run, true), state.sessionId, state.endpoint.value, e3, e4);
    var o3, o4 := Occurrence(Elapse(timer), e3), Occurrence(WatchdogDue(state.sessionId), e4);
    RunSnoc(c, run, o3);
    RunSnoc(c, run + [o3], o4);
    assert DisabledAmidMeasuring(e0, state, e1, e2, timer, e3, e4)[..4] == run + [o3];
  }
}
