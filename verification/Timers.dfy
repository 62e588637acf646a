/**
 The timer hub, broadcast pacing and the life of measurements, as a replay of
 the effects the engine logs (timerHub and broadcast in link/engine.go, the
 watchdogs of link/measurement.go).
 */
module Timers {
  import opened Rounding
  import opened Tempos
  import opened Timelines
  import opened Wire
  import opened NodeIds
  import opened PeerStates
  import opened Measurement
  import opened Session

  const MIN_BROADCAST_GAP: int := 50000
  const CHANNEL_SIZE := 64

  /** What a timer runs when it fires. */
  datatype Callback = Watchdog(sid: NodeId) | Remeasure | DeferredBroadcast

  /**
   The hub: ids issued so far, the callbacks and running timers by id, the
   channel of ids that elapsed; then the ids the engine remembers, its pacing
   state and what it broadcast; last the history of what became of the ids.
   */
  datatype Hub = Hub(
    issued: nat,
    callbacks: map<nat, Callback>,
    running: set<nat>,
    channel: seq<nat>,
    watchdogs: map<NodeId, nat>,
    remeasureId: nat,
    broadcastPending: bool,
    broadcastId: nat,
    lastBroadcast: Option<int>,
    broadcasts: seq<PeerState>,
    ran: seq<nat>,
    cancelled: set<nat>,
    elapsed: set<nat>)

  const NEW_HUB := Hub(0, map[], {}, [], map[], 0, false, 0, None, [], [], {}, {})

  function After(h: Hub, cb: Callback): Hub {
    var id := h.issued + 1;
    h.(issued := id, callbacks := h.callbacks[id := cb], running := h.running + {id})
  }

  function Cancel(h: Hub, id: nat): Hub {
    h.(callbacks := h.callbacks - {id}, running := h.running - {id},
       cancelled := if id in h.callbacks then h.cancelled + {id} else h.cancelled)
  }

  /** Receives the id at the head of the channel; its callback is taken off the hub, and an id without one is dropped. */
  function Receive(h: Hub): Hub {
    if h.channel == [] then h
    else
      var id := h.channel[0];
      var h1 := h.(channel := h.channel[1..]);
      if id in h.callbacks
      then h1.(callbacks := h.callbacks - {id}, running := h.running - {id}, ran := h.ran + [id])
      else h1
  }

  function BroadcastNow(h: Hub, wall: int, state: PeerState): Hub {
    h.(lastBroadcast := Some(wall), broadcasts := h.broadcasts + [state])
  }

  function Apply(h: Hub, e: Effect): Hub {
    match e
    case Announce(wall, state) =>
      if h.lastBroadcast.Some? && wall - h.lastBroadcast.value < MIN_BROADCAST_GAP then
        if h.broadcastPending then h
        else
          var h1 := After(h, DeferredBroadcast);
          h1.(broadcastPending := true, broadcastId := h1.issued)
      else BroadcastNow(h, wall, state)
    case BroadcastRan(wall, enabled, state) =>
      var h1 := Receive(h).(broadcastPending := false);
      if enabled then BroadcastNow(h1, wall, state) else h1
    case ArmWatchdog(sid) =>
      var h1 := After(h, Watchdog(sid));
      h1.(watchdogs := h1.watchdogs[sid := h1.issued])
    case DisarmWatchdog(sid) =>
      if sid in h.watchdogs then
        var h1 := Cancel(h, h.watchdogs[sid]);
        h1.(watchdogs := h1.watchdogs - {sid})
      else h
    case ArmRemeasure =>
      var h1 := if h.remeasureId != 0 then Cancel(h, h.remeasureId) else h;
      var h2 := After(h1, Remeasure);
      h2.(remeasureId := h2.issued)
    case WatchdogRan(_) => Receive(h)
    case RemeasureRan => Receive(h).(remeasureId := 0)
    case TimerElapsed(id) =>
      var h1 := h.(elapsed := h.elapsed + {id});
      if |h.channel| < CHANNEL_SIZE then h1.(channel := h.channel + [id]) else h1
    case StaleTimer => Receive(h)
    case _ => h
  }

  /** The hub after everything logged so far. */
  function Replay(out: seq<Effect>): Hub {
    if out == [] then NEW_HUB else Apply(Replay(out[..|out| - 1]), out[|out| - 1])
  }

  lemma ReplaySnoc(out: seq<Effect>, e: Effect)
    ensures Replay(out + [e]) == Apply(Replay(out), e)
  {}

  /** The measurements in flight after everything logged so far; None once one was started twice, ended twice or ended wrongly. */
  function Flights(out: seq<Effect>): Option<set<NodeId>> {
    if out == [] then Some({})
    else
      match Flights(out[..|out| - 1])
      case None => None
      case Some(flying) =>
        match out[|out| - 1]
        case Started(sid) => if sid in flying then None else Some(flying + {sid})
        case Ended(sid, ok, samples) =>
          if sid !in flying || (ok && samples !in {101, 102}) then None else Some(flying - {sid})
        case _ => Some(flying)
  }

  lemma FlightsSnoc(out: seq<Effect>, e: Effect)
    requires !e.Started? && !e.Ended?
    ensures Flights(out + [e]) == Flights(out)
  {}

  // ----- What holds of the hub -----

  /** Every remembered id owns its callback and every callback is owned: one watchdog per live session, at most one of each other kind. */
  ghost predicate Owned(h: Hub, live: set<NodeId>) {
    && h.running == h.callbacks.Keys
    && (forall id | id in h.callbacks :: 1 <= id <= h.issued &&
          match h.callbacks[id]
          case Watchdog(sid) => sid in live && sid in h.watchdogs && h.watchdogs[sid] == id
          case Remeasure => h.remeasureId == id
          case DeferredBroadcast => h.broadcastPending && h.broadcastId == id)
    && (forall sid | sid in live :: sid in h.watchdogs && h.watchdogs[sid] in h.callbacks)
    && (forall sid | sid in h.watchdogs :: h.watchdogs[sid] in h.callbacks ==> h.callbacks[h.watchdogs[sid]] == Watchdog(sid))
    && (h.remeasureId != 0 ==> h.remeasureId in h.callbacks && h.callbacks[h.remeasureId] == Remeasure)
    && (h.broadcastPending ==> h.broadcastId in h.callbacks && h.callbacks[h.broadcastId] == DeferredBroadcast)
    && (forall sid | sid in h.watchdogs :: h.watchdogs[sid] <= h.issued)
  }

  /** No id runs twice or runs after it was cancelled, and what ran or was cancelled is off the hub for good. */
  ghost predicate Once(h: Hub) {
    && (forall i, j | 0 <= i < j < |h.ran| :: h.ran[i] != h.ran[j])
    && (forall id | id in h.ran :: id <= h.issued && id !in h.callbacks && id !in h.cancelled)
    && (forall id | id in h.cancelled :: id <= h.issued && id !in h.callbacks)
  }

  ghost predicate Orderly(h: Hub, live: set<NodeId>) {
    Owned(h, live) && Once(h)
  }

  lemma AfterKeepsOnce(h: Hub, cb: Callback)
    requires Once(h)
    ensures Once(After(h, cb))
  {}

  lemma CancelKeepsOnce(h: Hub, id: nat)
    requires Once(h) && (forall x | x in h.callbacks :: x <= h.issued)
    ensures Once(Cancel(h, id))
  {}

  lemma ReceiveKeepsOnce(h: Hub)
    requires Once(h) && (forall x | x in h.callbacks :: x <= h.issued)
    ensures Once(Receive(h))
  {}

  lemma ArmWatchdogKeeps(h: Hub, live: set<NodeId>, sid: NodeId)
    requires Orderly(h, live) && sid !in live
    ensures Orderly(Apply(h, ArmWatchdog(sid)), live + {sid})
  {
    AfterKeepsOnce(h, Watchdog(sid));
  }

  lemma DisarmWatchdogKeeps(h: Hub, live: set<NodeId>, sid: NodeId)
    requires Orderly(h, live)
    ensures Orderly(Apply(h, DisarmWatchdog(sid)), live - {sid})
  {
    if sid in h.watchdogs {
      CancelKeepsOnce(h, h.watchdogs[sid]);
    }
  }

  lemma CancelRemeasureKeeps(h: Hub, live: set<NodeId>)
    requires Orderly(h, live) && h.remeasureId != 0
    ensures Orderly(Cancel(h, h.remeasureId).(remeasureId := 0), live)
  {}

  lemma ArmFirstRemeasure(h: Hub, live: set<NodeId>)
    requires Orderly(h, live) && h.remeasureId == 0
    ensures Orderly(After(h, Remeasure).(remeasureId := h.issued + 1), live)
  {}

  lemma ArmRemeasureKeeps(h: Hub, live: set<NodeId>)
    requires Orderly(h, live)
    ensures Orderly(Apply(h, ArmRemeasure), live)
  {
    hide Orderly;
    if h.remeasureId != 0 {
      CancelRemeasureKeeps(h, live);
      ArmFirstRemeasure(Cancel(h, h.remeasureId).(remeasureId := 0), live);
    } else {
      ArmFirstRemeasure(h, live);
    }
  }

  lemma AnnounceKeeps(h: Hub, live: set<NodeId>, wall: int, state: PeerState)
    requires Orderly(h, live)
    ensures Orderly(Apply(h, Announce(wall, state)), live)
  {}

  /** When a timer event can happen: its id is at the head of the channel, or its timer has yet to elapse. */
  ghost predicate Possible(h: Hub, e: Event) {
    match e
    case WatchdogDue(sid) => h.channel != [] && h.channel[0] in h.callbacks && h.callbacks[h.channel[0]] == Watchdog(sid)
    case RemeasureDue => h.channel != [] && h.channel[0] in h.callbacks && h.callbacks[h.channel[0]] == Remeasure
    case BroadcastDue => h.channel != [] && h.channel[0] in h.callbacks && h.callbacks[h.channel[0]] == DeferredBroadcast
    case StaleDue => h.channel != [] && h.channel[0] !in h.callbacks
    case Elapse(id) => 1 <= id <= h.issued && id !in h.elapsed
    case _ => true
  }

  lemma WatchdogRanKeeps(h: Hub, live: set<NodeId>, sid: NodeId)
    requires Orderly(h, live) && Possible(h, WatchdogDue(sid))
    ensures sid in live && Orderly(Apply(h, WatchdogRan(sid)), live - {sid})
  {
    ReceiveKeepsOnce(h);
  }

  lemma RemeasureRanKeeps(h: Hub, live: set<NodeId>)
    requires Orderly(h, live) && Possible(h, RemeasureDue)
    ensures Orderly(Apply(h, RemeasureRan), live) && Apply(h, RemeasureRan).remeasureId == 0
  {
    ReceiveKeepsOnce(h);
  }

  lemma BroadcastRanKeeps(h: Hub, live: set<NodeId>, wall: int, enabled: bool, state: PeerState)
    requires Orderly(h, live) && Possible(h, BroadcastDue)
    ensures Orderly(Apply(h, BroadcastRan(wall, enabled, state)), live)
  {
    ReceiveKeepsOnce(h);
  }

  lemma StaleKeeps(h: Hub, live: set<NodeId>)
    requires Orderly(h, live) && Possible(h, StaleDue)
    ensures Orderly(Apply(h, StaleTimer), live)
    ensures Apply(h, StaleTimer).ran == h.ran
  {}

  // ----- The engine's timers and measurements -----

  /** The points of a measurement in flight and its restarts stay within their limits. */
  ghost predicate WithinLimits(measurements: map<NodeId, Measurer>) {
    forall sid | sid in measurements ::
      |measurements[sid].points| <= MAX_MEASURE_POINTS && measurements[sid].started <= MAX_MEASURE_STARTS
  }

  /** The hub is in order for the given live watchdogs, and the log accounts for exactly the measurements in flight. */
  ghost predicate AccountedFor(c: Core, live: set<NodeId>) {
    && Orderly(Replay(c.out), live)
    && Flights(c.out) == Some(c.measurements.Keys)
    && WithinLimits(c.measurements)
  }

  ghost predicate Accounted(c: Core) {
    AccountedFor(c, c.measurements.Keys)
  }

  /** Effects that concern neither timers nor the start and end of measurements. */
  predicate Plain(e: Effect) {
    e.Respond? || e.Leave? || e.PingSent? || e.PongSent? || e.Forgot? || e.Founded?
  }

  lemma EmitAccounts(c: Core, e: Effect, live: set<NodeId>, after: set<NodeId>)
    requires AccountedFor(c, live) && !e.Started? && !e.Ended?
    requires Orderly(Apply(Replay(c.out), e), after)
    ensures AccountedFor(Emit(c, e), after)
  {}

  lemma EmitPlain(c: Core, e: Effect, live: set<NodeId>)
    requires AccountedFor(c, live) && Plain(e)
    ensures AccountedFor(Emit(c, e), live)
  {
    hide Replay, Flights, Orderly;
    EmitAccounts(c, e, live, live);
  }

  lemma BroadcastAccounts(c: Core, wall: int, live: set<NodeId>)
    requires AccountedFor(c, live)
    ensures AccountedFor(Broadcast(c, wall), live)
  {
    hide Replay, Flights, Orderly, Apply, CurrentPeerState;
    AnnounceKeeps(Replay(c.out), live, wall, CurrentPeerState(c));
    EmitAccounts(c, Announce(wall, CurrentPeerState(c)), live, live);
  }

  lemma ScheduleAccounts(c: Core, live: set<NodeId>)
    requires AccountedFor(c, live)
    ensures AccountedFor(ScheduleRemeasure(c), live)
  {
    hide Replay, Flights, Orderly, Apply;
    ArmRemeasureKeeps(Replay(c.out), live);
    EmitAccounts(c, ArmRemeasure, live, live);
  }

  lemma ArmAccounts(c: Core, sid: NodeId, live: set<NodeId>)
    requires AccountedFor(c, live) && sid !in live
    ensures AccountedFor(Emit(c, ArmWatchdog(sid)), live + {sid})
  {
    hide Replay, Flights, Orderly, Apply;
    ArmWatchdogKeeps(Replay(c.out), live, sid);
    EmitAccounts(c, ArmWatchdog(sid), live, live + {sid});
  }

  lemma DisarmAccounts(c: Core, sid: NodeId, live: set<NodeId>)
    requires AccountedFor(c, live)
    ensures AccountedFor(Emit(c, DisarmWatchdog(sid)), live - {sid})
  {
    hide Replay, Flights, Orderly, Apply;
    DisarmWatchdogKeeps(Replay(c.out), live, sid);
    EmitAccounts(c, DisarmWatchdog(sid), live, live - {sid});
  }

  /** Only the log and the measurements matter. */
  lemma SameAccount(c: Core, r: Core, live: set<NodeId>)
    requires AccountedFor(c, live) && r.out == c.out && r.measurements.Keys == c.measurements.Keys && WithinLimits(r.measurements)
    ensures AccountedFor(r, live)
  {}

  lemma ResetAccounts(c: Core, env: Env, live: set<NodeId>)
    requires Sound(c) && AccountedFor(c, live)
    ensures AccountedFor(ResetState(c, env), live)
  {
    hide InRange, Usable, AccountedFor, FoundedTimeline, UpdateClientTimelineFromSession, StartStopToClient, CurrentPeerState;
    var c1 := c.(nodeId := env.newId, sessionId := env.newId, startStop := NO_START_STOP);
    var c2 := UpdateSessionTiming(c1, FoundedTimeline(c.timeline, c.xform, env.found), InitXForm(env.found), env.settle);
    SameAccountQuiet(c, c2, live);
    BroadcastAccounts(c2, env.wall, live);
    var c3 := Broadcast(c2, env.wall).(others := map[], peers := map[]);
    SameAccountQuiet(Broadcast(c2, env.wall), c3, live);
    EmitPlain(c3, Founded(env.newId), live);
  }

  lemma SameAccountQuiet(c: Core, r: Core, live: set<NodeId>)
    requires AccountedFor(c, live) && r.out == c.out && r.measurements == c.measurements
    ensures AccountedFor(r, live)
  {}

  lemma MembershipAccounts(c: Core, env: Env, live: set<NodeId>)
    requires Sound(c) && AccountedFor(c, live)
    ensures AccountedFor(SessionMembershipChanged(c, env), live)
  {
    hide InRange, Usable, AccountedFor, ResetState, Members;
    var c1 := c.(peerNbr := |Members(c.peers, c.sessionId)|);
    SameAccountQuiet(c, c1, live);
    ResetAccounts(c1, env, live);
  }

  lemma ResultAccounts(c: Core, sid: NodeId, xform: GhostXForm, env: Env, live: set<NodeId>)
    requires Sound(c) && IsResult(xform) && AccountedFor(c, live)
    ensures AccountedFor(HandleMeasurementResult(c, sid, xform, env), live)
  {
    hide InRange, Usable, AccountedFor, UpdateClientTimelineFromSession, StartStopToClient, SessionMembershipChanged,
      CurrentPeerState, Wins, Members;
    if sid == c.sessionId {
      ScheduleAccounts(c, live);
      if xform != ZERO_XFORM {
        var c1 := UpdateSessionTiming(c, c.timeline, xform, env.update);
        SameAccountQuiet(c, c1, live);
        hide UpdateSessionTiming;
        BroadcastAccounts(c1, env.wall, live);
        ScheduleAccounts(Broadcast(c1, env.wall), live);
      }
    } else if sid in c.others && xform == ZERO_XFORM {
      SameAccountQuiet(c, c.(others := c.others - {sid}), live);
      EmitPlain(c.(others := c.others - {sid}), Forgot(sid), live);
    } else if sid in c.others && Wins(sid, xform, c.sessionId, c.xform, env.decide) {
      SwitchAccounts(c, sid, xform, env, live);
      hide SwitchSession;
      var c1 := SwitchSession(c, sid, xform, env);
      MembershipAccounts(c1, env, live);
      ScheduleAccounts(SessionMembershipChanged(c1, env), live);
    }
  }

  lemma SwitchAccounts(c: Core, sid: NodeId, xform: GhostXForm, env: Env, live: set<NodeId>)
    requires Sound(c) && xform.slope == 1.0 && sid in c.others && AccountedFor(c, live)
    ensures AccountedFor(SwitchSession(c, sid, xform, env), live)
  {
    hide InRange, Usable, AccountedFor, UpdateClientTimelineFromSession, StartStopToClient, CurrentPeerState;
    var rest := c.others - {sid};
    var c1 := c.(others := if c.sessionId in rest then rest else rest[c.sessionId := c.timeline], sessionId := sid, startStop := NO_START_STOP);
    var c2 := UpdateSessionTiming(c1, c.others[sid], xform, env.update);
    SameAccountQuiet(c, c2, live);
    BroadcastAccounts(c2, env.wall, live);
  }

  /** A measurement is only started when none is in flight, with its watchdog armed. */
  lemma StartAccounts(c: Core, sid: NodeId, target: Endpoint, env: Env)
    requires Accounted(c) && sid !in c.measurements
    ensures Accounted(StartMeasurement(c, sid, target, env))
  {
    hide Replay, Apply, Orderly, AccountedFor;
    StartedAccounts(c, sid, target);
    var live := c.measurements.Keys;
    var c1 := Emit(c.(measurements := c.measurements[sid := Measurer(target, [], 0)]), Started(sid));
    assert c1.measurements.Keys == live + {sid};
    EmitPlain(c1, PingSent(sid, target, env.ping, 0), live);
    ArmAccounts(Emit(c1, PingSent(sid, target, env.ping, 0)), sid, live);
  }

  lemma StartedAccounts(c: Core, sid: NodeId, target: Endpoint)
    requires Accounted(c) && sid !in c.measurements
    ensures AccountedFor(Emit(c.(measurements := c.measurements[sid := Measurer(target, [], 0)]), Started(sid)), c.measurements.Keys)
  {
    hide Replay, Orderly;
    ReplaySnoc(c.out, Started(sid));
    var c1 := Emit(c.(measurements := c.measurements[sid := Measurer(target, [], 0)]), Started(sid));
    assert c1.out[..|c.out|] == c.out;
    assert c1.measurements.Keys == c.measurements.Keys + {sid};
  }

  lemma LaunchAccounts(c: Core, sid: NodeId, env: Env)
    requires Sound(c) && Accounted(c)
    ensures Accounted(LaunchMeasurement(c, sid, env))
  {
    hide InRange, Usable, AccountedFor, StartMeasurement, HandleMeasurementResult, Chosen;
    var candidates := Members(c.peers, sid);
    if sid !in c.measurements && candidates == {} {
      SameAccountQuiet(c, c.(others := c.others - {sid}), c.measurements.Keys);
    } else if sid !in c.measurements {
      ResultAccounts(c, sid, ZERO_XFORM, env, c.measurements.Keys);
      match c.peers[Chosen(sid, candidates)].state.endpoint {
        case None =>
        case Some(target) => StartAccounts(c, sid, target, env);
      }
    }
  }

  lemma SawTimelineAccounts(c: Core, sid: NodeId, tl: Timeline, env: Env)
    requires Sound(c) && Accounted(c)
    ensures Accounted(SawSessionTimeline(c, sid, tl, env))
  {
    hide InRange, Usable, AccountedFor, LaunchMeasurement, UpdateClientTimelineFromSession, StartStopToClient, CurrentPeerState;
    var live := c.measurements.Keys;
    if sid == c.sessionId {
      var c1 := if tl.beatOrigin > c.timeline.beatOrigin then UpdateSessionTiming(c, tl, c.xform, env.update) else c;
      SameAccountQuiet(c, c1, live);
      BroadcastAccounts(c1, env.wall, live);
    } else {
      var c1 := c.(others := c.others[sid := tl]);
      SameAccountQuiet(c, c1, live);
      LaunchAccounts(c1, sid, env);
    }
  }

  lemma StartStopAccounts(c: Core, sid: NodeId, ss: StartStopState, env: Env)
    requires Sound(c) && Accounted(c)
    ensures Accounted(HandleStartStop(c, sid, ss, env))
  {
    hide InRange, Usable, AccountedFor, StartStopToClient, CurrentPeerState;
    var c1 := c.(startStop := ss);
    SameAccountQuiet(c, c1, c.measurements.Keys);
    BroadcastAccounts(c1, env.wall, c.measurements.Keys);
    var c2 := Broadcast(c1, env.wall);
    SameAccountQuiet(c2, HandleStartStop(c, sid, ss, env).(out := c2.out), c.measurements.Keys);
  }

  lemma SawPeerAccounts(c: Core, id: NodeId, state: PeerState, env: Env, filtered: bool)
    requires Sound(c) && Accounted(c)
    ensures Accounted(SawPeerState(c, id, state, env, filtered))
  {
    hide InRange, Usable, AccountedFor, SawSessionTimeline, HandleStartStop, SessionMembershipChanged;
    var propagate := !filtered || TimelineChanged(EntryOf(c, id), state);
    var c0 := c.(peers := c.peers[id := NotedPeer(EntryOf(c, id), state, env, propagate)]);
    SameAccountQuiet(c, c0, c.measurements.Keys);
    SawTimelineAccounts(c0, state.sessionId, state.timeline, env);
    var c1 := NoteTimeline(c, id, state, env, filtered);
    assert Accounted(c1);
    hide NoteTimeline;
    var p := c1.peers[id].(ssKnown := true, ssSession := state.sessionId, ssPropagated := state.startStop);
    var c2 := c1.(peers := c1.peers[id := p]);
    SameAccountQuiet(c1, c2, c1.measurements.Keys);
    StartStopAccounts(c2, state.sessionId, state.startStop, env);
    var c3 := NoteStartStop(c1, id, state, env);
    assert Accounted(c3);
    MembershipAccounts(c3, env, c3.measurements.Keys);
  }

  /** Ending a measurement: at most one result, and success only with 101 or 102 samples. */
  lemma FinishAccounts(c: Core, sid: NodeId, xform: GhostXForm, env: Env, live: set<NodeId>)
    requires Sound(c) && IsResult(xform) && sid in c.measurements
    requires Orderly(Replay(c.out), live) && Flights(c.out) == Some(c.measurements.Keys)
    requires live - {sid} == c.measurements.Keys - {sid} && WithinLimits(c.measurements - {sid})
    requires xform != ZERO_XFORM ==> |c.measurements[sid].points| in {101, 102}
    ensures Accounted(FinishMeasurement(c, sid, xform, env))
  {
    hide InRange, Usable, HandleMeasurementResult;
    var rest := c.measurements - {sid};
    DisarmWatchdogKeeps(Replay(c.out), live, sid);
    ReplaySnoc(c.out, DisarmWatchdog(sid));
    FlightsSnoc(c.out, DisarmWatchdog(sid));
    var c1 := Emit(c, DisarmWatchdog(sid)).(measurements := rest);
    var e := Ended(sid, xform != ZERO_XFORM, |c.measurements[sid].points|);
    ReplaySnoc(c1.out, e);
    assert (c1.out + [e])[..|c1.out|] == c1.out;
    var c2 := Emit(c1, e);
    assert Flights(c2.out) == Some(rest.Keys);
    assert Accounted(c2);
    hide Replay, Flights, Orderly, Apply, WithinLimits;
    ResultAccounts(c2, sid, xform, env, rest.Keys);
  }

  lemma SamplesAtMostTwo(p: Pong, now: Micros)
    ensures |Samples(p, now)| <= 2
  {}

  lemma PongAccounts(c: Core, sid: NodeId, pong: Result<Pong>, env: Env)
    requires Sound(c) && sid in c.measurements && Accounted(c)
    ensures Accounted(HandlePong(c, sid, pong, env))
  {
    hide InRange, Usable, FinishMeasurement, Samples, Median, Llround, Replay, Flights, Orderly, Apply;
    var live := c.measurements.Keys;
    if pong.Err? || pong.value.sessionId != sid {
      FinishAccounts(c, sid, ZERO_XFORM, env, live);
    } else {
      var m := c.measurements[sid];
      var ping := PingSent(sid, m.target, env.ping, pong.value.ghostTime);
      EmitPlain(c, ping, live);
      SamplesAtMostTwo(pong.value, env.ping);
      var points := m.points + Samples(pong.value, env.ping);
      var c2 := Emit(c, ping).(measurements := c.measurements[sid := m.(points := points)]);
      assert c2.measurements - {sid} == c.measurements - {sid};
      assert c2.measurements.Keys == live;
      if |points| > MAX_MEASURE_POINTS {
        FinishAccounts(c2, sid, GhostXForm(1.0, Llround(Median(points))), env, live);
      } else {
        DisarmAccounts(c2, sid, live);
        ArmAccounts(Emit(c2, DisarmWatchdog(sid)), sid, live - {sid});
        assert live - {sid} + {sid} == live;
      }
    }
  }

  lemma WatchdogAccounts(c: Core, sid: NodeId, env: Env)
    requires Sound(c) && Accounted(c) && Possible(Replay(c.out), WatchdogDue(sid))
    ensures Accounted(WatchdogFired(c, sid, env))
  {
    hide InRange, Usable, FinishMeasurement, Replay, Flights, Orderly, Apply, Possible;
    var live := c.measurements.Keys;
    WatchdogRanKeeps(Replay(c.out), live, sid);
    EmitAccounts(c, WatchdogRan(sid), live, live - {sid});
    var c1 := Emit(c, WatchdogRan(sid));
    if c.measurements[sid].started < MAX_MEASURE_STARTS {
      RestartAccounts(c1, sid, env);
    } else {
      FinishAccounts(c1, sid, ZERO_XFORM, env, live - {sid});
    }
  }

  lemma RestartAccounts(c: Core, sid: NodeId, env: Env)
    requires sid in c.measurements && AccountedFor(c, c.measurements.Keys - {sid}) && c.measurements[sid].started < MAX_MEASURE_STARTS
    ensures var m := c.measurements[sid];
      var c1 := Emit(c, PingSent(sid, m.target, env.ping, 0));
      Accounted(Emit(c1.(measurements := c1.measurements[sid := m.(started := m.started + 1)]), ArmWatchdog(sid)))
  {
    hide Replay, Flights, Orderly;
    var live := c.measurements.Keys - {sid};
    var m := c.measurements[sid];
    var ping := PingSent(sid, m.target, env.ping, 0);
    EmitPlain(c, ping, live);
    var c1 := Emit(c, ping).(measurements := c.measurements[sid := m.(started := m.started + 1)]);
    assert c1.measurements.Keys == c.measurements.Keys == live + {sid};
    SameAccount(Emit(c, ping), c1, live);
    hide AccountedFor;
    ArmAccounts(c1, sid, live);
  }

  lemma CommitAccounts(c: Core, at: Micros, env: Env)
    requires Sound(c) && Accounted(c)
    ensures Accounted(CommitClientTimeline(c, at, env))
  {
    hide InRange, Usable, AccountedFor, UpdateClientTimelineFromSession, UpdateSessionTimelineFromClient, StartStopToClient,
      CurrentPeerState, CacheTimeline;
    var c1 := UpdateSessionTiming(c, UpdateSessionTimelineFromClient(c.timeline, c.client, at, c.xform), c.xform, env.update);
    var c2 := c1.(peers := CacheTimeline(c1.peers, c1.sessionId, c1.timeline));
    SameAccountQuiet(c, c2, c.measurements.Keys);
    BroadcastAccounts(c2, env.wall, c.measurements.Keys);
  }

  lemma CommandAccounts(c: Core, client: Timeline, at: Micros, env: Env)
    requires Sound(c) && Accounted(c) && InRange(client.bpm)
    ensures Accounted(CommitClientTimeline(c.(client := client), at, env))
  {
    hide InRange, Usable, AccountedFor, CommitClientTimeline;
    SameAccountQuiet(c, c.(client := client), c.measurements.Keys);
    CommitAccounts(c.(client := client), at, env);
  }

  lemma EnableAccounts(c: Core, on: bool, env: Env)
    requires Sound(c) && Accounted(c)
    ensures Accounted(SetEnabled(c, on, env))
  {
    hide InRange, Usable, AccountedFor, ResetState, CurrentPeerState;
    var live := c.measurements.Keys;
    var c1 := c.(enabled := on);
    SameAccountQuiet(c, c1, live);
    ResetAccounts(c1, env, live);
    BroadcastAccounts(ResetState(c1, env), env.wall, live);
    EmitPlain(c1, Leave(c.nodeId), live);
    var c2 := Emit(c1, Leave(c.nodeId));
    SameAccountQuiet(c2, c2.(peers := map[], others := map[], peerNbr := 0), live);
  }

  lemma PlayingAccounts(c: Core, playing: bool, at: Micros, env: Env)
    requires Sound(c) && Accounted(c)
    ensures Accounted(ApplyPlayingChange(c, playing, at, env))
  {
    hide InRange, Usable, AccountedFor, CurrentPeerState, GhostXForm.HostToGhost, Timeline.ToBeats;
    var live := c.measurements.Keys;
    var c1 := if at >= c.clientStartStop.timestamp then c.(clientStartStop := ClientStartStop(playing, at, at)) else c;
    var ghostAt := c.xform.HostToGhost(at);
    var c2 := c1.(startStop := StartStopState(playing, c.timeline.ToBeats(ghostAt), ghostAt));
    SameAccountQuiet(c, c1, live);
    SameAccountQuiet(c, c2, live);
    BroadcastAccounts(c2, env.wall, live);
  }

  lemma ElapseKeeps(h: Hub, live: set<NodeId>, id: nat)
    requires Orderly(h, live)
    ensures Orderly(Apply(h, TimerElapsed(id)), live)
  {}

  lemma TimerEventAccounts(c: Core, e: Event, env: Env, filtered: bool)
    requires Sound(c) && Accounted(c) && Possible(Replay(c.out), e)
    requires e.BroadcastDue? || e.Elapse? || e.StaleDue?
    ensures Accounted(Step(c, e, env, filtered))
  {
    hide InRange, Usable, CurrentPeerState, AccountedFor, Orderly, Apply, Replay, Possible;
    var h, live := Replay(c.out), c.measurements.Keys;
    assert AccountedFor(c, live) ==> Orderly(h, live) by { AccountedIsOrderly(c, live); }
    match e {
      case BroadcastDue =>
        BroadcastRanKeeps(h, live, env.wall, c.enabled, CurrentPeerState(c));
        EmitAccounts(c, BroadcastRan(env.wall, c.enabled, CurrentPeerState(c)), live, live);
      case StaleDue =>
        StaleKeeps(h, live);
        EmitAccounts(c, StaleTimer, live, live);
      case Elapse(id) =>
        ElapseKeeps(h, live, id);
        EmitAccounts(c, TimerElapsed(id), live, live);
    }
  }

  lemma AccountedIsOrderly(c: Core, live: set<NodeId>)
    requires AccountedFor(c, live)
    ensures Orderly(Replay(c.out), live)
  {}

  lemma RemeasureAccounts(c: Core, env: Env)
    requires Sound(c) && Accounted(c) && Possible(Replay(c.out), RemeasureDue)
    ensures Accounted(RemeasureFired(c, env))
  {
    hide Replay, Flights, Orderly, Apply, Possible, LaunchMeasurement, InRange, Usable;
    var live := c.measurements.Keys;
    RemeasureRanKeeps(Replay(c.out), live);
    EmitAccounts(c, RemeasureRan, live, live);
    var c1 := Emit(c, RemeasureRan);
    LaunchAccounts(c1, c1.sessionId, env);
    var c2 := LaunchMeasurement(c1, c1.sessionId, env);
    ScheduleAccounts(c2, c2.measurements.Keys);
  }

  /** Every event that can happen keeps timers and measurements accounted for. */
  lemma StepAccounts(c: Core, e: Event, env: Env, filtered: bool)
    requires Sound(c) && Accounted(c) && Possible(Replay(c.out), e)
    ensures Accounted(Step(c, e, env, filtered))
  {
    hide InRange, Usable, AccountedFor, SawPeerState, SessionMembershipChanged, CommitClientTimeline, RemeasureFired, WatchdogFired,
      HandlePong, CurrentPeerState, RequestedTime, ForceBeatWithRetry, WithTempo, PongMessage, ApplyPlayingChange, SetEnabled,
      GhostXForm.HostToGhost, Members, Replay, Possible;
    var live := c.measurements.Keys;
    match e
    case Alive(id, announced) =>
      if announced.Ok? {
        SawPeerAccounts(c, id, announced.value.(nodeId := id), env, filtered);
      }
      var c1 := Discovered(c, id, announced, env, filtered);
      EmitPlain(c1, Respond(CurrentPeerState(c1)), c1.measurements.Keys);
    case Response(id, announced) =>
      if announced.Ok? {
        SawPeerAccounts(c, id, announced.value.(nodeId := id), env, filtered);
      }
    case ByeBye(id) =>
      SameAccountQuiet(c, c.(peers := c.peers - {id}), live);
      MembershipAccounts(c.(peers := c.peers - {id}), env, live);
    case PruneTick =>
      SameAccountQuiet(c, c.(peers := c.peers - Expired(c.peers, env.wall)), live);
      MembershipAccounts(c.(peers := c.peers - Expired(c.peers, env.wall)), env, live);
    case BroadcastTick => BroadcastAccounts(c, env.wall, live);
    case PingReceived(from, payload) =>
      EmitPlain(c, PongSent(from, PongMessage(c.sessionId, c.xform.HostToGhost(env.ping), payload)), live);
    case PongReceived(sid, pong) =>
      if sid in c.measurements {
        PongAccounts(c, sid, pong, env);
      }
    case WatchdogDue(sid) => WatchdogAccounts(c, sid, env);
    case RemeasureDue => RemeasureAccounts(c, env);
    case BroadcastDue => TimerEventAccounts(c, e, env, filtered);
    case Elapse(timer) => TimerEventAccounts(c, e, env, filtered);
    case StaleDue => TimerEventAccounts(c, e, env, filtered);
    case SetTempo(bpm, at) =>
      TempoChangeKeepsBeat(c.client, bpm, at);
      CommandAccounts(c, WithTempo(c.client, bpm, at), at, env);
    case ForceBeat(beat, at, quantum) =>
      ForcedBeatWithRetry(c.client, beat, at, quantum);
      CommandAccounts(c, ForceBeatWithRetry(c.client, beat, at, quantum), at, env);
    case RequestBeat(beat, at, quantum) =>
      var t := RequestedTime(c, beat, at, quantum);
      ForcedBeatWithRetry(c.client, beat, t, quantum);
      CommandAccounts(c, ForceBeatWithRetry(c.client, beat, t, quantum), t, env);
    case SetPlaying(playing, at) => PlayingAccounts(c, playing, at, env);
    case Enable(on) => EnableAccounts(c, on, env);
    case SetSync(on) => SameAccountQuiet(c, c.(startStopSync := on), live);
  }

  /** A run in which every timer event is possible when it happens. */
  ghost predicate PossibleRun(c: Core, occurrences: seq<Occurrence>, filtered: bool)
    requires Sound(c)
    decreases |occurrences|
  {
    occurrences == [] ||
    (var last := |occurrences| - 1;
     && PossibleRun(c, occurrences[..last], filtered)
     && Possible(Replay(Run(c, occurrences[..last], filtered).out), occurrences[last].event))
  }

  /**
   In every reachable state the hub holds exactly one watchdog per measurement
   in flight, a remeasure timer and a deferred broadcast exactly when the
   engine remembers one, no timer ran twice or after being cancelled, and
   every measurement ever started has ended at most once.
   */
  lemma {:induction false} RunAccounts(c: Core, occurrences: seq<Occurrence>, filtered: bool)
    requires Sound(c) && Accounted(c) && PossibleRun(c, occurrences, filtered)
    ensures Accounted(Run(c, occurrences, filtered))
    decreases |occurrences|
  {
    hide InRange, AccountedFor, Possible, Replay;
    if occurrences != [] {
      var last := |occurrences| - 1;
      RunAccounts(c, occurrences[..last], filtered);
      StepAccounts(Run(c, occurrences[..last], filtered), occurrences[last].event, occurrences[last].env, filtered);
    }
  }

  lemma InitiallyAccounted(self: Option<Endpoint>, id: NodeId, bpm: real, sync: bool, now: Micros)
    ensures Accounted(InitialCore(self, id, bpm, sync, now))
  {}

  /** In reader's terms: an id has a callback exactly when a measurement in flight, the remeasure timer or a pending broadcast owns it. */
  lemma HubHoldsExactly(c: Core, id: nat)
    requires Accounted(c)
    ensures var h := Replay(c.out);
      && (id in h.callbacks <==> id in h.running)
      && (id in h.callbacks <==>
            || (exists sid :: sid in c.measurements && sid in h.watchdogs && h.watchdogs[sid] == id)
            || (h.remeasureId != 0 && id == h.remeasureId)
            || (h.broadcastPending && id == h.broadcastId))
      && (forall a, b | a in c.measurements && b in c.measurements && a in h.watchdogs && b in h.watchdogs :: h.watchdogs[a] == h.watchdogs[b] ==> a == b)
  {}

  lemma CancelledGrows(h: Hub, e: Effect)
    ensures h.cancelled <= Apply(h, e).cancelled
  {}

  /** What is cancelled stays cancelled, so a cancelled id never runs however the log goes on. */
  lemma {:induction false} CancelledStays(out: seq<Effect>, more: seq<Effect>, id: nat)
    requires id in Replay(out).cancelled
    ensures id in Replay(out + more).cancelled
    decreases |more|
  {
    if more == [] {
      assert out + more == out;
    } else {
      var last := |more| - 1;
      CancelledStays(out, more[..last], id);
      assert out + more == (out + more[..last]) + [more[last]];
      ReplaySnoc(out + more[..last], more[last]);
      CancelledGrows(Replay(out + more[..last]), more[last]);
      hide Replay, Apply;
    }
  }
}
