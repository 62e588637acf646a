/**
 What a disabled node still sends. Disabling is documented to stop all network
 activity (link/link.go:264-266); the watchdogs of measurements in flight go
 on, each for at most five more pings.
 */
module Silence {
  import opened Rounding
  import opened BeatGrid
  import opened Tempos
  import opened Timelines
  import opened Wire
  import opened NodeIds
  import opened PeerStates
  import opened Measurement
  import opened Session
  import opened Bookkeeping
  import opened Timers

  /** Effects that put a datagram on the network, now or at the end of a broadcast gap. */
  predicate Sends(e: Effect) {
    e.Announce? || e.Respond? || e.Leave? || e.PingSent? || e.PongSent? || (e.BroadcastRan? && e.enabled)
  }

  function Sent(out: seq<Effect>): seq<Effect> {
    if out == [] then []
    else Sent(out[..|out| - 1]) + if Sends(out[|out| - 1]) then [out[|out| - 1]] else []
  }

  lemma SentSnoc(out: seq<Effect>, e: Effect)
    ensures Sent(out + [e]) == Sent(out) + if Sends(e) then [e] else []
  {}

  /** Nothing was sent, and the node is as disabled as it was. */
  ghost predicate Mute(c: Core, r: Core) {
    Sent(r.out) == Sent(c.out) && r.enabled == c.enabled
  }

  lemma EmitMute(c: Core, e: Effect)
    requires !Sends(e)
    ensures Mute(c, Emit(c, e))
  {}

  /** The outcome of a failed measurement, for a node that knows no other session. */
  lemma FailureIsMute(c: Core, sid: NodeId, env: Env)
    requires Sound(c) && c.others == map[]
    ensures var r := HandleMeasurementResult(c, sid, ZERO_XFORM, env); Mute(c, r) && r.measurements == c.measurements
  {
    hide InRange, Usable, Sent;
    EmitMute(c, ArmRemeasure);
  }

  lemma FinishIsMute(c: Core, sid: NodeId, env: Env)
    requires Sound(c) && c.others == map[] && sid in c.measurements
    ensures var r := FinishMeasurement(c, sid, ZERO_XFORM, env); Mute(c, r) && r.measurements == c.measurements - {sid}
  {
    hide InRange, Usable, Sent, HandleMeasurementResult;
    EmitMute(c, DisarmWatchdog(sid));
    var c1 := Emit(c, DisarmWatchdog(sid)).(measurements := c.measurements - {sid});
    var e := Ended(sid, false, |c.measurements[sid].points|);
    EmitMute(c1, e);
    FailureIsMute(Emit(c1, e), sid, env);
  }

  /** The ping a watchdog of a disabled node sends, if it sends one. */
  function LastWords(c: Core, e: Event, env: Env): seq<Effect> {
    if e.WatchdogDue? && e.sid in c.measurements && c.measurements[e.sid].started < MAX_MEASURE_STARTS
    then [PingSent(e.sid, c.measurements[e.sid].target, env.ping, 0)]
    else []
  }

  lemma WatchdogSays(c: Core, sid: NodeId, env: Env)
    requires Sound(c) && c.others == map[]
    ensures var r := WatchdogFired(c, sid, env);
      && r.enabled == c.enabled
      && Sent(r.out) == Sent(c.out) + LastWords(c, WatchdogDue(sid), env)
      && r.measurements ==
        if sid !in c.measurements then c.measurements
        else if c.measurements[sid].started < MAX_MEASURE_STARTS
        then c.measurements[sid := c.measurements[sid].(started := c.measurements[sid].started + 1)]
        else c.measurements - {sid}
  {
    hide InRange, Usable, FinishMeasurement, Sent;
    EmitMute(c, WatchdogRan(sid));
    var c1 := Emit(c, WatchdogRan(sid));
    if sid in c.measurements {
      var m := c.measurements[sid];
      if m.started < MAX_MEASURE_STARTS {
        var ping := PingSent(sid, m.target, env.ping, 0);
        SentSnoc(c1.out, ping);
        SentSnoc(c1.out + [ping], ArmWatchdog(sid));
      } else {
        FinishIsMute(c1, sid, env);
      }
    }
  }

  lemma RemeasureIsMute(c: Core, env: Env)
    requires Sound(c) && c.peers == map[]
    ensures var r := RemeasureFired(c, env); Mute(c, r) && r.measurements == c.measurements
  {
    hide InRange, Usable, Sent, HandleMeasurementResult;
    EmitMute(c, RemeasureRan);
    var c1 := Emit(c, RemeasureRan);
    assert Members(c1.peers, c1.sessionId) == {};
    EmitMute(LaunchMeasurement(c1, c1.sessionId, env), ArmRemeasure);
  }

  lemma CommitIsMute(c: Core, client: Timeline, at: Micros, env: Env)
    requires Sound(c) && !c.enabled && InRange(client.bpm)
    ensures var r := CommitClientTimeline(c.(client := client), at, env); Mute(c, r) && r.measurements == c.measurements
  {}

  lemma CommandIsMute(c: Core, e: Event, env: Env, filtered: bool)
    requires Sound(c) && !c.enabled && (e.SetTempo? || e.ForceBeat? || e.RequestBeat?)
    ensures var r := Step(c, e, env, filtered); Mute(c, r) && r.measurements == c.measurements
  {
    hide InRange, Usable, CommitClientTimeline, RequestedTime, ForceBeatWithRetry, WithTempo, Mute;
    match e
    case SetTempo(bpm, at) =>
      TempoChangeKeepsBeat(c.client, bpm, at);
      CommitIsMute(c, WithTempo(c.client, bpm, at), at, env);
    case ForceBeat(beat, at, quantum) =>
      ForcedBeatWithRetry(c.client, beat, at, quantum);
      CommitIsMute(c, ForceBeatWithRetry(c.client, beat, at, quantum), at, env);
    case RequestBeat(beat, at, quantum) =>
      var t := RequestedTime(c, beat, at, quantum);
      ForcedBeatWithRetry(c.client, beat, t, quantum);
      CommitIsMute(c, ForceBeatWithRetry(c.client, beat, t, quantum), t, env);
  }

  lemma OtherEventIsMute(c: Core, e: Event, env: Env, filtered: bool)
    requires Sound(c) && !c.enabled && c.peers == map[] && e != Enable(true)
    requires !(e.SetTempo? || e.ForceBeat? || e.RequestBeat? || e.RemeasureDue? || e.WatchdogDue?)
    ensures var r := Step(c, e, env, filtered); Mute(c, r) && r.measurements == c.measurements
  {
    hide InRange, Usable, Sent, SawPeerState, SessionMembershipChanged, HandlePong, PongMessage, CurrentPeerState,
      GhostXForm.HostToGhost, Timeline.ToBeats;
    if e.BroadcastDue? {
      EmitMute(c, BroadcastRan(env.wall, c.enabled, CurrentPeerState(c)));
    } else if e.Elapse? {
      EmitMute(c, TimerElapsed(e.timer));
    } else if e.StaleDue? {
      EmitMute(c, StaleTimer);
    }
  }

  /** A disabled node sends nothing but the pings of watchdogs whose measurements were in flight, and starts no measurement. */
  lemma DisabledStep(c: Core, e: Event, env: Env, filtered: bool)
    requires Sound(c) && Kept(c) && !c.enabled && e != Enable(true)
    ensures var r := Step(c, e, env, filtered);
      && !r.enabled
      && Sent(r.out) == Sent(c.out) + LastWords(c, e, env)
      && (!e.WatchdogDue? ==> r.measurements == c.measurements)
  {
    hide Members, Held, Clean, InRange, Usable, Sent, Step, WatchdogFired, RemeasureFired;
    StepIs(c, e, env, filtered);
    if e.WatchdogDue? {
      WatchdogSays(c, e.sid, env);
    } else if e.RemeasureDue? {
      RemeasureIsMute(c, env);
    } else if e.SetTempo? || e.ForceBeat? || e.RequestBeat? {
      CommandIsMute(c, e, env, filtered);
    } else {
      OtherEventIsMute(c, e, env, filtered);
    }
  }

  // ----- How much a disabled node still sends -----

  /** The restarts the given measurements have left. */
  ghost function Budget(ids: set<NodeId>, ms: map<NodeId, Measurer>): int
    requires ids <= ms.Keys
  {
    if ids == {} then 0
    else
      var x :| x in ids;
      MAX_MEASURE_STARTS - ms[x].started + Budget(ids - {x}, ms)
  }

  lemma {:induction false} BudgetOf(ids: set<NodeId>, ms: map<NodeId, Measurer>, y: NodeId)
    requires ids <= ms.Keys && y in ids
    ensures Budget(ids, ms) == MAX_MEASURE_STARTS - ms[y].started + Budget(ids - {y}, ms)
  {
    var x :| x in ids && Budget(ids, ms) == MAX_MEASURE_STARTS - ms[x].started + Budget(ids - {x}, ms);
    if x != y {
      BudgetOf(ids - {x}, ms, y);
      BudgetOf(ids - {y}, ms, x);
      assert ids - {x} - {y} == ids - {y} - {x};
    }
  }

  lemma {:induction false} SameBudget(ids: set<NodeId>, ms: map<NodeId, Measurer>, ns: map<NodeId, Measurer>)
    requires ids <= ms.Keys && ids <= ns.Keys && forall x | x in ids :: ms[x] == ns[x]
    ensures Budget(ids, ms) == Budget(ids, ns)
  {
    if ids != {} {
      var x :| x in ids;
      BudgetOf(ids, ms, x);
      BudgetOf(ids, ns, x);
      SameBudget(ids - {x}, ms, ns);
    }
  }

  lemma {:induction false} BudgetBounds(ids: set<NodeId>, ms: map<NodeId, Measurer>)
    requires ids <= ms.Keys && WithinLimits(ms)
    ensures 0 <= Budget(ids, ms) <= MAX_MEASURE_STARTS * |ids|
  {
    if ids != {} {
      var x :| x in ids;
      BudgetOf(ids, ms, x);
      BudgetBounds(ids - {x}, ms);
    }
  }

  /** Every ping of a watchdog is paid for by a restart its measurement had left. */
  lemma WatchdogPays(c: Core, sid: NodeId, env: Env)
    requires Sound(c) && c.others == map[] && WithinLimits(c.measurements)
    ensures var r := WatchdogFired(c, sid, env);
      |LastWords(c, WatchdogDue(sid), env)| + Budget(r.measurements.Keys, r.measurements) <= Budget(c.measurements.Keys, c.measurements)
  {
    hide InRange, Usable;
    WatchdogSays(c, sid, env);
    hide WatchdogFired, Sent;
    var r := WatchdogFired(c, sid, env);
    if sid in c.measurements {
      var rest := c.measurements.Keys - {sid};
      BudgetOf(c.measurements.Keys, c.measurements, sid);
      SameBudget(rest, c.measurements, r.measurements);
      if c.measurements[sid].started < MAX_MEASURE_STARTS {
        BudgetOf(r.measurements.Keys, r.measurements, sid);
        assert r.measurements.Keys - {sid} == rest;
      } else {
        assert r.measurements.Keys == rest;
      }
    }
  }

  ghost predicate StaysDisabled(occurrences: seq<Occurrence>) {
    forall o | o in occurrences :: o.event != Enable(true)
  }

  /**
   For as long as it stays disabled a node sends at most five pings for each
   measurement that was in flight, and nothing else.
   */
  lemma {:induction false} DisabledFallsSilent(c: Core, occurrences: seq<Occurrence>, filtered: bool)
    requires Sound(c) && Kept(c) && Accounted(c) && !c.enabled
    requires PossibleRun(c, occurrences, filtered) && StaysDisabled(occurrences)
    ensures var r := Run(c, occurrences, filtered);
      && !r.enabled
      && |Sent(r.out)| + Budget(r.measurements.Keys, r.measurements) <= |Sent(c.out)| + Budget(c.measurements.Keys, c.measurements)
      && |Sent(r.out)| <= |Sent(c.out)| + MAX_MEASURE_STARTS * |c.measurements|
    decreases |occurrences|
  {
    hide InRange, Usable, Kept, Step, Possible, Sent, Replay, Flights, Orderly;
    RunAccounts(c, occurrences, filtered);
    BudgetBounds(c.measurements.Keys, c.measurements);
    assert |c.measurements.Keys| == |c.measurements|;
    if occurrences != [] {
      var last := |occurrences| - 1;
      var before, o := Run(c, occurrences[..last], filtered), occurrences[last];
      assert o in occurrences;
      DisabledFallsSilent(c, occurrences[..last], filtered);
      RunKeeps(c, occurrences[..last], filtered);
      RunAccounts(c, occurrences[..last], filtered);
      DisabledStep(before, o.event, o.env, filtered);
      DisabledPays(before, o.event, o.env, filtered);
    }
    var r := Run(c, occurrences, filtered);
    BudgetBounds(r.measurements.Keys, r.measurements);
  }

  lemma DisabledPays(c: Core, e: Event, env: Env, filtered: bool)
    requires Sound(c) && Kept(c) && !c.enabled && e != Enable(true) && WithinLimits(c.measurements)
    ensures var r := Step(c, e, env, filtered);
      |LastWords(c, e, env)| + Budget(r.measurements.Keys, r.measurements) <= Budget(c.measurements.Keys, c.measurements)
  {
    hide Members, Held, Clean, InRange, Usable, Sent, Step, WatchdogFired, WithinLimits;
    StepIs(c, e, env, filtered);
    DisabledStep(c, e, env, filtered);
    if e.WatchdogDue? {
      WatchdogPays(c, e.sid, env);
    }
  }

  /** The documented silence does not hold: a watchdog of a disabled node pings. */
  lemma DisabledNodePings(c: Core, sid: NodeId, env: Env)
    requires Sound(c) && c.others == map[] && !c.enabled && sid in c.measurements && c.measurements[sid].started < MAX_MEASURE_STARTS
    ensures var r := Step(c, WatchdogDue(sid), env, true);
      !r.enabled && Sent(r.out) == Sent(c.out) + [PingSent(sid, c.measurements[sid].target, env.ping, 0)]
  {
    WatchdogSays(c, sid, env);
    hide WatchdogFired, Sent, InRange, Usable;
  }
}
