/** Every measurement comes to an end unless it is starved of samples (link/measurement.go). */
module Lifecycle {
  import opened Rounding
  import opened Tempos
  import opened Timelines
  import opened Wire
  import opened NodeIds
  import opened PeerStates
  import opened Measurement
  import opened Session
  import opened Bookkeeping
  import opened Timers

  /** Restarts and samples a measurement has left. */
  function Left(m: Measurer): int {
    (MAX_MEASURE_STARTS - m.started) + (MAX_MEASURE_POINTS + 1 - |m.points|)
  }

  /** Between two states a measurement that stays in flight is untouched or has strictly less left. */
  ghost predicate Advances(c: Core, r: Core, sid: NodeId)
    requires sid in c.measurements && sid in r.measurements
  {
    var m, n := c.measurements[sid], r.measurements[sid];
    n == m || (n.target == m.target && n.started >= m.started && m.points <= n.points && Left(n) < Left(m))
  }

  ghost predicate AllAdvance(c: Core, r: Core) {
    forall sid | sid in c.measurements && sid in r.measurements :: Advances(c, r, sid)
  }

  lemma FinishAdvances(c: Core, sid: NodeId, xform: GhostXForm, env: Env)
    requires Sound(c) && IsResult(xform) && sid in c.measurements
    ensures FinishMeasurement(c, sid, xform, env).measurements == c.measurements - {sid}
  {}

  /** Every measurement in flight is still in flight and untouched. */
  ghost predicate Extends(c: Core, r: Core) {
    forall sid | sid in c.measurements :: sid in r.measurements && r.measurements[sid] == c.measurements[sid]
  }

  lemma LaunchExtends(c: Core, sid: NodeId, env: Env)
    requires Sound(c)
    ensures Extends(c, LaunchMeasurement(c, sid, env))
  {}

  lemma SawPeerExtends(c: Core, id: NodeId, state: PeerState, env: Env, filtered: bool)
    requires Sound(c)
    ensures Extends(c, SawPeerState(c, id, state, env, filtered))
  {
    hide InRange, Usable, LaunchMeasurement, UpdateSessionTiming, SessionMembershipChanged, HandleStartStop, CurrentPeerState;
    var propagate := !filtered || TimelineChanged(EntryOf(c, id), state);
    var c1 := c.(peers := c.peers[id := NotedPeer(EntryOf(c, id), state, env, propagate)]);
    LaunchExtends(c1.(others := c1.others[state.sessionId := state.timeline]), state.sessionId, env);
    assert Extends(c1, SawSessionTimeline(c1, state.sessionId, state.timeline, env));
    hide SawSessionTimeline;
    var c2 := NoteTimeline(c, id, state, env, filtered);
    assert Extends(c, c2);
    assert SawPeerState(c, id, state, env, filtered).measurements == c2.measurements;
  }

  lemma PongAdvances(c: Core, sid: NodeId, pong: Result<Pong>, env: Env)
    requires Sound(c) && sid in c.measurements && WithinLimits(c.measurements)
    ensures var r := HandlePong(c, sid, pong, env);
      && AllAdvance(c, r)
      && (sid in r.measurements && pong.Ok? && Samples(pong.value, env.ping) != [] ==> Left(r.measurements[sid]) < Left(c.measurements[sid]))
  {}

  /** A watchdog that finds its measurement either restarts it, with strictly less left, or ends it. */
  lemma WatchdogAdvances(c: Core, sid: NodeId, env: Env)
    requires Sound(c) && WithinLimits(c.measurements)
    ensures var r := WatchdogFired(c, sid, env);
      && AllAdvance(c, r)
      && (sid in c.measurements && sid in r.measurements ==> Left(r.measurements[sid]) == Left(c.measurements[sid]) - 1)
  {
    hide FinishMeasurement, InRange, Usable;
    if sid in c.measurements {
      FinishAdvances(Emit(c, WatchdogRan(sid)), sid, ZERO_XFORM, env);
    }
  }

  /** Only its own pongs and watchdog touch a measurement. */
  lemma OtherEventsExtend(c: Core, e: Event, env: Env, filtered: bool)
    requires Sound(c) && !e.PongReceived? && !e.WatchdogDue?
    ensures Extends(c, Step(c, e, env, filtered))
  {
    hide InRange, Usable, SawPeerState, SessionMembershipChanged, ResetState, LaunchMeasurement, CurrentPeerState, PongMessage,
      CommitClientTimeline, ApplyPlayingChange, GhostXForm.HostToGhost, Members, Clean;
    if e.SetTempo? || e.ForceBeat? || e.RequestBeat? {
      hide Step;
      CommandCommits(c, e, env, filtered);
    } else if (e.Alive? || e.Response?) && e.announced.Ok? {
      SawPeerExtends(c, e.id, e.announced.value.(nodeId := e.id), env, filtered);
    } else if e.RemeasureDue? {
      LaunchExtends(Emit(c, RemeasureRan), c.sessionId, env);
    } else if e.SetPlaying? {
      PlayingExtends(c, e.playing, e.at, env);
    }
  }

  lemma PlayingExtends(c: Core, playing: bool, at: Micros, env: Env)
    requires Sound(c)
    ensures Extends(c, ApplyPlayingChange(c, playing, at, env))
  {
    hide ApplyPlayingChange, Clean, InRange, Usable;
    PlayingForm(c, playing, at, env);
  }

  /** Across any event, a measurement that stays in flight is untouched or has strictly less left. */
  lemma StepAdvances(c: Core, e: Event, env: Env, filtered: bool)
    requires Sound(c) && WithinLimits(c.measurements)
    ensures AllAdvance(c, Step(c, e, env, filtered))
  {
    hide InRange, Usable, Advances, Extends, HandlePong, WatchdogFired;
    match e
    case PongReceived(sid, pong) =>
      SameAdvance(c);
      if sid in c.measurements {
        PongAdvances(c, sid, pong, env);
      }
    case WatchdogDue(sid) => WatchdogAdvances(c, sid, env);
    case _ =>
      OtherEventsExtend(c, e, env, filtered);
      hide Step;
      ExtendingAdvances(c, Step(c, e, env, filtered));
  }

  lemma SameAdvance(c: Core)
    ensures AllAdvance(c, c)
  {}

  lemma ExtendingAdvances(c: Core, r: Core)
    requires Extends(c, r)
    ensures AllAdvance(c, r)
  {}

  // ----- How long a measurement can make progress -----

  /** The measurement of sid is in flight after every prefix of the run. */
  ghost predicate StaysInFlight(c: Core, sid: NodeId, occurrences: seq<Occurrence>, filtered: bool)
    requires Sound(c)
    decreases |occurrences|
  {
    && sid in Run(c, occurrences, filtered).measurements
    && (occurrences == [] || StaysInFlight(c, sid, occurrences[..|occurrences| - 1], filtered))
  }

  ghost predicate Moved(c: Core, r: Core, sid: NodeId) {
    sid in c.measurements && sid in r.measurements && c.measurements[sid] != r.measurements[sid]
  }

  /** How many events of the run changed the measurement: restarts by its watchdog and pongs that added samples. */
  ghost function Progress(c: Core, sid: NodeId, occurrences: seq<Occurrence>, filtered: bool): nat
    requires Sound(c)
    decreases |occurrences|
  {
    if occurrences == [] then 0
    else
      var before := occurrences[..|occurrences| - 1];
      Progress(c, sid, before, filtered)
      + if Moved(Run(c, before, filtered), Run(c, occurrences, filtered), sid) then 1 else 0
  }

  lemma LeftIsPositive(measurements: map<NodeId, Measurer>, sid: NodeId)
    requires WithinLimits(measurements) && sid in measurements
    ensures 1 <= Left(measurements[sid]) <= 106
  {}

  /** A measurement in flight makes progress at most 105 times before it ends, whatever else happens. */
  lemma {:induction false} ProgressIsBounded(c: Core, sid: NodeId, occurrences: seq<Occurrence>, filtered: bool)
    requires Sound(c) && Accounted(c) && PossibleRun(c, occurrences, filtered) && StaysInFlight(c, sid, occurrences, filtered)
    ensures sid in c.measurements
    ensures Progress(c, sid, occurrences, filtered) + Left(Run(c, occurrences, filtered).measurements[sid]) <= Left(c.measurements[sid])
    ensures Progress(c, sid, occurrences, filtered) <= 105
    decreases |occurrences|
  {
    hide InRange, Possible, Orderly, Replay, Flights, Step;
    RunAccounts(c, occurrences, filtered);
    if occurrences != [] {
      var last := |occurrences| - 1;
      var before := Run(c, occurrences[..last], filtered);
      ProgressIsBounded(c, sid, occurrences[..last], filtered);
      RunAccounts(c, occurrences[..last], filtered);
      StepAdvances(before, occurrences[last].event, occurrences[last].env, filtered);
      assert Advances(before, Run(c, occurrences, filtered), sid);
    }
    LeftIsPositive(c.measurements, sid);
    LeftIsPositive(Run(c, occurrences, filtered).measurements, sid);
  }

  // ----- One result for each measurement -----

  /** How often a measurement of the session was started. */
  function Starts(out: seq<Effect>, sid: NodeId): nat {
    if out == [] then 0
    else Starts(out[..|out| - 1], sid) + if out[|out| - 1] == Started(sid) then 1 else 0
  }

  /** How often a measurement of the session had an outcome. */
  function Outcomes(out: seq<Effect>, sid: NodeId): nat {
    if out == [] then 0
    else Outcomes(out[..|out| - 1], sid) + if out[|out| - 1].Ended? && out[|out| - 1].sid == sid then 1 else 0
  }

  lemma {:induction false} FlightsAreCounted(out: seq<Effect>, sid: NodeId)
    requires Flights(out).Some?
    ensures Starts(out, sid) == Outcomes(out, sid) + if sid in Flights(out).value then 1 else 0
    decreases |out|
  {
    if out != [] {
      FlightsAreCounted(out[..|out| - 1], sid);
    }
  }

  /** Every measurement started has had exactly one outcome, or none while it is in flight. */
  lemma EachStartHasOneOutcome(c: Core, sid: NodeId)
    requires Accounted(c)
    ensures Starts(c.out, sid) == Outcomes(c.out, sid) + if sid in c.measurements then 1 else 0
  {
    hide Replay, Orderly;
    FlightsAreCounted(c.out, sid);
  }

  /** A measurement that succeeded had 101 or 102 samples. */
  lemma {:induction false} SuccessTakesEnoughSamples(out: seq<Effect>, i: nat)
    requires Flights(out).Some? && i < |out| && out[i].Ended? && out[i].ok
    ensures out[i].samples == 101 || out[i].samples == 102
    decreases |out|
  {
    if i < |out| - 1 {
      assert out[..|out| - 1][i] == out[i];
      SuccessTakesEnoughSamples(out[..|out| - 1], i);
    }
  }
}
