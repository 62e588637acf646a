/** How the pongs of a run add up to a finished measurement (link/measurement.go:79-155). */
module Sampling {
  import opened Rounding
  import opened Tempos
  import opened Timelines
  import opened Wire
  import opened NodeIds
  import opened PeerStates
  import opened Measurement
  import opened Session
  import opened Timers
  import opened Lifecycle
  import Trace

  /** A pong of the session with all its times set, as PongEchoesPing decodes it. */
  predicate WellFormed(pong: Result<Pong>, sid: NodeId) {
    && pong.Ok? && pong.value.sessionId == sid && pong.value.ghostTime != 0
    && pong.value.hasPrevHost && pong.value.prevHost != 0
    && pong.value.hasPrevGhost == (pong.value.prevGhost != 0)
  }

  /** What a well-formed pong does to its measurement: it answers with a ping and adds its samples, or completes it. */
  lemma PongTakes(c: Core, sid: NodeId, pong: Result<Pong>, env: Env)
    requires Sound(c) && sid in c.measurements && WellFormed(pong, sid)
    ensures var r, m := HandlePong(c, sid, pong, env), c.measurements[sid];
      var points := m.points + Samples(pong.value, env.ping);
      var ping := PingSent(sid, m.target, env.ping, pong.value.ghostTime);
      && |points| == |m.points| + (if pong.value.prevGhost == 0 then 1 else 2)
      && (|points| <= 100 ==>
            r == c.(measurements := c.measurements[sid := m.(points := points)],
                    out := c.out + [ping] + [DisarmWatchdog(sid)] + [ArmWatchdog(sid)]))
      && (|points| > 100 ==>
            r == HandleMeasurementResult(
              c.(measurements := c.measurements - {sid}, out := c.out + [ping] + [DisarmWatchdog(sid)] + [Ended(sid, true, |points|)]),
              sid, GhostXForm(1.0, Llround(Median(points))), env))
  {
    Link(0, 0, 0).SamplesOfReply(pong.value, env.ping);
    hide Samples, Median, Llround, HandleMeasurementResult, InRange, Usable;
    var m := c.measurements[sid];
    assert c.measurements[sid := m.(points := m.points + Samples(pong.value, env.ping))] - {sid} == c.measurements - {sid};
  }

  // ----- Over a run -----

  /** The pong is taken: the node is enabled and measures the session. */
  ghost predicate Takes(c: Core, e: Event, sid: NodeId) {
    e.PongReceived? && e.sid == sid && c.enabled && sid in c.measurements
  }

  /** Every pong the run takes for the session is well-formed, and only the first answers a ping without a ghost time. */
  ghost predicate TakesWell(c: Core, occurrences: seq<Occurrence>, sid: NodeId, filtered: bool)
    requires Sound(c)
    decreases |occurrences|
  {
    occurrences == [] ||
    (var before, e := Run(c, occurrences[..|occurrences| - 1], filtered), occurrences[|occurrences| - 1].event;
     && TakesWell(c, occurrences[..|occurrences| - 1], sid, filtered)
     && (Takes(before, e, sid) ==>
           WellFormed(e.pong, sid) && (e.pong.value.prevGhost == 0 <==> before.measurements[sid].points == [])))
  }

  /** How many pongs the run takes for the session. */
  ghost function Taken(c: Core, occurrences: seq<Occurrence>, sid: NodeId, filtered: bool): nat
    requires Sound(c)
    decreases |occurrences|
  {
    if occurrences == [] then 0
    else
      var before, e := Run(c, occurrences[..|occurrences| - 1], filtered), occurrences[|occurrences| - 1].event;
      Taken(c, occurrences[..|occurrences| - 1], sid, filtered) + if Takes(before, e, sid) then 1 else 0
  }

  /** Anything but a pong leaves the samples of a measurement that stays in flight alone. */
  lemma OthersAddNothing(c: Core, e: Event, env: Env, filtered: bool, sid: NodeId)
    requires Sound(c) && sid in c.measurements && sid in Step(c, e, env, filtered).measurements
    requires !(e.PongReceived? && e.sid == sid)
    ensures Step(c, e, env, filtered).measurements[sid].points == c.measurements[sid].points
  {
    hide Step, InRange, Usable, Median, Samples, Llround;
    if e.PongReceived? {
      OtherPongAddsNothing(c, e, env, filtered, sid);
    } else if e.WatchdogDue? {
      WatchdogAddsNothing(c, e, env, filtered, sid);
    } else {
      OtherEventsExtend(c, e, env, filtered);
    }
  }

  lemma OtherPongAddsNothing(c: Core, e: Event, env: Env, filtered: bool, sid: NodeId)
    requires Sound(c) && sid in c.measurements && e.PongReceived? && e.sid != sid
    ensures var r := Step(c, e, env, filtered); sid in r.measurements && r.measurements[sid] == c.measurements[sid]
  {
    hide FinishMeasurement, InRange, Usable, Median, Samples, Llround;
    if e.sid in c.measurements {
      FinishAdvances(c, e.sid, ZERO_XFORM, env);
      if e.pong.Ok? {
        var m := c.measurements[e.sid];
        var points := m.points + Samples(e.pong.value, env.ping);
        var c2 := Emit(c, PingSent(e.sid, m.target, env.ping, e.pong.value.ghostTime)).(
          measurements := c.measurements[e.sid := m.(points := points)]);
        FinishAdvances(c2, e.sid, GhostXForm(1.0, Llround(Median(points))), env);
      }
    }
  }

  lemma WatchdogAddsNothing(c: Core, e: Event, env: Env, filtered: bool, sid: NodeId)
    requires Sound(c) && sid in c.measurements && e.WatchdogDue?
    ensures var r := Step(c, e, env, filtered); sid in r.measurements ==> r.measurements[sid].points == c.measurements[sid].points
  {
    hide Step, FinishMeasurement, InRange, Usable;
    StepIs(c, e, env, filtered);
    if e.sid in c.measurements {
      FinishAdvances(Emit(c, WatchdogRan(e.sid)), e.sid, ZERO_XFORM, env);
    }
  }

  /** While a measurement is in flight, the first pong has added one sample and every further one two, whatever else happened. */
  lemma {:induction false} PongsAddUp(c: Core, occurrences: seq<Occurrence>, sid: NodeId, filtered: bool)
    requires Sound(c) && StaysInFlight(c, sid, occurrences, filtered) && TakesWell(c, occurrences, sid, filtered)
    requires sid in c.measurements && c.measurements[sid].points == []
    ensures var k := Taken(c, occurrences, sid, filtered);
      |Run(c, occurrences, filtered).measurements[sid].points| == if k == 0 then 0 else 2 * k - 1
    decreases |occurrences|
  {
    hide HandlePong, Samples, WellFormed, InRange, Usable;
    if occurrences != [] {
      var last := |occurrences| - 1;
      var before, e, env := Run(c, occurrences[..last], filtered), occurrences[last].event, occurrences[last].env;
      PongsAddUp(c, occurrences[..last], sid, filtered);
      if Takes(before, e, sid) {
        PongTakes(before, sid, e.pong, env);
        PongStaysShort(before, sid, e.pong, env);
      } else if !(e.PongReceived? && e.sid == sid) {
        OthersAddNothing(before, e, env, filtered, sid);
        hide Step;
      }
    }
  }

  /** A measurement still in flight after a pong has at most 100 samples. */
  lemma PongStaysShort(c: Core, sid: NodeId, pong: Result<Pong>, env: Env)
    requires Sound(c) && sid in c.measurements && WellFormed(pong, sid) && sid in HandlePong(c, sid, pong, env).measurements
    ensures |c.measurements[sid].points + Samples(pong.value, env.ping)| <= 100
  {
    hide Samples, Median, Llround, HandleMeasurementResult, InRange, Usable;
  }

  /**
   Fifty-one well-formed pongs complete a measurement: with fifty taken since
   it was started the next one ends it successfully with 101 samples, whatever
   else happened in between.
   */
  lemma FiftyOnePongsSucceed(c: Core, occurrences: seq<Occurrence>, sid: NodeId, filtered: bool)
    requires Sound(c) && sid in c.measurements && c.measurements[sid].points == []
    requires occurrences != [] && TakesWell(c, occurrences, sid, filtered) && Taken(c, occurrences, sid, filtered) == 51
    requires StaysInFlight(c, sid, occurrences[..|occurrences| - 1], filtered)
    requires Takes(Run(c, occurrences[..|occurrences| - 1], filtered), occurrences[|occurrences| - 1].event, sid)
    ensures var before, r := Run(c, occurrences[..|occurrences| - 1], filtered), Run(c, occurrences, filtered);
      && sid !in r.measurements
      && before.out <= r.out && Ended(sid, true, 101) in r.out[|before.out|..]
  {
    hide Step, HandlePong, Samples, WellFormed, InRange, Usable;
    var last := |occurrences| - 1;
    PongsAddUp(c, occurrences[..last], sid, filtered);
    var before, e, env := Run(c, occurrences[..last], filtered), occurrences[last].event, occurrences[last].env;
    StepIs(before, e, env, filtered);
    PongTakes(before, sid, e.pong, env);
    IsOk(e.pong, sid);
    assert |before.measurements[sid].points| == 99;
    Completed(before, sid, e.pong, env);
  }

  lemma IsOk(pong: Result<Pong>, sid: NodeId)
    requires WellFormed(pong, sid)
    ensures pong.Ok?
  {}

  lemma Completed(c: Core, sid: NodeId, pong: Result<Pong>, env: Env)
    requires Sound(c) && sid in c.measurements && WellFormed(pong, sid) && |c.measurements[sid].points + Samples(pong.value, env.ping)| > 100
    ensures var r := HandlePong(c, sid, pong, env);
      && sid !in r.measurements && c.out <= r.out
      && Ended(sid, true, |c.measurements[sid].points + Samples(pong.value, env.ping)|) in r.out[|c.out|..]
  {
    hide HandlePong, HandleMeasurementResult, Samples, Median, Llround, InRange, Usable;
    PongTakes(c, sid, pong, env);
    var points := c.measurements[sid].points + Samples(pong.value, env.ping);
    var e := Ended(sid, true, |points|);
    var d := c.(measurements := c.measurements - {sid},
                out := c.out + [PingSent(sid, c.measurements[sid].target, env.ping, pong.value.ghostTime)] + [DisarmWatchdog(sid)] + [e]);
    Trace.SameAppends(d, d, sid);
    Trace.ResultAppends(d, d, sid, GhostXForm(1.0, Llround(Median(points))), env, sid);
    var r := HandlePong(c, sid, pong, env);
    assert d.out <= r.out && r.out[|c.out| + 2] == d.out[|c.out| + 2] == e;
    assert r.out[|c.out|..][2] == e;
  }

  ghost predicate OnlyPongs(occurrences: seq<Occurrence>, sid: NodeId) {
    forall o | o in occurrences :: o.event.PongReceived? && o.event.sid == sid
  }

  /** Up to fifty well-formed pongs in a row change nothing but the measurement they belong to. */
  lemma {:induction false} PongsInARow(c: Core, occurrences: seq<Occurrence>, sid: NodeId, filtered: bool)
    requires Sound(c) && c.enabled && sid in c.measurements && c.measurements[sid].points == []
    requires OnlyPongs(occurrences, sid) && TakesWell(c, occurrences, sid, filtered) && |occurrences| <= 50
    ensures var r := Run(c, occurrences, filtered);
      && sid in r.measurements && r == c.(measurements := r.measurements, out := r.out)
      && |r.measurements[sid].points| == (if occurrences == [] then 0 else 2 * |occurrences| - 1)
    ensures Taken(c, occurrences, sid, filtered) == |occurrences| && StaysInFlight(c, sid, occurrences, filtered)
    decreases |occurrences|
  {
    hide Step, HandlePong, Samples, WellFormed, InRange, Usable;
    if occurrences != [] {
      var last := |occurrences| - 1;
      var before, e, env := Run(c, occurrences[..last], filtered), occurrences[last].event, occurrences[last].env;
      assert occurrences[last] in occurrences && forall o | o in occurrences[..last] :: o in occurrences;
      PongsInARow(c, occurrences[..last], sid, filtered);
      StepIs(before, e, env, filtered);
      PongTakes(before, sid, e.pong, env);
    }
  }
}
