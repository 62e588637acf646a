/**
 The clock transforms a run of the engine installs (link/measurement.go:79-155,
 link/engine.go:525-567): how far they are from the peer's true offset when the
 pongs it takes are in-time replies to its own pings.
 */
module Accuracy {
  import opened Rounding
  import opened Tempos
  import opened Timelines
  import opened Wire
  import opened NodeIds
  import opened PeerStates
  import opened Measurement
  import opened Session
  import opened Bookkeeping
  import opened Trace

  /** The samples of the session's measurement are accurate, and every ping that answered a pong did so in time. */
  ghost predicate Timely(c: Core, sid: NodeId, link: Link) {
    && (sid in c.measurements ==> forall p | p in c.measurements[sid].points :: link.Accurate(p))
    && (forall e | e in c.out && !Bland(e, sid) :: link.InTime(e.host - (e.prevGhost - link.offset)))
  }

  /** The pong, received now, replies to a ping sent for the session, and both took a delay the link allows. */
  ghost predicate RepliesInTime(c: Core, sid: NodeId, link: Link, pong: Pong, now: Micros) {
    && pong.hasPrevHost && pong.hasPrevGhost == (pong.prevGhost != 0)
    && (exists e :: e in c.out && e.PingSent? && e.sid == sid && e.host == pong.prevHost && e.prevGhost == pong.prevGhost)
    && link.InTime(pong.ghostTime - link.offset - pong.prevHost)
    && link.InTime(now - (pong.ghostTime - link.offset))
  }

  lemma AppendingStaysTimely(c: Core, r: Core, sid: NodeId, link: Link)
    requires Timely(c, sid, link) && Appends(c, r, sid)
    ensures Timely(r, sid, link)
  {
    forall e | e in r.out && !Bland(e, sid) ensures link.InTime(e.host - (e.prevGhost - link.offset)) {
      var k :| 0 <= k < |r.out| && r.out[k] == e;
      assert k < |c.out| && c.out[k] == e;
    }
  }

  /** The state after a pong's ping and samples, before the measurement ends or goes on. */
  function Sampled(c: Core, sid: NodeId, pong: Pong, now: Micros): Core
    requires sid in c.measurements
  {
    var m := c.measurements[sid];
    Emit(c, PingSent(sid, m.target, now, pong.ghostTime)).(
      measurements := c.measurements[sid := m.(points := m.points + Samples(pong, now))])
  }

  lemma SampledStaysTimely(c: Core, sid: NodeId, link: Link, pong: Pong, now: Micros)
    requires sid in c.measurements && Timely(c, sid, link) && RepliesInTime(c, sid, link, pong, now)
    ensures Timely(Sampled(c, sid, pong, now), sid, link)
  {
    AnsweredPing(c, sid, link, pong, now);
    hide RepliesInTime, Samples, Link.Accurate, Link.InTime, Bland;
    link.SamplesAreAccurate(pong, pong.prevHost, now);
    var d := Sampled(c, sid, pong, now);
    var points := c.measurements[sid].points;
    assert d.measurements[sid].points == points + Samples(pong, now);
    assert forall p | p in points + Samples(pong, now) :: p in points || p in Samples(pong, now);
    assert forall e | e in d.out :: e in c.out || e == PingSent(sid, c.measurements[sid].target, now, pong.ghostTime);
  }

  /** What an in-time reply says of the ping it answers and of the time it took. */
  lemma AnsweredPing(c: Core, sid: NodeId, link: Link, pong: Pong, now: Micros)
    requires Timely(c, sid, link) && RepliesInTime(c, sid, link, pong, now)
    ensures pong.hasPrevHost && pong.hasPrevGhost == (pong.prevGhost != 0)
    ensures link.InTime(pong.ghostTime - link.offset - pong.prevHost) && link.InTime(now - (pong.ghostTime - link.offset))
    ensures pong.prevGhost != 0 ==> link.InTime(pong.prevHost - (pong.prevGhost - link.offset))
  {
    hide Link.InTime, Link.Accurate;
    var ping :| ping in c.out && ping.PingSent? && ping.sid == sid && ping.host == pong.prevHost && ping.prevGhost == pong.prevGhost;
    if pong.prevGhost != 0 {
      assert !Bland(ping, sid);
    }
  }

  /** A pong whose state after sampling is timely leaves the measurement timely, whether it ends or goes on. */
  lemma PongStaysTimely(c: Core, sid: NodeId, link: Link, pong: Result<Pong>, env: Env)
    requires Sound(c) && sid in c.measurements && Timely(c, sid, link)
    requires pong.Ok? ==> RepliesInTime(c, sid, link, pong.value, env.ping)
    ensures Timely(HandlePong(c, sid, pong, env), sid, link)
  {
    hide Timely, RepliesInTime, Appends, FinishMeasurement, Samples, Median, Llround, InRange, Usable;
    SameAppends(c, c, sid);
    if pong.Err? || pong.value.sessionId != sid {
      FinishAppends(c, c, sid, ZERO_XFORM, env, sid);
      AppendingStaysTimely(c, FinishMeasurement(c, sid, ZERO_XFORM, env), sid, link);
    } else {
      var d := Sampled(c, sid, pong.value, env.ping);
      SampledStaysTimely(c, sid, link, pong.value, env.ping);
      SameAppends(d, d, sid);
      var r := HandlePong(c, sid, pong, env);
      if |d.measurements[sid].points| > MAX_MEASURE_POINTS {
        FinishAppends(d, d, sid, GhostXForm(1.0, Llround(Median(d.measurements[sid].points))), env, sid);
      } else {
        EmitThen(d, d, DisarmWatchdog(sid), Emit(d, DisarmWatchdog(sid)), sid);
        EmitThen(d, Emit(d, DisarmWatchdog(sid)), ArmWatchdog(sid), r, sid);
      }
      AppendingStaysTimely(d, r, sid, link);
    }
  }

  // ----- What is installed -----

  lemma ResetInstalls(c: Core, env: Env)
    requires Sound(c)
    ensures SessionMembershipChanged(c, env).xform == c.xform || SessionMembershipChanged(c, env).nodeId == env.newId
    ensures SessionMembershipChanged(c, env).sessionId == c.sessionId || SessionMembershipChanged(c, env).nodeId == env.newId
  {
    hide ResetState, Members, InRange, Usable;
    ResetKeeps(c.(peerNbr := 0), env);
  }

  /** The outcome of a measurement installs its transform for its own session, or nothing, or the node founds a session. */
  lemma ResultInstalls(c: Core, sid: NodeId, xform: GhostXForm, env: Env)
    requires Sound(c) && IsResult(xform)
    ensures var r := HandleMeasurementResult(c, sid, xform, env);
      r.xform == c.xform || (xform != ZERO_XFORM && r.xform == xform && r.sessionId == sid) || r.nodeId == env.newId
  {
    hide UpdateSessionTiming, SessionMembershipChanged, CurrentPeerState, Wins, InRange, Usable;
    if sid == c.sessionId && xform != ZERO_XFORM {
      TimingKeeps(c, c.timeline, xform, env.update);
    } else if sid != c.sessionId && sid in c.others && xform != ZERO_XFORM {
      var rest := c.others - {sid};
      var c1 := c.(others := if c.sessionId in rest then rest else rest[c.sessionId := c.timeline], sessionId := sid, startStop := NO_START_STOP);
      TimingKeeps(c1, c.others[sid], xform, env.update);
      ResetInstalls(SwitchSession(c, sid, xform, env), env);
    }
  }

  lemma FinishInstalls(c: Core, sid: NodeId, xform: GhostXForm, env: Env)
    requires Sound(c) && IsResult(xform) && sid in c.measurements
    ensures var r := FinishMeasurement(c, sid, xform, env);
      r.xform == c.xform || (xform != ZERO_XFORM && r.xform == xform && r.sessionId == sid) || r.nodeId == env.newId
  {
    hide HandleMeasurementResult, InRange, Usable;
    var c1 := Emit(c, DisarmWatchdog(sid)).(measurements := c.measurements - {sid});
    ResultInstalls(Emit(c1, Ended(sid, xform != ZERO_XFORM, |c.measurements[sid].points|)), sid, xform, env);
  }

  /** A transform within half the spread of the delays plus one half of the link's offset. */
  predicate IsAccurate(xform: GhostXForm, link: Link) {
    xform.slope == 1.0 && 2 * Abs(xform.intercept - link.offset) <= link.dmax - link.dmin + 1
  }

  /** What a pong of the measurement installs is accurate, and belongs to the measured session. */
  lemma PongInstallsAccurately(c: Core, sid: NodeId, link: Link, pong: Result<Pong>, env: Env)
    requires Sound(c) && sid in c.measurements && Timely(c, sid, link)
    requires pong.Ok? ==> RepliesInTime(c, sid, link, pong.value, env.ping)
    ensures var r := HandlePong(c, sid, pong, env);
      r.xform == c.xform || (IsAccurate(r.xform, link) && r.sessionId == sid) || r.nodeId == env.newId
  {
    hide RepliesInTime, FinishMeasurement, Samples, Median, Llround, Link.Accurate, InRange, Usable;
    if pong.Err? || pong.value.sessionId != sid {
      FinishInstalls(c, sid, ZERO_XFORM, env);
    } else {
      var d := Sampled(c, sid, pong.value, env.ping);
      SampledStaysTimely(c, sid, link, pong.value, env.ping);
      var points := d.measurements[sid].points;
      if |points| > MAX_MEASURE_POINTS {
        link.MedianIsAccurate(points);
        FinishInstalls(d, sid, GhostXForm(1.0, Llround(Median(points))), env);
      }
    }
  }

  // ----- Over a run -----

  /** Every pong the engine takes for the session's measurement during the run replies in time to one of its pings. */
  ghost predicate RunRepliesInTime(c: Core, occurrences: seq<Occurrence>, sid: NodeId, link: Link, filtered: bool)
    requires Sound(c)
    decreases |occurrences|
  {
    occurrences == [] ||
    (var last := |occurrences| - 1;
     var before, e, env := Run(c, occurrences[..last], filtered), occurrences[last].event, occurrences[last].env;
     && RunRepliesInTime(c, occurrences[..last], sid, link, filtered)
     && (e.PongReceived? && e.sid == sid && e.pong.Ok? && before.enabled && sid in before.measurements
         ==> RepliesInTime(before, sid, link, e.pong.value, env.ping)))
  }

  lemma {:induction false} RunStaysTimely(c: Core, occurrences: seq<Occurrence>, sid: NodeId, link: Link, filtered: bool)
    requires Sound(c) && Timely(c, sid, link) && RunRepliesInTime(c, occurrences, sid, link, filtered)
    ensures Timely(Run(c, occurrences, filtered), sid, link)
    decreases |occurrences|
  {
    hide Timely, RepliesInTime, Appends, HandlePong, InRange, Usable;
    if occurrences != [] {
      var last := |occurrences| - 1;
      var before, e, env := Run(c, occurrences[..last], filtered), occurrences[last].event, occurrences[last].env;
      RunStaysTimely(c, occurrences[..last], sid, link, filtered);
      if e.PongReceived? && e.sid == sid {
        if before.enabled && sid in before.measurements {
          PongStaysTimely(before, sid, link, e.pong, env);
        }
      } else {
        hide Step;
        StepAppends(before, e, env, filtered, sid);
        AppendingStaysTimely(before, Run(c, occurrences, filtered), sid, link);
      }
    }
  }

  /**
   In any run whose pongs for a session reply in time, every transform such a
   pong installs is within half the spread of the delays plus one half of the
   true offset, whatever else happens, unless the node founds a session.
   */
  lemma InstalledTransformIsAccurate(c: Core, occurrences: seq<Occurrence>, sid: NodeId, link: Link, filtered: bool)
    requires Sound(c) && Timely(c, sid, link) && RunRepliesInTime(c, occurrences, sid, link, filtered)
    requires occurrences != [] && occurrences[|occurrences| - 1].event.PongReceived? && occurrences[|occurrences| - 1].event.sid == sid
    ensures var before, r := Run(c, occurrences[..|occurrences| - 1], filtered), Run(c, occurrences, filtered);
      || r.xform == before.xform
      || (IsAccurate(r.xform, link) && r.sessionId == sid)
      || r.nodeId == occurrences[|occurrences| - 1].env.newId
  {
    hide Timely, RepliesInTime, HandlePong, IsAccurate, InRange, Usable;
    var last := |occurrences| - 1;
    var before, e := Run(c, occurrences[..last], filtered), occurrences[last].event;
    RunStaysTimely(c, occurrences[..last], sid, link, filtered);
    if before.enabled && sid in before.measurements {
      PongInstallsAccurately(before, sid, link, e.pong, occurrences[last].env);
    }
  }

  /** A new node has no samples and no pings, so its runs qualify. */
  lemma InitiallyTimely(self: Option<Endpoint>, id: NodeId, bpm: real, sync: bool, now: Micros, sid: NodeId, link: Link)
    ensures Timely(InitialCore(self, id, bpm, sync, now), sid, link)
  {}
}
