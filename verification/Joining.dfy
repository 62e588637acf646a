/**
 What the outcome of a measurement decides (link/engine.go:523-567): when a node
 joins the measured session, and that it then does.
 */
module Joining {
  import opened Rounding
  import opened Tempos
  import opened Timelines
  import opened Wire
  import opened NodeIds
  import opened PeerStates
  import opened Measurement
  import opened Session
  import opened Bookkeeping
  import opened Coupling
  import opened Sampling
  import Preference
  import Accuracy

  /** The measured session is ahead by more than 500 ms, or within them and first in the order of identifiers. */
  predicate Ahead(c: Core, sid: NodeId, xform: GhostXForm) {
    var diff := xform.intercept - c.xform.intercept;
    diff > 500000 || (Abs(diff) < 500000 && Value(sid) < Value(c.sessionId))
  }

  /** No peer is in the session, though there were peers in the one it would replace. */
  predicate WouldBeAlone(c: Core, sid: NodeId) {
    c.peerNbr > 0 && Members(c.peers, sid) == {}
  }

  /** The node is in the measured session with its timeline and clock, remembers the one left, and played on without a jump. */
  predicate Joined(c: Core, r: Core, sid: NodeId, xform: GhostXForm, env: Env)
    requires Sound(c) && Sound(r) && sid in c.others
  {
    && r.sessionId == sid && r.nodeId == c.nodeId
    && r.timeline == ClampTempo(c.others[sid]) && r.xform == xform && r.startStop == NO_START_STOP
    && sid !in r.others && c.sessionId in r.others && (c.sessionId in c.others || r.others[c.sessionId] == c.timeline)
    && r.peers == c.peers && r.peerNbr == |Members(c.peers, sid)|
    && r.client.ToBeats(env.update) == c.client.ToBeats(env.update)
    && r.out == c.out + (if c.enabled then [Announce(env.wall, CurrentPeerState(r))] else []) + [ArmRemeasure]
  }

  predicate Founded(r: Core, env: Env) {
    r.nodeId == r.sessionId == env.newId && r.peers == map[] && r.others == map[]
  }

  lemma SwitchDecides(c: Core, sid: NodeId, xform: GhostXForm, env: Env)
    requires Sound(c) && xform.slope == 1.0 && sid in c.others && sid != c.sessionId
    ensures var r := SwitchSession(c, sid, xform, env);
      && r.sessionId == sid && r.nodeId == c.nodeId && r.peers == c.peers && r.peerNbr == c.peerNbr && r.enabled == c.enabled
      && r.timeline == ClampTempo(c.others[sid]) && r.xform == xform && r.startStop == NO_START_STOP && r.self == c.self
      && sid !in r.others && c.sessionId in r.others && (c.sessionId in c.others || r.others[c.sessionId] == c.timeline)
      && r.client.ToBeats(env.update) == c.client.ToBeats(env.update)
      && r.out == c.out + (if c.enabled then [Announce(env.wall, CurrentPeerState(r))] else [])
  {
    hide InRange, Usable, UpdateSessionTiming, ClampTempo, Timeline.ToBeats;
    var rest := c.others - {sid};
    var d := c.(others := if c.sessionId in rest then rest else rest[c.sessionId := c.timeline], sessionId := sid, startStop := NO_START_STOP);
    TimingKeeps(d, c.others[sid], xform, env.update);
    TimingCouples(d, c.others[sid], xform, env.update);
  }

  lemma JoinDecides(c: Core, sid: NodeId, xform: GhostXForm, env: Env)
    requires Sound(c) && xform.slope == 1.0 && sid in c.others && sid != c.sessionId
    ensures var r := JoinSession(c, sid, xform, env);
      if WouldBeAlone(c, sid) then Founded(r, env) else Joined(c, r, sid, xform, env)
  {
    hide InRange, Usable, SwitchSession, ResetState, Members, ClampTempo, Timeline.ToBeats;
    SwitchDecides(c, sid, xform, env);
    var d := SwitchSession(c, sid, xform, env);
    ResetKeeps(d.(peerNbr := 0), env);
  }

  /**
   A measured transform is installed for the node's own session; a known other
   session is joined exactly when it is ahead, unless the node would be alone
   there and founds one; nothing else changes anything.
   */
  lemma ResultDecides(c: Core, sid: NodeId, xform: GhostXForm, env: Env)
    requires Sound(c) && xform.slope == 1.0
    ensures var r := HandleMeasurementResult(c, sid, xform, env);
      if sid == c.sessionId then
        r.xform == xform && r.timeline == c.timeline && r.sessionId == c.sessionId && r.nodeId == c.nodeId && r.startStop == c.startStop
      else if sid !in c.others || !Ahead(c, sid, xform) then r == c
      else if WouldBeAlone(c, sid) then Founded(r, env)
      else Joined(c, r, sid, xform, env)
  {
    hide InRange, Usable, UpdateSessionTiming, JoinSession, ClampTempo, Wins, Joined, Founded, WouldBeAlone;
    if sid == c.sessionId {
      TimingKeeps(c, c.timeline, xform, env.update);
      InRangeIsClamped(c.timeline);
    } else if sid in c.others {
      Preference.WinsByOffset(sid, xform, c.sessionId, c.xform, env.decide);
      JoinDecides(c, sid, xform, env);
    }
  }

  /** A failed measurement changes no timing: the own session is measured again later, another one is forgotten. */
  lemma FailureDecides(c: Core, sid: NodeId, env: Env)
    requires Sound(c)
    ensures var r := HandleMeasurementResult(c, sid, ZERO_XFORM, env);
      && r == c.(others := r.others, out := r.out)
      && (sid == c.sessionId ==> r.others == c.others && r.out == c.out + [ArmRemeasure])
      && (sid != c.sessionId ==> r.others == c.others - {sid} && r.out == c.out + if sid in c.others then [Forgot(sid)] else [])
  {
    hide InRange, Usable, UpdateSessionTiming, JoinSession, Wins;
  }

  /** A pong that does not decode or is of another session fails the measurement it was taken for. */
  lemma BadPongFails(c: Core, sid: NodeId, pong: Result<Pong>, env: Env)
    requires Sound(c) && c.enabled && sid in c.measurements && (pong.Err? || pong.value.sessionId != sid)
    ensures var r := Step(c, PongReceived(sid, pong), env, true);
      && r == c.(measurements := c.measurements - {sid}, others := r.others, out := r.out)
      && |r.out| > |c.out| + 1 && r.out[|c.out| + 1] == Ended(sid, false, |c.measurements[sid].points|)
      && (sid != c.sessionId ==> r.others == c.others - {sid})
  {
    hide Step, HandleMeasurementResult, InRange, Usable;
    StepIs(c, PongReceived(sid, pong), env, true);
    var d := Emit(c, DisarmWatchdog(sid)).(measurements := c.measurements - {sid});
    FailureDecides(Emit(d, Ended(sid, false, |c.measurements[sid].points|)), sid, env);
  }

  lemma InRangeIsClamped(tl: Timeline)
    requires InRange(tl.bpm)
    ensures ClampTempo(tl) == tl
  {}

  /** The transform a measurement yields from its samples. */
  function Estimate(points: seq<real>): GhostXForm {
    GhostXForm(1.0, Llround(Median(points)))
  }

  /**
   A well-formed pong that brings the samples above a hundred decides: for the
   node's own session the estimate is installed, another known session is
   joined if and only if it is ahead, and otherwise session, timeline, clock and
   transport stay as they are.
   */
  lemma FinishedMeasurementDecides(c: Core, sid: NodeId, pong: Result<Pong>, env: Env)
    requires Sound(c) && c.enabled && sid in c.measurements && WellFormed(pong, sid)
    requires |c.measurements[sid].points + Samples(pong.value, env.ping)| > 100
    ensures var r, xform := Step(c, PongReceived(sid, pong), env, true), Estimate(c.measurements[sid].points + Samples(pong.value, env.ping));
      if sid == c.sessionId then
        r.xform == xform && r.timeline == c.timeline && r.sessionId == c.sessionId && r.nodeId == c.nodeId && r.startStop == c.startStop
      else if sid !in c.others || !Ahead(c, sid, xform) then
        r.sessionId == c.sessionId && r.nodeId == c.nodeId && r.timeline == c.timeline && r.xform == c.xform && r.startStop == c.startStop
      else if WouldBeAlone(c, sid) then Founded(r, env)
      else
        r.sessionId == sid && r.nodeId == c.nodeId && r.timeline == ClampTempo(c.others[sid]) && r.xform == xform && r.startStop == NO_START_STOP
  {
    hide Step, HandlePong, HandleMeasurementResult, Samples, Median, Llround, Members, ClampTempo, Timeline.ToBeats, Founded, Value, InRange, Usable;
    StepIs(c, PongReceived(sid, pong), env, true);
    PongTakes(c, sid, pong, env);
    var points := c.measurements[sid].points + Samples(pong.value, env.ping);
    var ping := PingSent(sid, c.measurements[sid].target, env.ping, pong.value.ghostTime);
    var d := c.(measurements := c.measurements - {sid}, out := c.out + [ping] + [DisarmWatchdog(sid)] + [Ended(sid, true, |points|)]);
    ResultDecides(d, sid, Estimate(points), env);
  }

  /** The estimate from accurate samples, to which the last pong adds its own, is accurate. */
  lemma EstimateIsAccurate(c: Core, sid: NodeId, link: Link, pong: Pong, now: Micros)
    requires sid in c.measurements && Accuracy.Timely(c, sid, link) && Accuracy.RepliesInTime(c, sid, link, pong, now)
    requires c.measurements[sid].points + Samples(pong, now) != []
    ensures Accuracy.IsAccurate(Estimate(c.measurements[sid].points + Samples(pong, now)), link)
  {
    hide Accuracy.RepliesInTime, Link.Accurate, Samples, Median, Llround;
    Accuracy.SampledStaysTimely(c, sid, link, pong, now);
    link.MedianIsAccurate(c.measurements[sid].points + Samples(pong, now));
  }

  /** A clock ahead by enough for any accurate estimate of it to be ahead. */
  predicate ClearlyAhead(c: Core, link: Link) {
    2 * (link.offset - c.xform.intercept) > 2 * 500000 + (link.dmax - link.dmin) + 1
  }

  /**
   A node reaches the session that is ahead: with a fresh measurement of a known
   session it has a peer of, fifty-one in-time pongs bring it there, on the
   session's timeline and within the accuracy of the measurement of its clock.
   */
  lemma PongsLeadToTheSessionAhead(c: Core, occurrences: seq<Occurrence>, sid: NodeId, link: Link)
    requires Sound(c) && c.enabled && sid != c.sessionId && sid in c.others && Members(c.peers, sid) != {} && ClearlyAhead(c, link)
    requires sid in c.measurements && c.measurements[sid].points == [] && Accuracy.Timely(c, sid, link)
    requires |occurrences| == 51 && OnlyPongs(occurrences, sid) && TakesWell(c, occurrences, sid, true)
    requires Accuracy.RunRepliesInTime(c, occurrences, sid, link, true)
    ensures var r := Run(c, occurrences, true);
      && r.sessionId == sid && r.nodeId == c.nodeId && r.timeline == ClampTempo(c.others[sid])
      && Accuracy.IsAccurate(r.xform, link)
  {
    hide Step, HandlePong, Samples, WellFormed, Accuracy.Timely, Accuracy.RepliesInTime, Median, Llround, Members, ClampTempo, InRange, Usable;
    var before, o := Run(c, occurrences[..50], true), occurrences[50];
    assert o in occurrences && forall x | x in occurrences[..50] :: x in occurrences;
    PongsInARow(c, occurrences[..50], sid, true);
    Accuracy.RunStaysTimely(c, occurrences[..50], sid, link, true);
    IsOk(o.event.pong, sid);
    PongTakes(before, sid, o.event.pong, o.env);
    EstimateIsAccurate(before, sid, link, o.event.pong.value, o.env.ping);
    FinishedMeasurementDecides(before, sid, o.event.pong, o.env);
  }
}
