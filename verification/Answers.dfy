/** What a node answers to a ping, and what that makes of two engines that measure each other (link/measurement.go:64-76). */
module Answers {
  import opened Rounding
  import opened Tempos
  import opened Timelines
  import opened Wire
  import opened NodeIds
  import opened PeerStates
  import opened Measurement
  import opened Session
  import opened Accuracy

  /** The payload of a ping as its sender encodes it. */
  function PingPayload(host: Micros, prevGhost: Micros): Bytes {
    EncodeEntries(PingEntries(host, prevGhost))
  }

  /** The pong a node answers with at its host time now: its session, its ghost time and the ping's own times. */
  function Answer(p: Core, host: Micros, prevGhost: Micros, now: Micros): Pong {
    Pong(p.sessionId, now + p.xform.intercept, prevGhost, host, prevGhost != 0, true)
  }

  /** An enabled node answers a ping with one datagram, which the pinger reads as the node's session and ghost time now. */
  lemma PingIsAnswered(p: Core, from: Endpoint, host: Micros, prevGhost: Micros, env: Env)
    requires Sound(p) && p.enabled
    requires IsInt64(host) && IsInt64(prevGhost) && IsInt64(env.ping + p.xform.intercept)
    ensures var r := Step(p, PingReceived(from, PingPayload(host, prevGhost)), env, true);
      && |r.out| == |p.out| + 1 && r == p.(out := r.out) && p.out <= r.out
      && r.out[|p.out|].PongSent? && r.out[|p.out|].target == from
      && var sent := ParseLinkMessage(r.out[|p.out|].message);
      && sent.Ok? && sent.value.0 == LINK_PONG
      && DecodePong(sent.value.1) == Ok(Answer(p, host, prevGhost, env.ping))
  {
    hide InRange, Usable, ParseLinkMessage, DecodePong, PongMessage, EncodeEntries, PingEntries, GhostXForm.HostToGhost;
    UnitSlopeTranslates(p.xform, env.ping);
    PongEchoesPing(p.sessionId, env.ping + p.xform.intercept, host, prevGhost);
  }

  lemma DisabledNodeDoesNotAnswer(p: Core, from: Endpoint, payload: Bytes, env: Env)
    requires Sound(p) && !p.enabled
    ensures Step(p, PingReceived(from, payload), env, true) == p
  {
    hide InRange, Usable;
  }

  /** The link to a node whose host clock is skew ahead of ours: its offset is that of the node's ghost clock. */
  function LinkTo(p: Core, skew: Micros, dmin: Micros, dmax: Micros): Link {
    Link(p.xform.intercept + skew, dmin, dmax)
  }

  /**
   Between two engines: the answer of one, at its host time repliedAt, to a
   ping of the other replies in time over the link to it, when both delays are
   within the link's.
   */
  lemma AnswerRepliesInTime(c: Core, p: Core, sid: NodeId, target: Endpoint, host: Micros, prevGhost: Micros,
                            repliedAt: Micros, now: Micros, skew: Micros, dmin: Micros, dmax: Micros)
    requires PingSent(sid, target, host, prevGhost) in c.out
    requires dmin <= (repliedAt - skew) - host <= dmax && dmin <= now - (repliedAt - skew) <= dmax
    ensures RepliesInTime(c, sid, LinkTo(p, skew, dmin, dmax), Answer(p, host, prevGhost, repliedAt), now)
  {
    var e := PingSent(sid, target, host, prevGhost);
    assert e in c.out;
  }

  /** An accurate transform over the link to a node agrees with the node's own ghost clock within the accuracy, at all times. */
  lemma AccurateMeansAgreed(p: Core, xform: GhostXForm, skew: Micros, dmin: Micros, dmax: Micros, t: Micros)
    requires Sound(p) && IsAccurate(xform, LinkTo(p, skew, dmin, dmax))
    ensures 2 * Abs(xform.HostToGhost(t) - p.xform.HostToGhost(t + skew)) <= dmax - dmin + 1
  {
    hide InRange, Usable;
    UnitSlopeTranslates(xform, t);
    UnitSlopeTranslates(p.xform, t + skew);
  }

  /**
   Every pong of the session that the run takes is the answer of some node with
   the given ghost clock to a ping the run sent, over delays the link allows.
   */
  ghost predicate RunIsAnsweredBy(p: Core, skew: Micros, dmin: Micros, dmax: Micros,
                                  c: Core, occurrences: seq<Occurrence>, sid: NodeId, filtered: bool)
    requires Sound(c)
    decreases |occurrences|
  {
    occurrences == [] ||
    (var last := |occurrences| - 1;
     var before, e, env := Run(c, occurrences[..last], filtered), occurrences[last].event, occurrences[last].env;
     && RunIsAnsweredBy(p, skew, dmin, dmax, c, occurrences[..last], sid, filtered)
     && (e.PongReceived? && e.sid == sid && e.pong.Ok? && before.enabled && sid in before.measurements
         ==> IsAnswer(p, skew, dmin, dmax, before, sid, e.pong.value, env.ping)))
  }

  ghost predicate IsAnswer(p: Core, skew: Micros, dmin: Micros, dmax: Micros, c: Core, sid: NodeId, pong: Pong, now: Micros) {
    exists target, host, prevGhost, repliedAt ::
      && PingSent(sid, target, host, prevGhost) in c.out
      && dmin <= (repliedAt - skew) - host <= dmax && dmin <= now - (repliedAt - skew) <= dmax
      && pong == Answer(p, host, prevGhost, repliedAt)
  }

  lemma {:induction false} AnsweredRunRepliesInTime(p: Core, skew: Micros, dmin: Micros, dmax: Micros,
                                                    c: Core, occurrences: seq<Occurrence>, sid: NodeId, filtered: bool)
    requires Sound(c) && RunIsAnsweredBy(p, skew, dmin, dmax, c, occurrences, sid, filtered)
    ensures RunRepliesInTime(c, occurrences, sid, LinkTo(p, skew, dmin, dmax), filtered)
    decreases |occurrences|
  {
    hide Step, RepliesInTime, Answer, InRange, Usable;
    if occurrences != [] {
      var last := |occurrences| - 1;
      AnsweredRunRepliesInTime(p, skew, dmin, dmax, c, occurrences[..last], sid, filtered);
      var before, e, env := Run(c, occurrences[..last], filtered), occurrences[last].event, occurrences[last].env;
      if e.PongReceived? && e.sid == sid && e.pong.Ok? && before.enabled && sid in before.measurements {
        var target, host, prevGhost, repliedAt :|
          && PingSent(sid, target, host, prevGhost) in before.out
          && dmin <= (repliedAt - skew) - host <= dmax && dmin <= env.ping - (repliedAt - skew) <= dmax
          && e.pong.value == Answer(p, host, prevGhost, repliedAt);
        AnswerRepliesInTime(before, p, sid, target, host, prevGhost, repliedAt, env.ping, skew, dmin, dmax);
      }
    }
  }

  /**
   Two engines: when all pongs of a session are answers by a node of it, the
   clock a pong makes the measuring node install agrees with that node's ghost
   clock within half the spread of the delays plus one half, at all times,
   unless the measuring node founds a session.
   */
  lemma MeasuredClocksAgree(p: Core, skew: Micros, dmin: Micros, dmax: Micros,
                            c: Core, occurrences: seq<Occurrence>, sid: NodeId, filtered: bool, t: Micros)
    requires Sound(p) && Sound(c) && Timely(c, sid, LinkTo(p, skew, dmin, dmax))
    requires RunIsAnsweredBy(p, skew, dmin, dmax, c, occurrences, sid, filtered)
    requires occurrences != [] && occurrences[|occurrences| - 1].event.PongReceived? && occurrences[|occurrences| - 1].event.sid == sid
    ensures var before, r := Run(c, occurrences[..|occurrences| - 1], filtered), Run(c, occurrences, filtered);
      || r.xform == before.xform
      || (r.sessionId == sid && 2 * Abs(r.xform.HostToGhost(t) - p.xform.HostToGhost(t + skew)) <= dmax - dmin + 1)
      || r.nodeId == occurrences[|occurrences| - 1].env.newId
  {
    hide Step, Timely, RunRepliesInTime, RunIsAnsweredBy, IsAccurate, GhostXForm.HostToGhost, InRange, Usable;
    var link, r := LinkTo(p, skew, dmin, dmax), Run(c, occurrences, filtered);
    AnsweredRunRepliesInTime(p, skew, dmin, dmax, c, occurrences, sid, filtered);
    InstalledTransformIsAccurate(c, occurrences, sid, link, filtered);
    if IsAccurate(r.xform, link) {
      AccurateMeansAgreed(p, r.xform, skew, dmin, dmax, t);
    }
  }
}
