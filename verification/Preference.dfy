/** Which of two sessions a node prefers, and how often it can change session (link/engine.go:547-567). */
module Preference {
  import opened Rounding
  import opened Tempos
  import opened Timelines
  import opened Wire
  import opened NodeIds
  import opened PeerStates
  import opened Measurement
  import opened Session
  import opened Bookkeeping

  /** At slope one the preference depends on the two clock offsets and identifiers only, not on the instant. */
  lemma WinsByOffset(a: NodeId, xa: GhostXForm, b: NodeId, xb: GhostXForm, now: Micros)
    requires xa.slope == 1.0 && xb.slope == 1.0
    ensures var diff := xa.intercept - xb.intercept;
      Wins(a, xa, b, xb, now) <==> diff > SESSION_EPSILON || (Abs(diff) < SESSION_EPSILON && Less(a, b))
  {}

  /** Two sessions never swap members: at most one of them is preferred to the other, whenever each is asked. */
  lemma PreferenceIsAsymmetric(a: NodeId, xa: GhostXForm, b: NodeId, xb: GhostXForm, now: Micros, later: Micros)
    requires xa.slope == 1.0 && xb.slope == 1.0
    ensures !(Wins(a, xa, b, xb, now) && Wins(b, xb, a, xa, later))
  {}

  /** One of two different sessions is preferred unless their offsets differ by exactly the epsilon. */
  lemma PreferenceDecidesIff(a: NodeId, xa: GhostXForm, b: NodeId, xb: GhostXForm, now: Micros)
    requires xa.slope == 1.0 && xb.slope == 1.0 && a != b
    ensures Wins(a, xa, b, xb, now) || Wins(b, xb, a, xa, now) <==> Abs(xa.intercept - xb.intercept) != SESSION_EPSILON
  {
    WinsByOffset(a, xa, b, xb, now);
    WinsByOffset(b, xb, a, xa, now);
    hide Wins;
    if Value(a) == Value(b) {
      ValueIsInjective(a, b);
    }
  }

  /**
   Three sessions in ascending order of identifier, neighbours closer than the
   epsilon, but the last ahead of the first by more than it.
   */
  predicate Turn(a: NodeId, xa: GhostXForm, b: NodeId, xb: GhostXForm, c: NodeId, xc: GhostXForm) {
    && Less(a, b) && Less(b, c)
    && Abs(xa.intercept - xb.intercept) < SESSION_EPSILON && Abs(xb.intercept - xc.intercept) < SESSION_EPSILON
    && xc.intercept - xa.intercept > SESSION_EPSILON
  }

  predicate Turns(a: NodeId, xa: GhostXForm, b: NodeId, xb: GhostXForm, c: NodeId, xc: GhostXForm) {
    Turn(a, xa, b, xb, c, xc) || Turn(b, xb, c, xc, a, xa) || Turn(c, xc, a, xa, b, xb)
  }

  /** Three sessions are preferred to each other in a circle exactly when, from one of them on, they make such a turn. */
  lemma PreferenceCyclesIff(a: NodeId, xa: GhostXForm, b: NodeId, xb: GhostXForm, c: NodeId, xc: GhostXForm, now: Micros)
    requires xa.slope == 1.0 && xb.slope == 1.0 && xc.slope == 1.0
    ensures Wins(a, xa, b, xb, now) && Wins(b, xb, c, xc, now) && Wins(c, xc, a, xa, now) <==> Turns(a, xa, b, xb, c, xc)
  {
    hide Wins;
    WinsByOffset(a, xa, b, xb, now);
    WinsByOffset(b, xb, c, xc, now);
    WinsByOffset(c, xc, a, xa, now);
    hide Value;
  }

  /**
   Where the preference is transitive: of three sessions preferred in a row the
   first is preferred to the last unless they make a turn or their offsets
   differ by exactly the epsilon.
   */
  lemma PreferenceIsTransitiveIff(a: NodeId, xa: GhostXForm, b: NodeId, xb: GhostXForm, c: NodeId, xc: GhostXForm, now: Micros)
    requires xa.slope == 1.0 && xb.slope == 1.0 && xc.slope == 1.0 && a != c
    requires Wins(a, xa, b, xb, now) && Wins(b, xb, c, xc, now)
    ensures Wins(a, xa, c, xc, now)
      <==> !Turns(a, xa, b, xb, c, xc) && Abs(xa.intercept - xc.intercept) != SESSION_EPSILON
  {
    hide Wins, Turns;
    PreferenceCyclesIff(a, xa, b, xb, c, xc, now);
    PreferenceDecidesIff(a, xa, c, xc, now);
    PreferenceIsAsymmetric(a, xa, c, xc, now, now);
  }

  /** The preference is not transitive: sessions 300 milliseconds apart make a turn. */
  lemma PreferenceCanCycle(a: NodeId, b: NodeId, c: NodeId, now: Micros)
    requires Less(a, b) && Less(b, c)
    ensures var xa, xb, xc := GhostXForm(1.0, 0), GhostXForm(1.0, 300000), GhostXForm(1.0, 600000);
      Wins(a, xa, b, xb, now) && Wins(b, xb, c, xc, now) && Wins(c, xc, a, xa, now)
  {
    hide Wins;
    PreferenceCyclesIff(a, GhostXForm(1.0, 0), b, GhostXForm(1.0, 300000), c, GhostXForm(1.0, 600000), now);
  }

  // ----- How often a node joins -----

  /** Between c and r the node founded a session, stayed, or joined one that wins over its own. */
  ghost predicate MovesFairly(c: Core, r: Core, env: Env) {
    || r.nodeId == env.newId
    || (r.sessionId == c.sessionId && r.nodeId == c.nodeId)
    || Wins(r.sessionId, r.xform, c.sessionId, c.xform, env.decide)
  }

  lemma MembershipMoves(c: Core, env: Env)
    requires Sound(c)
    ensures var r := SessionMembershipChanged(c, env); r.nodeId == env.newId || r == c.(peerNbr := r.peerNbr)
  {
    hide InRange, Usable, FoundedTimeline, UpdateClientTimelineFromSession, StartStopToClient, CurrentPeerState, Members;
  }

  lemma ResultMoves(c: Core, sid: NodeId, xform: GhostXForm, env: Env)
    requires Sound(c) && IsResult(xform)
    ensures MovesFairly(c, HandleMeasurementResult(c, sid, xform, env), env)
    ensures xform == ZERO_XFORM ==> var r := HandleMeasurementResult(c, sid, xform, env); r.sessionId == c.sessionId && r.nodeId == c.nodeId
  {
    hide InRange, Usable, UpdateClientTimelineFromSession, StartStopToClient, SessionMembershipChanged, CurrentPeerState, GhostXForm.HostToGhost;
    if sid != c.sessionId && sid in c.others && xform != ZERO_XFORM && Wins(sid, xform, c.sessionId, c.xform, env.decide) {
      MembershipMoves(SwitchSession(c, sid, xform, env), env);
    }
    hide Wins;
  }

  lemma LaunchMoves(c: Core, sid: NodeId, env: Env)
    requires Sound(c)
    ensures var r := LaunchMeasurement(c, sid, env); r.sessionId == c.sessionId && r.nodeId == c.nodeId
  {
    hide InRange, Usable, HandleMeasurementResult, Members, Chosen;
    ResultMoves(c, sid, ZERO_XFORM, env);
  }

  lemma SawTimelineMoves(c: Core, sid: NodeId, tl: Timeline, env: Env)
    requires Sound(c)
    ensures var r := SawSessionTimeline(c, sid, tl, env); r.sessionId == c.sessionId && r.nodeId == c.nodeId
  {
    hide InRange, Usable, LaunchMeasurement, CurrentPeerState, UpdateSessionTiming;
    LaunchMoves(c.(others := c.others[sid := tl]), sid, env);
    TimingKeeps(c, tl, c.xform, env.update);
  }

  lemma SawPeerMoves(c: Core, id: NodeId, state: PeerState, env: Env, filtered: bool)
    requires Sound(c)
    ensures var r := SawPeerState(c, id, state, env, filtered); r.nodeId == env.newId || (r.sessionId == c.sessionId && r.nodeId == c.nodeId)
  {
    hide InRange, Usable, SawSessionTimeline, HandleStartStop, SessionMembershipChanged;
    var propagate := !filtered || TimelineChanged(EntryOf(c, id), state);
    SawTimelineMoves(c.(peers := c.peers[id := NotedPeer(EntryOf(c, id), state, env, propagate)]), state.sessionId, state.timeline, env);
    var c1 := NoteTimeline(c, id, state, env, filtered);
    assert c1.sessionId == c.sessionId && c1.nodeId == c.nodeId;
    hide NoteTimeline;
    var p := c1.peers[id].(ssKnown := true, ssSession := state.sessionId, ssPropagated := state.startStop);
    StartStopKeeps(c1.(peers := c1.peers[id := p]), state.sessionId, state.startStop, env);
    MembershipMoves(NoteStartStop(c1, id, state, env), env);
  }

  lemma FinishMoves(c: Core, sid: NodeId, xform: GhostXForm, env: Env)
    requires Sound(c) && IsResult(xform) && sid in c.measurements
    ensures MovesFairly(c, FinishMeasurement(c, sid, xform, env), env)
  {
    hide InRange, Usable, HandleMeasurementResult, Wins;
    var c1 := Emit(c, DisarmWatchdog(sid)).(measurements := c.measurements - {sid});
    ResultMoves(Emit(c1, Ended(sid, xform != ZERO_XFORM, |c.measurements[sid].points|)), sid, xform, env);
  }

  lemma PongMoves(c: Core, sid: NodeId, pong: Result<Pong>, env: Env)
    requires Sound(c) && sid in c.measurements
    ensures MovesFairly(c, HandlePong(c, sid, pong, env), env)
  {
    hide InRange, Usable, FinishMeasurement, Samples, Median, Llround, Wins;
    if pong.Err? || pong.value.sessionId != sid {
      FinishMoves(c, sid, ZERO_XFORM, env);
    } else {
      var m := c.measurements[sid];
      var points := m.points + Samples(pong.value, env.ping);
      var c1 := Emit(c, PingSent(sid, m.target, env.ping, pong.value.ghostTime)).(measurements := c.measurements[sid := m.(points := points)]);
      if |points| > MAX_MEASURE_POINTS {
        FinishMoves(c1, sid, GhostXForm(1.0, Llround(Median(points))), env);
      }
    }
  }

  lemma RemeasureMoves(c: Core, env: Env)
    requires Sound(c)
    ensures MovesFairly(c, RemeasureFired(c, env), env)
  {
    hide InRange, Usable, HandleMeasurementResult, Members, Chosen, Wins;
    ResultMoves(Emit(c, RemeasureRan), c.sessionId, ZERO_XFORM, env);
  }

  lemma CommandMoves(c: Core, e: Event, env: Env, filtered: bool)
    requires Sound(c) && (e.SetTempo? || e.ForceBeat? || e.RequestBeat?)
    ensures MovesFairly(c, Step(c, e, env, filtered), env)
  {
    hide Step, Wins, Clean, CacheTimeline, InRange, Usable;
    CommandCommits(c, e, env, filtered);
  }

  lemma DiscoveryMoves(c: Core, e: Event, env: Env, filtered: bool)
    requires Sound(c) && (e.Alive? || e.Response? || e.ByeBye? || e.PruneTick?)
    ensures MovesFairly(c, Step(c, e, env, filtered), env)
  {
    hide InRange, Usable, SawPeerState, SessionMembershipChanged, CurrentPeerState, Wins;
    if e.ByeBye? {
      MembershipMoves(c.(peers := c.peers - {e.id}), env);
    } else if e.PruneTick? {
      MembershipMoves(c.(peers := c.peers - Expired(c.peers, env.wall)), env);
    } else if e.announced.Ok? {
      SawPeerMoves(c, e.id, e.announced.value.(nodeId := e.id), env, filtered);
    }
  }

  lemma MeasuringMoves(c: Core, e: Event, env: Env, filtered: bool)
    requires Sound(c) && (e.PongReceived? || e.WatchdogDue? || e.RemeasureDue?)
    ensures MovesFairly(c, Step(c, e, env, filtered), env)
  {
    hide InRange, Usable, RemeasureFired, FinishMeasurement, HandlePong, Wins;
    if e.RemeasureDue? {
      RemeasureMoves(c, env);
    } else if e.sid in c.measurements {
      if e.PongReceived? {
        PongMoves(c, e.sid, e.pong, env);
      } else {
        FinishMoves(Emit(c, WatchdogRan(e.sid)), e.sid, ZERO_XFORM, env);
      }
    }
  }

  /** A session changes only by founding one or by joining one that wins. */
  lemma StepMovesFairly(c: Core, e: Event, env: Env, filtered: bool)
    requires Sound(c)
    ensures MovesFairly(c, Step(c, e, env, filtered), env)
  {
    hide *;
    if e.SetTempo? || e.ForceBeat? || e.RequestBeat? {
      CommandMoves(c, e, env, filtered);
    } else if e.PongReceived? || e.WatchdogDue? || e.RemeasureDue? {
      MeasuringMoves(c, e, env, filtered);
    } else if e.Alive? || e.Response? || e.ByeBye? || e.PruneTick? {
      DiscoveryMoves(c, e, env, filtered);
    } else {
      OtherEventMoves(c, e, env, filtered);
    }
  }

  lemma PlayingStays(c: Core, playing: bool, at: Micros, env: Env)
    requires Sound(c)
    ensures var r := ApplyPlayingChange(c, playing, at, env); r.sessionId == c.sessionId && r.nodeId == c.nodeId
  {
    hide ApplyPlayingChange, Clean, InRange, Usable;
    PlayingForm(c, playing, at, env);
  }

  lemma OtherEventMoves(c: Core, e: Event, env: Env, filtered: bool)
    requires Sound(c) && !(e.SetTempo? || e.ForceBeat? || e.RequestBeat? || e.PongReceived? || e.WatchdogDue? || e.RemeasureDue?)
    requires !(e.Alive? || e.Response? || e.ByeBye? || e.PruneTick?)
    ensures MovesFairly(c, Step(c, e, env, filtered), env)
  {
    hide InRange, Usable, CurrentPeerState, PongMessage, Wins, GhostXForm.HostToGhost, ResetState, ApplyPlayingChange;
    if e.Enable? {
      ResetKeeps(c.(enabled := true), env);
    } else if e.SetPlaying? {
      PlayingStays(c, e.playing, e.at, env);
    }
  }

  /**
   A run without resets in which all clock offsets the node ever adopts lie
   within the epsilon of each other, over the given sessions.
   */
  ghost predicate Calm(c: Core, occurrences: seq<Occurrence>, base: Micros, sessions: set<NodeId>)
    requires Sound(c)
    decreases |occurrences|
  {
    var r := Run(c, occurrences, true);
    && base <= r.xform.intercept < base + SESSION_EPSILON
    && r.sessionId in sessions
    && r.nodeId == c.nodeId
    && (occurrences == [] || (
          && occurrences[|occurrences| - 1].env.newId != c.nodeId
          && Calm(c, occurrences[..|occurrences| - 1], base, sessions)))
  }

  /** How many events of the run changed the session. */
  ghost function Joins(c: Core, occurrences: seq<Occurrence>): nat
    requires Sound(c)
    decreases |occurrences|
  {
    if occurrences == [] then 0
    else
      var before := occurrences[..|occurrences| - 1];
      Joins(c, before) + if Run(c, occurrences, true).sessionId != Run(c, before, true).sessionId then 1 else 0
  }

  function Below(sessions: set<NodeId>, sid: NodeId): set<NodeId> {
    set s | s in sessions && Less(s, sid)
  }

  lemma FewerBelow(sessions: set<NodeId>, lower: NodeId, sid: NodeId)
    requires lower in sessions && Less(lower, sid)
    ensures |Below(sessions, lower)| < |Below(sessions, sid)|
  {
    assert Below(sessions, lower) + {lower} <= Below(sessions, sid);
    SubsetSize(Below(sessions, lower) + {lower}, Below(sessions, sid));
  }

  lemma {:induction false} SubsetSize<T>(a: set<T>, b: set<T>)
    requires a <= b
    ensures |a| <= |b|
  {
    if a != {} {
      var x :| x in a;
      SubsetSize(a - {x}, b - {x});
    }
  }

  /** Without resets and with offsets within the epsilon, every join lowers the session id, so joins are fewer than sessions. */
  lemma {:induction false} JoinsAreBounded(c: Core, occurrences: seq<Occurrence>, base: Micros, sessions: set<NodeId>)
    requires Sound(c) && Calm(c, occurrences, base, sessions)
    ensures var sid := Run(c, occurrences, true).sessionId; sid == c.sessionId || Less(sid, c.sessionId)
    ensures Joins(c, occurrences) + |Below(sessions, Run(c, occurrences, true).sessionId)| <= |Below(sessions, c.sessionId)|
    ensures Joins(c, occurrences) < |sessions|
    decreases |occurrences|
  {
    hide InRange, Usable, Step, Below, Less;
    if occurrences != [] {
      var last := |occurrences| - 1;
      var before, env := Run(c, occurrences[..last], true), occurrences[last].env;
      JoinsAreBounded(c, occurrences[..last], base, sessions);
      StepMovesFairly(before, occurrences[last].event, env, true);
      var r := Run(c, occurrences, true);
      if r.sessionId != before.sessionId {
        WinsByOffset(r.sessionId, r.xform, before.sessionId, before.xform, env.decide);
        hide Wins;
        FewerBelow(sessions, r.sessionId, before.sessionId);
        LessIsTransitive(r.sessionId, before.sessionId, c.sessionId);
      }
    }
    CurrentIsNotBelow(sessions, c, occurrences, base);
  }

  lemma LessIsTransitive(a: NodeId, b: NodeId, c: NodeId)
    ensures Less(a, b) && Less(b, c) ==> Less(a, c)
  {}

  lemma {:induction false} CurrentIsNotBelow(sessions: set<NodeId>, c: Core, occurrences: seq<Occurrence>, base: Micros)
    requires Sound(c) && Calm(c, occurrences, base, sessions)
    ensures |Below(sessions, c.sessionId)| < |sessions|
    decreases |occurrences|
  {
    hide InRange, Usable, Step;
    if occurrences == [] {
      SubsetSize(Below(sessions, c.sessionId) + {c.sessionId}, sessions);
    } else {
      CurrentIsNotBelow(sessions, c, occurrences[..|occurrences| - 1], base);
    }
  }
}
