/** Why peers come and go (link/engine.go:364-435): exactly which peers a node knows after any event. */
module Presence {
  import opened Rounding
  import opened BeatGrid
  import opened Tempos
  import opened Timelines
  import opened Wire
  import opened NodeIds
  import opened PeerStates
  import opened Measurement
  import opened Session
  import opened Bookkeeping

  /** The peers an event takes away: the one that said goodbye, those that expired, or all on leaving the network. */
  function Dropped(c: Core, e: Event, env: Env): set<NodeId> {
    match e
    case ByeBye(id) => if id == c.nodeId then {} else {id}
    case PruneTick => Expired(c.peers, env.wall)
    case Enable(on) => if c.enabled && !on then c.peers.Keys else {}
    case _ => {}
  }

  /** The peer an event brings or renews: the sender of an announcement that decodes. */
  function Heard(c: Core, e: Event): set<NodeId> {
    if (e.Alive? || e.Response?) && e.id != c.nodeId && c.enabled && e.announced.Ok? then {e.id} else {}
  }

  /** The node founded a session, which leaves it without peers. */
  predicate FoundedAlone(r: Core, env: Env) {
    r.peers == map[] && r.nodeId == r.sessionId == env.newId
  }

  function Expiries(peers: map<NodeId, Peer>): (r: map<NodeId, int>)
    ensures r.Keys == peers.Keys
  {
    map id | id in peers :: peers[id].expireAt
  }

  /** The peers a node knows after an event, with their expiry. */
  function Known(c: Core, e: Event, env: Env): map<NodeId, int> {
    (Expiries(c.peers) - Dropped(c, e, env)) + map id | id in Heard(c, e) :: env.wall + PEER_EXPIRY
  }

  lemma KnownOnHearing(c: Core, e: Event, env: Env)
    requires Dropped(c, e, env) == {}
    ensures Heard(c, e) == {} ==> Known(c, e, env) == Expiries(c.peers)
    ensures Heard(c, e) != {} ==> Known(c, e, env) == Expiries(c.peers)[e.id := env.wall + PEER_EXPIRY]
  {}

  lemma KnownOnDropping(c: Core, e: Event, env: Env)
    requires Heard(c, e) == {}
    ensures Known(c, e, env) == Expiries(c.peers - Dropped(c, e, env))
  {}

  lemma ExpiriesOfUpdate(peers: map<NodeId, Peer>, id: NodeId, p: Peer)
    ensures Expiries(peers[id := p]) == Expiries(peers)[id := p.expireAt]
  {}

  lemma MembershipPeers(c: Core, env: Env)
    requires Sound(c)
    ensures var r := SessionMembershipChanged(c, env); r.peers == c.peers || FoundedAlone(r, env)
  {
    hide InRange, Usable, ResetState, Members;
    ResetKeeps(c.(peerNbr := 0), env);
  }

  lemma SwitchPeers(c: Core, sid: NodeId, xform: GhostXForm, env: Env)
    requires Sound(c) && xform.slope == 1.0 && sid in c.others
    ensures SwitchSession(c, sid, xform, env).peers == c.peers
  {}

  lemma ResultPeers(c: Core, sid: NodeId, xform: GhostXForm, env: Env)
    requires Sound(c) && IsResult(xform)
    ensures var r := HandleMeasurementResult(c, sid, xform, env); r.peers == c.peers || FoundedAlone(r, env)
  {
    hide InRange, Usable, UpdateSessionTiming, SwitchSession, SessionMembershipChanged, CurrentPeerState, Wins;
    if sid == c.sessionId {
      if xform != ZERO_XFORM {
        TimingKeeps(c, c.timeline, xform, env.update);
      }
    } else if sid in c.others && xform != ZERO_XFORM && Wins(sid, xform, c.sessionId, c.xform, env.decide) {
      SwitchPeers(c, sid, xform, env);
      MembershipPeers(SwitchSession(c, sid, xform, env), env);
    }
  }

  lemma FinishPeers(c: Core, sid: NodeId, xform: GhostXForm, env: Env)
    requires Sound(c) && IsResult(xform) && sid in c.measurements
    ensures var r := FinishMeasurement(c, sid, xform, env); r.peers == c.peers || FoundedAlone(r, env)
  {
    hide InRange, Usable, HandleMeasurementResult;
    var c1 := Emit(c, DisarmWatchdog(sid)).(measurements := c.measurements - {sid});
    ResultPeers(Emit(c1, Ended(sid, xform != ZERO_XFORM, |c.measurements[sid].points|)), sid, xform, env);
  }

  lemma PongPeers(c: Core, sid: NodeId, pong: Result<Pong>, env: Env)
    requires Sound(c) && sid in c.measurements
    ensures var r := HandlePong(c, sid, pong, env); r.peers == c.peers || FoundedAlone(r, env)
  {
    hide InRange, Usable, FinishMeasurement, Samples, Median, Llround;
    if pong.Err? || pong.value.sessionId != sid {
      FinishPeers(c, sid, ZERO_XFORM, env);
    } else {
      var m := c.measurements[sid];
      var points := m.points + Samples(pong.value, env.ping);
      var c1 := Emit(c, PingSent(sid, m.target, env.ping, pong.value.ghostTime)).(measurements := c.measurements[sid := m.(points := points)]);
      if |points| > MAX_MEASURE_POINTS {
        FinishPeers(c1, sid, GhostXForm(1.0, Llround(Median(points))), env);
      }
    }
  }

  lemma NotePeers(c: Core, id: NodeId, state: PeerState, env: Env, filtered: bool)
    requires Sound(c)
    ensures var r := NoteTimeline(c, id, state, env, filtered);
      exists p :: r.peers == c.peers[id := p] && p.expireAt == env.wall + PEER_EXPIRY
  {
    hide InRange, Usable, SawSessionTimeline, TimelineChanged;
    var p := NotedPeer(EntryOf(c, id), state, env, !filtered || TimelineChanged(EntryOf(c, id), state));
    assert NoteTimeline(c, id, state, env, filtered).peers == c.peers[id := p];
  }

  lemma StartStopPeers(c: Core, id: NodeId, state: PeerState, env: Env)
    requires Sound(c) && id in c.peers
    ensures var r := NoteStartStop(c, id, state, env);
      exists p :: r.peers == c.peers[id := p] && p.expireAt == c.peers[id].expireAt
  {
    hide InRange, Usable, HandleStartStop;
    var p := c.peers[id].(ssKnown := true, ssSession := state.sessionId, ssPropagated := state.startStop);
    StartStopKeeps(c.(peers := c.peers[id := p]), state.sessionId, state.startStop, env);
    assert c.peers == c.peers[id := c.peers[id]];
  }

  lemma SawPeerPeers(c: Core, id: NodeId, state: PeerState, env: Env, filtered: bool)
    requires Sound(c)
    ensures var r := SawPeerState(c, id, state, env, filtered);
      Expiries(r.peers) == Expiries(c.peers)[id := env.wall + PEER_EXPIRY] || FoundedAlone(r, env)
  {
    hide InRange, Usable, NoteTimeline, NoteStartStop, SessionMembershipChanged, Expiries;
    NotePeers(c, id, state, env, filtered);
    var c1 := NoteTimeline(c, id, state, env, filtered);
    var p :| c1.peers == c.peers[id := p] && p.expireAt == env.wall + PEER_EXPIRY;
    StartStopPeers(c1, id, state, env);
    var c2 := NoteStartStop(c1, id, state, env);
    var q :| c2.peers == c1.peers[id := q] && q.expireAt == c1.peers[id].expireAt;
    ExpiriesOfUpdate(c.peers, id, p);
    ExpiriesOfUpdate(c1.peers, id, q);
    MembershipPeers(c2, env);
  }

  lemma CommandPeers(c: Core, e: Event, env: Env, filtered: bool)
    requires Sound(c) && (e.SetTempo? || e.ForceBeat? || e.RequestBeat?)
    ensures Expiries(Step(c, e, env, filtered).peers) == Expiries(c.peers)
  {
    hide Step, Clean, InRange, Usable;
    CommandCommits(c, e, env, filtered);
  }

  lemma MeasuringPeers(c: Core, e: Event, env: Env, filtered: bool)
    requires Sound(c) && (e.PongReceived? || e.WatchdogDue? || e.RemeasureDue?)
    ensures var r := Step(c, e, env, filtered); r.peers == c.peers || FoundedAlone(r, env)
  {
    hide InRange, Usable, FinishMeasurement, HandlePong, LaunchMeasurement;
    if !e.RemeasureDue? && e.sid in c.measurements {
      if e.PongReceived? {
        PongPeers(c, e.sid, e.pong, env);
      } else {
        FinishPeers(Emit(c, WatchdogRan(e.sid)), e.sid, ZERO_XFORM, env);
      }
    }
  }

  lemma HearingPeers(c: Core, e: Event, env: Env, filtered: bool)
    requires Sound(c) && (e.Alive? || e.Response?)
    ensures var r := Step(c, e, env, filtered); FoundedAlone(r, env) || Expiries(r.peers) == Known(c, e, env)
  {
    hide InRange, Usable, SawPeerState, CurrentPeerState, Known, Expiries;
    KnownOnHearing(c, e, env);
    if e.announced.Ok? {
      SawPeerPeers(c, e.id, e.announced.value.(nodeId := e.id), env, filtered);
    }
  }

  lemma DroppingPeers(c: Core, e: Event, env: Env, filtered: bool)
    requires Sound(c) && (!c.enabled ==> c.peers == map[]) && (e.ByeBye? || e.PruneTick? || e.Enable?)
    ensures var r := Step(c, e, env, filtered); FoundedAlone(r, env) || Expiries(r.peers) == Known(c, e, env)
  {
    hide InRange, Usable, SessionMembershipChanged, ResetState, CurrentPeerState, Known, Expired, Expiries;
    KnownOnDropping(c, e, env);
    if e.ByeBye? {
      MembershipPeers(c.(peers := c.peers - {e.id}), env);
      assert e.id !in c.peers ==> c.peers - {e.id} == c.peers;
    } else if e.PruneTick? {
      MembershipPeers(c.(peers := c.peers - Expired(c.peers, env.wall)), env);
    } else {
      ResetKeeps(c.(enabled := true), env);
      assert c.peers - c.peers.Keys == map[];
    }
    assert c.peers - {} == c.peers;
  }

  lemma PlayingPeers(c: Core, playing: bool, at: Micros, env: Env)
    requires Sound(c)
    ensures ApplyPlayingChange(c, playing, at, env).peers == c.peers
  {
    hide ApplyPlayingChange, Clean, InRange, Usable;
    PlayingForm(c, playing, at, env);
  }

  lemma IdlePeers(c: Core, e: Event, env: Env, filtered: bool)
    requires Sound(c) && (e.BroadcastTick? || e.PingReceived? || e.BroadcastDue? || e.Elapse? || e.StaleDue? || e.SetPlaying? || e.SetSync?)
    ensures Step(c, e, env, filtered).peers == c.peers
  {
    hide InRange, Usable, CurrentPeerState, PongMessage, GhostXForm.HostToGhost, ApplyPlayingChange;
    if e.SetPlaying? {
      PlayingPeers(c, e.playing, e.at, env);
    }
  }

  /**
   After any event the node knows exactly the peers it knew, less those the
   event took away, and the one it heard of with a new lifetime, unless it
   founded a session, which leaves it alone.
   */
  lemma StepPeers(c: Core, e: Event, env: Env, filtered: bool)
    requires Sound(c) && Kept(c)
    ensures var r := Step(c, e, env, filtered); FoundedAlone(r, env) || Expiries(r.peers) == Known(c, e, env)
  {
    if e.Alive? || e.Response? {
      HearingPeers(c, e, env, filtered);
      hide *;
    } else if e.ByeBye? || e.PruneTick? || e.Enable? {
      assert Shape(c);
      DroppingPeers(c, e, env, filtered);
      hide *;
    } else {
      KnownOnHearing(c, e, env);
      hide Known, Expiries, Kept, InRange, Usable, Step;
      if e.SetTempo? || e.ForceBeat? || e.RequestBeat? {
        CommandPeers(c, e, env, filtered);
      } else if e.PongReceived? || e.WatchdogDue? || e.RemeasureDue? {
        MeasuringPeers(c, e, env, filtered);
      } else {
        IdlePeers(c, e, env, filtered);
      }
    }
  }

  lemma KnownMissesOnlyFor(c: Core, e: Event, env: Env, id: NodeId)
    requires id in c.peers && id !in Known(c, e, env)
    ensures e == ByeBye(id) || (e.PruneTick? && env.wall > c.peers[id].expireAt) || e == Enable(false)
  {
    hide Heard, Expiries;
  }

  /** A living peer stays: it takes its own goodbye, an expired lifetime, a disabled node or a new session to lose it. */
  lemma PeersLeaveOnlyFor(c: Core, e: Event, env: Env, filtered: bool, id: NodeId)
    requires Sound(c) && Kept(c) && id in c.peers && id !in Step(c, e, env, filtered).peers
    ensures || e == ByeBye(id)
            || (e.PruneTick? && env.wall > c.peers[id].expireAt)
            || e == Enable(false)
            || FoundedAlone(Step(c, e, env, filtered), env)
  {
    StepPeers(c, e, env, filtered);
    hide *;
    if id !in Known(c, e, env) {
      KnownMissesOnlyFor(c, e, env, id);
    }
  }
}
