/**
 The engine and its timer hub as the objects the program has
 (link/engine.go, link/measurement.go): every handler is a method that updates
 the fields in place and is proved against the function of module Session that
 describes it, and every field of the timer hub against module Timers.
 */
module Engines {
  import opened Rounding
  import opened BeatGrid
  import opened Tempos
  import opened Timelines
  import opened Wire
  import opened NodeIds
  import opened PeerStates
  import opened Measurement
  import opened Session
  import opened Timers
  import opened Bookkeeping
  import opened Coupling

  // ----- Loops over the maps -----

  /** Counts the peers of a session, in any order. */
  method CountPeers(peers: map<NodeId, Peer>, sid: NodeId) returns (count: nat)
    ensures count == |Members(peers, sid)|
  {
    count := 0;
    var rest := peers.Keys;
    ghost var counted: set<NodeId> := {};
    while rest != {}
      invariant rest <= peers.Keys
      invariant forall id :: id in counted <==> id in Members(peers, sid) && id !in rest
      invariant count == |counted|
      decreases rest
    {
      var id :| id in rest;
      if peers[id].state.sessionId == sid {
        count := count + 1;
        counted := counted + {id};
      }
      rest := rest - {id};
    }
    assert counted == Members(peers, sid);
  }

  /** Collects the peers whose lifetime is over. */
  method CollectExpired(peers: map<NodeId, Peer>, wall: int) returns (expired: seq<NodeId>)
    ensures forall id :: id in expired <==> id in Expired(peers, wall)
  {
    expired := [];
    var rest := peers.Keys;
    while rest != {}
      invariant rest <= peers.Keys
      invariant forall id :: id in expired <==> id in Expired(peers, wall) && id !in rest
      decreases rest
    {
      var id :| id in rest;
      if wall > peers[id].expireAt {
        expired := expired + [id];
      }
      rest := rest - {id};
    }
  }

  /** Gives every peer of the session the committed timeline. */
  method CachePeers(peers: map<NodeId, Peer>, sid: NodeId, tl: Timeline) returns (cached: map<NodeId, Peer>)
    ensures cached == CacheTimeline(peers, sid, tl)
  {
    cached := peers;
    var rest := peers.Keys;
    while rest != {}
      invariant rest <= peers.Keys == cached.Keys
      invariant forall id | id in peers :: cached[id] == if id in rest then peers[id] else CacheTimeline(peers, sid, tl)[id]
      decreases rest
    {
      var id :| id in rest;
      var peer := cached[id];
      if peer.state.sessionId == sid {
        cached := cached[id := peer.(state := peer.state.(timeline := tl), tlPropagated := tl)];
      }
      rest := rest - {id};
    }
  }

  /** The peer to measure a session with: its founder, or the first of its peers in the order of identifiers. */
  method ChoosePeer(peers: map<NodeId, Peer>, sid: NodeId) returns (chosen: Option<NodeId>)
    ensures chosen.None? <==> Members(peers, sid) == {}
    ensures chosen.Some? ==> chosen.value == Chosen(sid, Members(peers, sid))
  {
    chosen := None;
    var founder := false;
    var rest := peers.Keys;
    while rest != {}
      invariant rest <= peers.Keys
      invariant founder <==> sid in Members(peers, sid) - rest
      invariant chosen.None? <==> Members(peers, sid) - rest == {}
      invariant chosen.Some? ==> IsLeast(chosen.value, Members(peers, sid) - rest)
      decreases rest
    {
      var id :| id in rest;
      ghost var seen := Members(peers, sid) - rest;
      if peers[id].state.sessionId == sid {
        assert Members(peers, sid) - (rest - {id}) == seen + {id};
        founder := founder || id == sid;
        if chosen.None? {
          chosen := Some(id);
        } else {
          var order := Compare(id, chosen.value);
          if order < 0 {
            chosen := Some(id);
          }
        }
      } else {
        assert Members(peers, sid) - (rest - {id}) == seen;
      }
      rest := rest - {id};
    }
    assert Members(peers, sid) - {} == Members(peers, sid);
    if founder {
      chosen := Some(sid);
    } else if chosen.Some? {
      ghost var least := Chosen(sid, Members(peers, sid));
      ChosenIsLeast(sid, Members(peers, sid));
      LeastIsUnique(chosen.value, least, Members(peers, sid));
    }
  }

  lemma ChosenIsLeast(sid: NodeId, candidates: set<NodeId>)
    requires candidates != {} && sid !in candidates
    ensures IsLeast(Chosen(sid, candidates), candidates)
  {}

  /** Some measurement of the given peer, in no particular order. */
  method FindMeasurement(measurements: map<NodeId, Measurer>, from: Endpoint) returns (found: Option<NodeId>)
    ensures found.Some? ==> found.value in measurements && measurements[found.value].target == from
    ensures found.None? ==> forall sid | sid in measurements :: measurements[sid].target != from
  {
    var rest := measurements.Keys;
    while rest != {}
      invariant rest <= measurements.Keys
      invariant forall sid | sid in measurements && sid !in rest :: measurements[sid].target != from
      decreases rest
    {
      var sid :| sid in rest;
      if measurements[sid].target == from {
        return Some(sid);
      }
      rest := rest - {sid};
    }
    return None;
  }

  /** Reads the entries of a pong into local variables, one by one. */
  method ReadPong(payload: Bytes) returns (r: Result<Pong>)
    ensures r == DecodePong(payload)
  {
    var parsed := Parse(payload);
    if parsed.Err? {
      return Err;
    }
    var es, pong, i := parsed.value, NO_PONG, 0;
    while i < |es|
      invariant 0 <= i <= |es|
      invariant ApplyPongEntries(NO_PONG, es) == ApplyPongEntries(pong, es[i..])
    {
      var next := ApplyPongEntry(pong, es[i]);
      if next.Err? {
        return Err;
      }
      assert es[i..][1..] == es[i + 1..];
      pong := next.value;
      i := i + 1;
    }
    return Ok(pong);
  }

  // ----- The timer hub -----

  /** Single-shot timers whose callbacks run on the engine's own thread. */
  class TimerHub {
    var issued: nat
    var callbacks: map<nat, Callback>
    var running: set<nat>
    var channel: seq<nat>
    /** The timers of the runtime that have elapsed; each does so at most once. */
    var elapsed: set<nat>
    ghost var ran: seq<nat>
    ghost var cancelled: set<nat>

    constructor ()
      ensures issued == 0 && callbacks == map[] && running == {} && channel == []
      ensures ran == [] && cancelled == {} && elapsed == {}
    {
      issued, callbacks, running, channel := 0, map[], {}, [];
      ran, cancelled, elapsed := [], {}, {};
    }

    /** The hub's part of the model's hub h. */
    ghost function Within(h: Hub): Hub
      reads this
    {
      h.(issued := issued, callbacks := callbacks, running := running, channel := channel,
         ran := ran, cancelled := cancelled, elapsed := elapsed)
    }

    method After(cb: Callback) returns (id: nat)
      modifies this
      ensures id == issued
      ensures issued == old(issued) + 1 && callbacks == old(callbacks)[id := cb] && running == old(running) + {id}
      ensures channel == old(channel) && ran == old(ran) && cancelled == old(cancelled) && elapsed == old(elapsed)
    {
      issued := issued + 1;
      id := issued;
      callbacks := callbacks[id := cb];
      running := running + {id};
    }

    method Cancel(id: nat)
      modifies this
      ensures issued == old(issued) && callbacks == old(callbacks) - {id} && running == old(running) - {id} && channel == old(channel)
      ensures ran == old(ran) && elapsed == old(elapsed)
      ensures cancelled == if id in old(callbacks) then old(cancelled) + {id} else old(cancelled)
    {
      if id in callbacks {
        cancelled := cancelled + {id};
      }
      if id in running {
        running := running - {id};
      }
      callbacks := callbacks - {id};
    }

    /** The runtime's timer elapses: its id is put on the channel, or dropped when the channel is full. */
    method Elapse(id: nat)
      modifies this
      ensures forall h {:trigger Within(h)} :: Within(h) == Apply(old(Within(h)), TimerElapsed(id))
    {
      elapsed := elapsed + {id};
      if |channel| < CHANNEL_SIZE {
        channel := channel + [id];
      }
    }

    /** Takes an id off the channel and its callback, if it still has one, off the hub. */
    method Receive() returns (cb: Option<Callback>)
      requires channel != []
      modifies this
      ensures cb == if old(channel[0] in callbacks) then Some(old(callbacks[channel[0]])) else None
      ensures forall h {:trigger Within(h)} :: Within(h) == Timers.Receive(old(Within(h)))
    {
      var id := channel[0];
      channel := channel[1..];
      if id !in callbacks {
        return None;
      }
      cb := Some(callbacks[id]);
      if id in running {
        running := running - {id};
      }
      callbacks := callbacks - {id};
      ran := ran + [id];
    }

    /** Stops every running timer and takes its callback off the hub. */
    method StopAll()
      modifies this
      ensures running == {} && callbacks == old(callbacks) - old(running)
      ensures issued == old(issued) && channel == old(channel)
    {
      while running != {}
        invariant running <= old(running)
        invariant callbacks == old(callbacks) - (old(running) - running)
        invariant issued == old(issued) && channel == old(channel)
        decreases running
      {
        var id :| id in running;
        running := running - {id};
        callbacks := callbacks - {id};
      }
    }
  }

  // ----- What reaches the engine -----

  /** What a discovery datagram stands for; None when it is not ours or of no known type. */
  function DiscoveryEvent(data: Bytes): Option<Event> {
    match ParseDiscoveryMessage(data)
    case Err => None
    case Ok((header, payload)) =>
      var id: NodeId := RawId(header.nodeID);
      if header.groupID != 0 then None
      else if header.msgType == DISCOVERY_ALIVE then Some(Alive(id, DecodePeerState(id, payload)))
      else if header.msgType == DISCOVERY_RESPONSE then Some(Response(id, DecodePeerState(id, payload)))
      else if header.msgType == DISCOVERY_BYEBYE then Some(ByeBye(id))
      else None
  }

  /** What one node announces is what another hears: the sender's state, its tempo quantised. */
  lemma AnnouncementArrives(state: PeerState, response: bool)
    requires Sendable(state)
    ensures var heard := state.(timeline := OnTheWire(state.timeline));
      DiscoveryEvent(EncodeDiscoveryMessage(if response then DISCOVERY_RESPONSE else DISCOVERY_ALIVE, 5, 0, state.nodeId.bytes, EncodePeerState(state)))
      == Some(if response then Response(state.nodeId, Ok(heard)) else Alive(state.nodeId, Ok(heard)))
  {
    AnnouncementRoundTrip(state, if response then DISCOVERY_RESPONSE else DISCOVERY_ALIVE);
    hide Sendable, ParseDiscoveryMessage, EncodeDiscoveryMessage, EncodePeerState, DecodePeerState, OnTheWire;
  }

  lemma GoodbyeArrives(id: NodeId)
    ensures DiscoveryEvent(EncodeDiscoveryMessage(DISCOVERY_BYEBYE, 0, 0, id.bytes, [])) == Some(ByeBye(id))
  {
    DiscoveryRoundTrip(DISCOVERY_BYEBYE, 0, 0, id.bytes, []);
    hide ParseDiscoveryMessage, EncodeDiscoveryMessage, DecodePeerState;
  }

  /** Whether e is what a measurement datagram can stand for; a pong may count for any measurement of its sender. */
  ghost predicate MeasurementEvent(c: Core, from: Endpoint, data: Bytes, e: Option<Event>) {
    match ParseLinkMessage(data)
    case Err => e == None
    case Ok((msgType, payload)) =>
      if !c.enabled then e == None
      else if msgType == LINK_PING then e == Some(PingReceived(from, payload))
      else if msgType == LINK_PONG then
        match e
        case Some(ev) => ev.PongReceived? && ev.pong == DecodePong(payload)
                         && ev.sid in c.measurements && c.measurements[ev.sid].target == from
        case None => forall sid | sid in c.measurements :: c.measurements[sid].target != from
      else e == None
  }

  /** What the id at the head of the timer channel stands for. */
  function DueEvent(h: Hub): Event
    requires h.channel != []
  {
    if h.channel[0] !in h.callbacks then StaleDue
    else
      match h.callbacks[h.channel[0]]
      case Watchdog(sid) => WatchdogDue(sid)
      case Remeasure => RemeasureDue
      case DeferredBroadcast => BroadcastDue
  }

  predicate IsCommand(e: Event) {
    e.SetTempo? || e.ForceBeat? || e.RequestBeat? || e.SetPlaying? || e.Enable? || e.SetSync?
  }

  /** What the event loop selects from, and the elapsing of timers beside it. */
  datatype Input =
    | DiscoveryPacket(data: Bytes)
    | MeasurementPacket(from: Endpoint, bytes: Bytes)
    | BroadcastTicker
    | PruneTicker
    | TimerChannel
    | RuntimeTimer(timer: nat)
    | FromClient(command: Event)

  /** Whether e is the event, or None the absence of one, that an input stands for. */
  ghost predicate Means(c: Core, input: Input, e: Option<Event>) {
    var h := Replay(c.out);
    match input
    case DiscoveryPacket(data) => e == DiscoveryEvent(data)
    case MeasurementPacket(from, data) => MeasurementEvent(c, from, data, e)
    case BroadcastTicker => e == Some(BroadcastTick)
    case PruneTicker => e == Some(PruneTick)
    case TimerChannel => e == if h.channel == [] then None else Some(DueEvent(h))
    case RuntimeTimer(id) => e == if 1 <= id <= h.issued && id !in h.elapsed then Some(Elapse(id)) else None
    case FromClient(command) => e == if IsCommand(command) then Some(command) else None
  }

  /** An input only ever stands for an event that can happen. */
  lemma MeantIsPossible(c: Core, input: Input, e: Event)
    requires Means(c, input, Some(e))
    ensures Possible(Replay(c.out), e)
  {
    hide Replay, ParseDiscoveryMessage, DecodePeerState, DecodePong, ParseLinkMessage;
  }

  /** Every event that can happen keeps all invariants of the engine. */
  lemma StepKeepsAll(c: Core, e: Event, env: Env)
    requires Kept(c) && Coupled(c) && Accounted(c) && Possible(Replay(c.out), e)
    ensures var r := Step(c, e, env, true); Kept(r) && Coupled(r) && Accounted(r)
  {
    StepKeeps(c, e, env, true);
    StepCouples(c, e, env, true);
    StepAccounts(c, e, env, true);
    hide *;
  }

  // ----- The engine -----

  class Engine {
    const endpoint: Option<Endpoint>
    const hub: TimerHub

    var nodeId: NodeId
    var sessionId: NodeId
    var sessionTimeline: Timeline
    var sessionXForm: GhostXForm
    var sessionStartStop: StartStopState
    var clientTimeline: Timeline
    var clientStartStop: ClientStartStop
    var startStopSync: bool
    var enabled: bool

    var peers: map<NodeId, Peer>
    var otherSessions: map<NodeId, Timeline>
    var measurements: map<NodeId, Measurer>
    var sessionPeerNbr: nat

    var lastBroadcast: Option<int>
    var broadcastPending: bool
    var broadcastTimerId: nat
    var remeasureId: nat
    var watchdogs: map<NodeId, nat>

    /** What the engine has asked of its surroundings, and the states it broadcast. */
    ghost var out: seq<Effect>
    ghost var broadcasts: seq<PeerState>

    ghost function State(): Core
      reads this
    {
      Core(endpoint, nodeId, sessionId, sessionTimeline, sessionXForm, sessionStartStop, clientTimeline, clientStartStop,
           startStopSync, enabled, peers, otherSessions, measurements, sessionPeerNbr, out)
    }

    ghost function Schedule(): Hub
      reads this, hub
    {
      hub.Within(Hub(0, map[], {}, [], watchdogs, remeasureId, broadcastPending, broadcastTimerId, lastBroadcast, broadcasts, [], {}, {}))
    }

    /** The fields can be computed with, and timers and pacing are as the log tells. */
    ghost predicate Valid()
      reads this, hub
    {
      Sound(State()) && Schedule() == Replay(out)
    }

    /** What holds of a running engine between events. */
    ghost predicate Invariant()
      reads this, hub
    {
      Valid() && Kept(State()) && Coupled(State()) && Accounted(State())
    }

    constructor (self: Option<Endpoint>, id: NodeId, bpm: real, sync: bool, now: Micros)
      ensures fresh(hub) && Invariant() && State() == InitialCore(self, id, bpm, sync, now)
    {
      endpoint, startStopSync := self, sync;
      hub := new TimerHub();
      nodeId, sessionId := id, id;
      var xform := InitXForm(now);
      sessionXForm := xform;
      var timeline := ClampTempo(Timeline(bpm, 0, 0));
      sessionTimeline := timeline;
      sessionStartStop := NO_START_STOP;
      var hostTime := xform.GhostToHost(0);
      clientTimeline := Timeline(timeline.bpm, timeline.beatOrigin, hostTime);
      clientStartStop := ClientStartStop(false, hostTime, hostTime);
      enabled := false;
      peers, otherSessions, measurements, sessionPeerNbr := map[], map[], map[], 0;
      lastBroadcast, broadcastPending, broadcastTimerId, remeasureId, watchdogs := None, false, 0, 0, map[];
      out, broadcasts := [], [];
      new;
      InitiallyKept(self, id, bpm, sync, now);
      InitiallyCoupled(self, id, bpm, sync, now);
      InitiallyAccounted(self, id, bpm, sync, now);
      hide Kept, Coupled, Accounted, Timeline.ToBeats, ClampTempo, GhostXForm.GhostToHost;
    }

    // ----- What the engine asks of its surroundings -----

    /** Logs an effect that concerns no timer. */
    lemma LogStaysSound(c: Core, e: Effect)
      ensures Sound(Emit(c, e)) <==> Sound(c)
    {}

    ghost method Log(e: Effect)
      requires Valid() && (Plain(e) || e.Started? || e.Ended?)
      modifies this`out
      ensures Valid() && State() == Emit(old(State()), e)
    {
      hide InRange, Replay;
      ReplaySnoc(out, e);
      out := out + [e];
    }

    method BroadcastNow(wall: int)
      modifies this`lastBroadcast, this`broadcasts
      ensures State() == old(State())
      ensures Schedule() == if enabled then Timers.BroadcastNow(old(Schedule()), wall, CurrentPeerState(State())) else old(Schedule())
    {
      if !enabled {
        return;
      }
      lastBroadcast := Some(wall);
      broadcasts := broadcasts + [CurrentPeerState(State())];
    }

    /** Announces the state of the node, at once or at the end of the gap since the last broadcast. */
    method Broadcast(wall: int)
      requires Valid()
      modifies this, hub
      ensures Valid() && State() == Session.Broadcast(old(State()), wall)
    {
      hide InRange, Usable, Replay, CurrentPeerState, Sound;
      if !enabled {
        return;
      }
      ghost var e := Announce(wall, CurrentPeerState(State()));
      ReplaySnoc(out, e);
      LogStaysSound(State(), e);
      if lastBroadcast.Some? && wall - lastBroadcast.value < MIN_BROADCAST_GAP {
        if !broadcastPending {
          broadcastTimerId := hub.After(DeferredBroadcast);
          broadcastPending := true;
        }
      } else {
        BroadcastNow(wall);
      }
      assert Schedule() == Apply(old(Schedule()), e);
      assert State() == old(State());
      hide Apply, TimerHub.Within;
      out := out + [e];
    }

    /** Arms the watchdog of a measurement. */
    method ArmWatchdogOf(sid: NodeId)
      requires Valid()
      modifies this, hub
      ensures Valid() && State() == Emit(old(State()), ArmWatchdog(sid))
    {
      hide InRange, Usable, Replay, Sound;
      ghost var e := ArmWatchdog(sid);
      ReplaySnoc(out, e);
      LogStaysSound(State(), e);
      var id := hub.After(Watchdog(sid));
      watchdogs := watchdogs[sid := id];
      assert Schedule() == Apply(old(Schedule()), e);
      assert State() == old(State());
      hide Apply, TimerHub.Within;
      out := out + [e];
    }

    /** Cancels the watchdog of a measurement and forgets its id. */
    method DisarmWatchdogOf(sid: NodeId)
      requires Valid()
      modifies this, hub
      ensures Valid() && State() == Emit(old(State()), DisarmWatchdog(sid))
    {
      hide InRange, Usable, Replay, Sound;
      ghost var e := DisarmWatchdog(sid);
      ReplaySnoc(out, e);
      LogStaysSound(State(), e);
      if sid in watchdogs {
        hub.Cancel(watchdogs[sid]);
        watchdogs := watchdogs - {sid};
      }
      assert Schedule() == Apply(old(Schedule()), e);
      assert State() == old(State());
      hide Apply, TimerHub.Within;
      out := out + [e];
    }

    method ScheduleRemeasure()
      requires Valid()
      modifies this, hub
      ensures Valid() && State() == Session.ScheduleRemeasure(old(State()))
    {
      hide InRange, Usable, Replay, Sound;
      ghost var e := ArmRemeasure;
      ReplaySnoc(out, e);
      LogStaysSound(State(), e);
      if remeasureId != 0 {
        hub.Cancel(remeasureId);
      }
      remeasureId := hub.After(Remeasure);
      assert Schedule() == Apply(old(Schedule()), e);
      assert State() == old(State());
      hide Apply, TimerHub.Within;
      out := out + [e];
    }

    // ----- Session timing -----

    /** Applies a new timeline and transform, keeping the client's beat and mapping the transport state. */
    method UpdateSessionTiming(newTimeline: Timeline, newXForm: GhostXForm, now: Micros)
      requires Valid() && newXForm.slope == 1.0
      modifies this, hub
      ensures Valid() && State() == Session.UpdateSessionTiming(old(State()), newTimeline, newXForm, now)
    {
      hide InRange, Usable, Replay, Clamp, UpdateClientTimelineFromSession, StartStopToClient, TimerHub.Within;
      var timeline := ClampTempo(newTimeline);
      if sessionTimeline == timeline && sessionXForm == newXForm {
        return;
      }
      sessionTimeline := timeline;
      sessionXForm := newXForm;
      clientTimeline := UpdateClientTimelineFromSession(clientTimeline, timeline, now, newXForm);
      if startStopSync && sessionStartStop != NO_START_STOP {
        clientStartStop := StartStopToClient(sessionStartStop, timeline, newXForm);
      }
      assert State() == Session.UpdateSessionTiming(old(State()), newTimeline, newXForm, now);
      assert Schedule() == old(Schedule());
    }

    method HandleStartStop(sid: NodeId, ss: StartStopState, env: Env)
      requires Valid()
      modifies this, hub
      ensures Valid() && State() == Session.HandleStartStop(old(State()), sid, ss, env)
    {
      hide InRange, Usable, Replay, Session.Broadcast, StartStopToClient;
      if sid != sessionId || ss.timestamp <= sessionStartStop.timestamp {
        return;
      }
      BroadcastKeeps(State().(startStop := ss), env.wall);
      sessionStartStop := ss;
      Broadcast(env.wall);
      if startStopSync && ss != NO_START_STOP {
        clientStartStop := StartStopToClient(ss, sessionTimeline, sessionXForm);
      }
    }

    // ----- Membership -----

    /** Founds a new session. */
    method ResetState(env: Env)
      requires Valid()
      modifies this, hub
      ensures Valid() && State() == Session.ResetState(old(State()), env)
    {
      hide InRange, Usable, Replay, Session.Broadcast, Session.UpdateSessionTiming, FoundedTimeline, TimerHub.Within;
      var timeline := FoundedTimeline(sessionTimeline, sessionXForm, env.found);
      nodeId := env.newId;
      sessionId := env.newId;
      sessionStartStop := NO_START_STOP;
      assert Schedule() == old(Schedule());
      UpdateSessionTiming(timeline, InitXForm(env.found), env.settle);
      Broadcast(env.wall);
      otherSessions := map[];
      peers := map[];
      Log(Founded(env.newId));
    }

    /** Recounts the peers in the session; when the last one has gone, founds a new session. */
    method SessionMembershipChanged(env: Env)
      requires Valid()
      modifies this, hub
      ensures Valid() && State() == Session.SessionMembershipChanged(old(State()), env)
    {
      hide InRange, Usable, Replay, Session.ResetState, Members;
      var count := CountPeers(peers, sessionId);
      if count != sessionPeerNbr {
        var before := sessionPeerNbr;
        sessionPeerNbr := count;
        if count == 0 && before > 0 {
          ResetState(env);
        }
      }
    }

    method RemovePeer(id: NodeId, env: Env)
      requires Valid()
      modifies this, hub
      ensures Valid() && State() == Session.RemovePeer(old(State()), id, env)
    {
      hide InRange, Usable, Replay, Session.SessionMembershipChanged;
      if id in peers {
        peers := peers - {id};
        SessionMembershipChanged(env);
      }
    }

    method PrunePeers(env: Env)
      requires Valid()
      modifies this, hub
      ensures Valid() && State() == Session.PrunePeers(old(State()), env)
    {
      hide InRange, Usable, Replay, Session.SessionMembershipChanged, Expired;
      var expired := CollectExpired(peers, env.wall);
      var i := 0;
      while i < |expired|
        invariant 0 <= i <= |expired|
        invariant peers == old(peers) - (set id | id in expired[..i])
        invariant Valid() && State() == old(State()).(peers := peers)
      {
        peers := peers - {expired[i]};
        i := i + 1;
      }
      assert (set id | id in expired[..i]) == Expired(old(peers), env.wall);
      if |expired| > 0 {
        assert expired[0] in Expired(old(peers), env.wall);
        SessionMembershipChanged(env);
      }
    }

    // ----- Sessions -----

    /** Leaves the current session for another one that was observed, remembering the one left. */
    method SwitchSession(sid: NodeId, xform: GhostXForm, env: Env)
      requires Valid() && xform.slope == 1.0 && sid in otherSessions
      modifies this, hub
      ensures Valid() && State() == Session.SwitchSession(old(State()), sid, xform, env)
    {
      hide InRange, Usable, Replay, Session.Broadcast, Session.UpdateSessionTiming, TimerHub.Within;
      var timeline, left := otherSessions[sid], sessionTimeline;
      otherSessions := otherSessions - {sid};
      if sessionId !in otherSessions {
        otherSessions := otherSessions[sessionId := left];
      }
      sessionId := sid;
      sessionStartStop := NO_START_STOP;
      assert Schedule() == old(Schedule());
      UpdateSessionTiming(timeline, xform, env.update);
      Broadcast(env.wall);
    }

    method JoinSession(sid: NodeId, xform: GhostXForm, env: Env)
      requires Valid() && xform.slope == 1.0 && sid in otherSessions
      modifies this, hub
      ensures Valid() && State() == Session.JoinSession(old(State()), sid, xform, env)
    {
      hide InRange, Usable, Replay, Session.SwitchSession, Session.SessionMembershipChanged, Session.ScheduleRemeasure, TimerHub.Within;
      SwitchSession(sid, xform, env);
      SessionMembershipChanged(env);
      ScheduleRemeasure();
    }

    /** Decides what to do with the outcome of a measurement; the zero transform stands for a failed one. */
    method HandleMeasurementResult(sid: NodeId, xform: GhostXForm, env: Env)
      requires Valid() && IsResult(xform)
      modifies this, hub
      ensures Valid() && State() == Session.HandleMeasurementResult(old(State()), sid, xform, env)
    {
      hide InRange, Usable, Replay, Session.JoinSession, Session.UpdateSessionTiming, Session.Broadcast, Session.ScheduleRemeasure,
        TimerHub.Within, GhostXForm.HostToGhost;
      if sid == sessionId {
        if xform != ZERO_XFORM {
          UpdateSessionTiming(sessionTimeline, xform, env.update);
          Broadcast(env.wall);
        }
        ScheduleRemeasure();
      } else if sid in otherSessions {
        if xform == ZERO_XFORM {
          otherSessions := otherSessions - {sid};
          assert Schedule() == old(Schedule());
          Log(Forgot(sid));
        } else {
          var ghostDiff := xform.HostToGhost(env.decide) - sessionXForm.HostToGhost(env.decide);
          var order := Compare(sid, sessionId);
          if ghostDiff > SESSION_EPSILON || (Abs(ghostDiff) < SESSION_EPSILON && order < 0) {
            JoinSession(sid, xform, env);
          }
        }
      }
    }

    method StartMeasurement(sid: NodeId, target: Endpoint, env: Env)
      requires Valid()
      modifies this, hub
      ensures Valid() && State() == Session.StartMeasurement(old(State()), sid, target, env)
    {
      hide InRange, Usable, Replay, TimerHub.Within;
      measurements := measurements[sid := Measurer(target, [], 0)];
      assert Schedule() == old(Schedule());
      Log(Started(sid));
      Log(PingSent(sid, target, env.ping, 0));
      ArmWatchdogOf(sid);
    }

    /** Starts measuring one of the peers of a session, unless a measurement of it is in flight. */
    method LaunchMeasurement(sid: NodeId, env: Env)
      requires Valid()
      modifies this, hub
      ensures Valid() && State() == Session.LaunchMeasurement(old(State()), sid, env)
    {
      hide InRange, Usable, Replay, Session.StartMeasurement, Session.HandleMeasurementResult, Members, Chosen, TimerHub.Within;
      if sid in measurements {
        return;
      }
      var chosen := ChoosePeer(peers, sid);
      if chosen.None? {
        otherSessions := otherSessions - {sid};
        assert Schedule() == old(Schedule());
        return;
      }
      ChosenIsPeer(peers, sid);
      match peers[chosen.value].state.endpoint {
        case None => HandleMeasurementResult(sid, ZERO_XFORM, env);
        case Some(target) => StartMeasurement(sid, target, env);
      }
    }

    /** Considers a timeline seen for a session: adopts it if newer, and measures a session seen for the first time. */
    method SawSessionTimeline(sid: NodeId, tl: Timeline, env: Env)
      requires Valid()
      modifies this, hub
      ensures Valid() && State() == Session.SawSessionTimeline(old(State()), sid, tl, env)
    {
      hide InRange, Usable, Replay, Session.LaunchMeasurement, Session.UpdateSessionTiming, Session.Broadcast, TimerHub.Within;
      if sid == sessionId {
        if tl.beatOrigin > sessionTimeline.beatOrigin {
          UpdateSessionTiming(tl, sessionXForm, env.update);
        }
        Broadcast(env.wall);
      } else if sid in otherSessions {
        if tl.beatOrigin > otherSessions[sid].beatOrigin {
          otherSessions := otherSessions[sid := tl];
          assert Schedule() == old(Schedule());
        }
      } else {
        otherSessions := otherSessions[sid := tl];
        assert Schedule() == old(Schedule());
        LaunchMeasurement(sid, env);
      }
    }

    // ----- Discovery -----

    /** Records an announced state and propagates its timeline when it changed. */
    method NoteTimeline(id: NodeId, state: PeerState, env: Env)
      requires Valid()
      modifies this, hub
      ensures Valid() && State() == Session.NoteTimeline(old(State()), id, state, env, true)
    {
      hide InRange, Usable, Replay, Session.SawSessionTimeline, TimerHub.Within;
      var peer := if id in peers then peers[id] else NEW_PEER;
      peer := peer.(state := state, expireAt := env.wall + PEER_EXPIRY);
      if !peer.tlKnown || peer.tlSession != state.sessionId || peer.tlPropagated != state.timeline {
        peers := peers[id := peer.(tlKnown := true, tlSession := state.sessionId, tlPropagated := state.timeline)];
        assert Schedule() == old(Schedule());
        SawSessionTimeline(state.sessionId, state.timeline, env);
      } else {
        peers := peers[id := peer];
        assert Schedule() == old(Schedule());
      }
    }

    /** Propagates the start/stop state of a recorded announcement when it changed. */
    method NoteStartStop(id: NodeId, state: PeerState, env: Env)
      requires Valid() && id in peers
      modifies this, hub
      ensures Valid() && State() == Session.NoteStartStop(old(State()), id, state, env)
    {
      hide InRange, Usable, Replay, Session.HandleStartStop, TimerHub.Within;
      var peer := peers[id];
      if !peer.ssKnown || peer.ssSession != state.sessionId || peer.ssPropagated != state.startStop {
        peers := peers[id := peer.(ssKnown := true, ssSession := state.sessionId, ssPropagated := state.startStop)];
        assert Schedule() == old(Schedule());
        HandleStartStop(state.sessionId, state.startStop, env);
      }
    }

    /** Takes in an announcement; a payload that does not decode is ignored. */
    method SawPeerState(id: NodeId, payload: Bytes, env: Env)
      requires Valid()
      modifies this, hub
      ensures Valid() && State() == Discovered(old(State()), id, DecodePeerState(id, payload), env, true)
    {
      hide InRange, Usable, Replay, Session.NoteTimeline, Session.NoteStartStop, Session.SessionMembershipChanged, TimerHub.Within,
        DecodePeerState;
      var decoded := Decode(id, payload);
      if decoded.Err? {
        return;
      }
      var state := decoded.value;
      DecodedUnderItsId(id, payload);
      var existed := id in peers;
      var oldSession := if existed then peers[id].state.sessionId else ZERO_ID;
      var wasMember := existed && oldSession == sessionId;
      NoteTimeline(id, state, env);
      NoteStartStop(id, state, env);
      if !existed || oldSession != state.sessionId || wasMember != (state.sessionId == sessionId) {
        SessionMembershipChanged(env);
      }
    }

    // ----- Measurement -----

    /** Takes a measurement off the books, cancelling its watchdog, and passes its outcome on. */
    method FinishMeasurement(sid: NodeId, xform: GhostXForm, env: Env)
      requires Valid() && IsResult(xform) && sid in measurements
      modifies this, hub
      ensures Valid() && State() == Session.FinishMeasurement(old(State()), sid, xform, env)
    {
      hide InRange, Usable, Replay, Session.HandleMeasurementResult, TimerHub.Within;
      ghost var samples := |measurements[sid].points|;
      DisarmWatchdogOf(sid);
      measurements := measurements - {sid};
      assert Schedule() == Replay(out);
      Log(Ended(sid, xform != ZERO_XFORM, samples));
      HandleMeasurementResult(sid, xform, env);
    }

    /** Replies to a ping with the session, its ghost time and the ping's own payload. */
    method HandlePing(from: Endpoint, payload: Bytes, env: Env)
      requires Valid() && enabled
      modifies this, hub
      ensures Valid() && State() == Step(old(State()), PingReceived(from, payload), env, true)
    {
      hide InRange, Usable, Replay, TimerHub.Within, GhostXForm.HostToGhost, EncodeEntries;
      var ghostTime := sessionXForm.HostToGhost(env.ping);
      var message := EncodeInto(LINK_MAGIC + [LINK_PONG], [Entry(KEY_SESSION, sessionId.bytes), MicrosEntry(KEY_GHOST_TIME, ghostTime)]);
      message := message + payload;
      Log(PongSent(from, message));
    }

    /** Takes the samples of a pong for a measurement in flight; ends it, or sends the next ping. */
    method TakePong(sid: NodeId, payload: Bytes, env: Env)
      requires Valid() && sid in measurements
      modifies this, hub
      ensures Valid() && State() == Session.HandlePong(old(State()), sid, DecodePong(payload), env)
    {
      hide InRange, Usable, Replay, Session.FinishMeasurement, TimerHub.Within, DecodePong, Median, Llround;
      var decoded := ReadPong(payload);
      if decoded.Err? || decoded.value.sessionId != sid {
        FinishMeasurement(sid, ZERO_XFORM, env);
        return;
      }
      var pong, now, m := decoded.value, env.ping, measurements[sid];
      Log(PingSent(sid, m.target, now, pong.ghostTime));
      var points := m.points;
      if pong.ghostTime != 0 && pong.hasPrevHost && pong.prevHost != 0 {
        points := points + [pong.ghostTime as real - (now as real + pong.prevHost as real) * 0.5];
      }
      if pong.hasPrevGhost && pong.prevGhost != 0 {
        points := points + [(pong.ghostTime as real + pong.prevGhost as real) * 0.5 - pong.prevHost as real];
      }
      assert points == m.points + Samples(pong, now);
      hide Samples;
      measurements := measurements[sid := m.(points := points)];
      assert Schedule() == Replay(out);
      if |points| > MAX_MEASURE_POINTS {
        FinishMeasurement(sid, GhostXForm(1.0, Llround(Median(points))), env);
      } else {
        DisarmWatchdogOf(sid);
        ArmWatchdogOf(sid);
      }
    }

    /** A pong counts for some measurement of the peer it came from, if there is one. */
    method HandlePong(from: Endpoint, payload: Bytes, env: Env) returns (ghost sid: Option<NodeId>)
      requires Valid()
      modifies this, hub
      ensures Valid()
      ensures sid.None? ==> State() == old(State()) && (forall s | s in old(measurements) :: old(measurements)[s].target != from)
      ensures sid.Some? ==> sid.value in old(measurements) && old(measurements)[sid.value].target == from
      ensures sid.Some? ==> State() == Session.HandlePong(old(State()), sid.value, DecodePong(payload), env)
    {
      hide InRange, Usable, Replay, Session.HandlePong, TimerHub.Within, DecodePong;
      var found := FindMeasurement(measurements, from);
      sid := found;
      if found.Some? {
        TakePong(found.value, payload, env);
      }
    }

    /** A callback has been taken off the hub and is about to run. */
    ghost predicate Received()
      reads this, hub
    {
      Sound(State()) && Schedule() == Timers.Receive(Replay(out))
    }

    /** Logs a callback that does nothing to the timers itself. */
    ghost method LogReceived(e: Effect)
      requires Received() && (e.WatchdogRan? || e.StaleTimer?)
      modifies this`out
      ensures Valid() && State() == Emit(old(State()), e)
    {
      hide InRange, Usable, Replay, Timers.Receive;
      ReplaySnoc(out, e);
      LogStaysSound(State(), e);
      out := out + [e];
    }

    /** The watchdog of a measurement runs: it pings again, or gives up after five restarts. */
    method MeasurerTimerFired(sid: NodeId, env: Env)
      requires Received()
      modifies this, hub
      ensures Valid() && State() == WatchdogFired(old(State()), sid, env)
    {
      hide InRange, Usable, Replay, Timers.Receive, Session.FinishMeasurement, TimerHub.Within;
      LogReceived(WatchdogRan(sid));
      if sid !in measurements {
        return;
      }
      var m := measurements[sid];
      if m.started < MAX_MEASURE_STARTS {
        Log(PingSent(sid, m.target, env.ping, 0));
        measurements := measurements[sid := m.(started := m.started + 1)];
        assert Schedule() == Replay(out);
        ArmWatchdogOf(sid);
      } else {
        FinishMeasurement(sid, ZERO_XFORM, env);
      }
    }

    /** The remeasure timer runs: it measures the current session and rearms itself. */
    method RemeasureTimerFired(env: Env)
      requires Received()
      modifies this, hub
      ensures Valid() && State() == RemeasureFired(old(State()), env)
    {
      hide InRange, Usable, Replay, Timers.Receive, Session.LaunchMeasurement, Session.ScheduleRemeasure;
      ReplaySnoc(out, RemeasureRan);
      LogStaysSound(State(), RemeasureRan);
      remeasureId := 0;
      out := out + [RemeasureRan];
      assert Schedule() == Replay(out);
      assert State() == Emit(old(State()), RemeasureRan);
      LaunchMeasurement(sessionId, env);
      ScheduleRemeasure();
    }

    /** The deferred broadcast runs, without looking at the gap again. */
    method BroadcastTimerFired(env: Env)
      requires Received()
      modifies this, hub
      ensures Valid()
      ensures State() == Emit(old(State()), BroadcastRan(env.wall, enabled, CurrentPeerState(old(State()))))
    {
      hide InRange, Usable, Replay, Timers.Receive, CurrentPeerState;
      ghost var e := BroadcastRan(env.wall, enabled, CurrentPeerState(State()));
      ReplaySnoc(out, e);
      LogStaysSound(State(), e);
      broadcastPending := false;
      BroadcastNow(env.wall);
      assert Schedule() == Apply(Replay(out), e);
      hide Apply, TimerHub.Within;
      out := out + [e];
      assert State() == Emit(old(State()), e);
    }

    // ----- Client commands -----

    /** Commits the client timeline to the session and caches the result for the peers in it. */
    method CommitClientTimeline(at: Micros, env: Env)
      requires Valid()
      modifies this, hub
      ensures Valid() && State() == Session.CommitClientTimeline(old(State()), at, env)
    {
      hide InRange, Usable, Replay, Session.UpdateSessionTiming, Session.Broadcast, UpdateSessionTimelineFromClient, CacheTimeline, TimerHub.Within;
      var timeline := UpdateSessionTimelineFromClient(sessionTimeline, clientTimeline, at, sessionXForm);
      UpdateSessionTiming(timeline, sessionXForm, env.update);
      peers := CachePeers(peers, sessionId, sessionTimeline);
      assert Schedule() == Replay(out);
      Broadcast(env.wall);
    }

    method ApplyTempoChange(bpm: real, at: Micros, env: Env)
      requires Valid()
      modifies this, hub
      ensures Valid() && State() == Session.ApplyTempoChange(old(State()), bpm, at, env)
    {
      TempoChangeKeepsBeat(clientTimeline, bpm, at);
      hide InRange, Usable, Replay, Session.CommitClientTimeline, Clamp, Timeline.ToBeats, Timeline.FromBeats, TimerHub.Within;
      var desired := ClampTempo(Timeline(bpm, clientTimeline.ToBeats(at), at));
      clientTimeline := clientTimeline.(bpm := desired.bpm, timeOrigin := desired.FromBeats(clientTimeline.beatOrigin));
      assert clientTimeline == WithTempo(old(clientTimeline), bpm, at);
      hide WithTempo;
      assert Schedule() == old(Schedule());
      CommitClientTimeline(at, env);
    }

    /** Moves the client timeline in place so that the encoded beat at t is the given one. */
    method ForceClientBeat(beat: Beats, t: Micros, quantum: Quantum)
      requires Valid()
      modifies this`clientTimeline
      ensures clientTimeline == ForceBeatAtTimeImpl(old(clientTimeline), beat, t, quantum)
      ensures Valid() && State() == old(State()).(client := clientTimeline)
    {
      hide InRange, Usable, Replay, ToPhaseEncodedBeats, ClosestPhaseMatch, Timeline.FromBeats, TimerHub.Within;
      var current := ToPhaseEncodedBeats(clientTimeline, t, quantum);
      var closest := ClosestPhaseMatch(current, beat, quantum);
      clientTimeline := ShiftClientTimeline(clientTimeline, closest - current);
      clientTimeline := clientTimeline.(beatOrigin := clientTimeline.beatOrigin + beat - closest);
      assert Schedule() == old(Schedule());
    }

    method ApplyForceBeatAtTime(beat: Beats, at: Micros, quantum: Quantum, env: Env)
      requires Valid()
      modifies this, hub
      ensures Valid() && State() == Session.ApplyForceBeatAtTime(old(State()), beat, at, quantum, env)
    {
      hide InRange, Usable, Replay, Session.CommitClientTimeline, ForceBeatAtTimeImpl, ToPhaseEncodedBeats, TimerHub.Within;
      ForceClientBeat(beat, at, quantum);
      if ToPhaseEncodedBeats(clientTimeline, at, quantum) > beat {
        ForceClientBeat(beat, at + 1, quantum);
      }
      CommitClientTimeline(at, env);
    }

    method ApplyRequestBeatAtTime(beat: Beats, at: Micros, quantum: Quantum, env: Env)
      requires Valid()
      modifies this, hub
      ensures Valid() && State() == Session.ApplyRequestBeatAtTime(old(State()), beat, at, quantum, env)
    {
      hide InRange, Usable, Replay, Session.ApplyForceBeatAtTime, FromPhaseEncodedBeats, NextPhaseMatch, ToPhaseEncodedBeats, TimerHub.Within;
      var t := at;
      if sessionPeerNbr > 0 {
        var next := NextPhaseMatch(ToPhaseEncodedBeats(clientTimeline, at, quantum), beat, quantum);
        t := FromPhaseEncodedBeats(clientTimeline, next, quantum);
      }
      ApplyForceBeatAtTime(beat, t, quantum, env);
    }

    method ApplyPlayingChange(playing: bool, at: Micros, env: Env)
      requires Valid()
      modifies this, hub
      ensures Valid() && State() == Session.ApplyPlayingChange(old(State()), playing, at, env)
    {
      hide InRange, Usable, Replay, Session.Broadcast, GhostXForm.HostToGhost, Timeline.ToBeats, TimerHub.Within;
      if at >= clientStartStop.timestamp {
        clientStartStop := ClientStartStop(playing, at, at);
      }
      assert Schedule() == old(Schedule());
      if startStopSync {
        var ghostAt := sessionXForm.HostToGhost(at);
        if ghostAt > sessionStartStop.timestamp {
          sessionStartStop := StartStopState(playing, sessionTimeline.ToBeats(sessionXForm.HostToGhost(at)), ghostAt);
          assert Schedule() == old(Schedule());
          Broadcast(env.wall);
        }
      }
    }

    method SetEnabled(on: bool, env: Env)
      requires Valid()
      modifies this, hub
      ensures Valid() && State() == Session.SetEnabled(old(State()), on, env)
    {
      hide InRange, Usable, Replay, Session.Broadcast, Session.ResetState, TimerHub.Within;
      if on && !enabled {
        enabled := on;
        assert Schedule() == old(Schedule());
        ResetState(env);
        Broadcast(env.wall);
      } else if on != enabled {
        Disable();
      }
    }

    /** Leaves the network: says so and drops what was known of it; timers and measurements go on. */
    method Disable()
      requires Valid()
      modifies this, hub
      ensures Valid()
      ensures State() == Emit(old(State()).(enabled := false), Leave(old(nodeId))).(peers := map[], others := map[], peerNbr := 0)
    {
      hide InRange, Usable, Replay, TimerHub.Within;
      enabled := false;
      assert Schedule() == old(Schedule());
      Log(Leave(nodeId));
      Forget();
    }

    /** Drops all peers and other sessions. */
    method Forget()
      requires Valid()
      modifies this
      ensures Valid() && State() == old(State()).(peers := map[], others := map[], peerNbr := 0)
    {
      hide InRange, Usable, Replay, TimerHub.Within;
      peers := map[];
      otherSessions := map[];
      sessionPeerNbr := 0;
      assert Schedule() == old(Schedule());
    }

    // ----- The event loop -----

    method HandleDiscoveryPacket(data: Bytes, env: Env)
      requires Valid()
      modifies this, hub
      ensures Valid()
      ensures State() == match DiscoveryEvent(data)
                         case Some(e) => Step(old(State()), e, env, true)
                         case None => old(State())
    {
      hide InRange, Usable, Replay, Session.RemovePeer, Discovered, DecodePeerState, TimerHub.Within, CurrentPeerState;
      var parsed := ParseDiscoveryMessage(data);
      if parsed.Err? || parsed.value.0.groupID != 0 {
        return;
      }
      var (header, payload) := parsed.value;
      hide ParseDiscoveryMessage;
      var id: NodeId := RawId(header.nodeID);
      if id == nodeId {
        return;
      }
      if header.msgType == DISCOVERY_ALIVE {
        if enabled {
          SawPeerState(id, payload, env);
          Log(Respond(CurrentPeerState(State())));
        }
      } else if header.msgType == DISCOVERY_RESPONSE {
        if enabled {
          SawPeerState(id, payload, env);
        }
      } else if header.msgType == DISCOVERY_BYEBYE {
        RemovePeer(id, env);
      }
    }

    method HandleMeasurementPacket(from: Endpoint, data: Bytes, env: Env) returns (ghost e: Option<Event>)
      requires Valid()
      modifies this, hub
      ensures Valid() && MeasurementEvent(old(State()), from, data, e)
      ensures State() == match e
                         case Some(ev) => Step(old(State()), ev, env, true)
                         case None => old(State())
    {
      hide InRange, Usable, Replay, Session.HandlePong, DecodePong, TimerHub.Within, PongMessage, GhostXForm.HostToGhost;
      e := None;
      var parsed := ParseLinkMessage(data);
      if !enabled || parsed.Err? {
        return;
      }
      var (msgType, payload) := parsed.value;
      hide ParseLinkMessage;
      if msgType == LINK_PING {
        HandlePing(from, payload, env);
        e := Some(PingReceived(from, payload));
      } else if msgType == LINK_PONG {
        ghost var sid := HandlePong(from, payload, env);
        if sid.Some? {
          e := Some(PongReceived(sid.value, DecodePong(payload)));
        }
      }
    }

    /** Takes an id off the timer channel and runs the callback it still has. */
    method Fire(env: Env)
      requires Valid() && hub.channel != []
      modifies this, hub
      ensures Valid() && State() == Step(old(State()), old(DueEvent(Schedule())), env, true)
    {
      hide InRange, Usable, Replay, CurrentPeerState, RemeasureFired, WatchdogFired, Timers.Receive;
      var cb := hub.Receive();
      assert State() == old(State());
      assert Schedule() == Timers.Receive(old(Schedule()));
      if cb.None? {
        LogReceived(StaleTimer);
      } else {
        match cb.value {
          case Watchdog(sid) => MeasurerTimerFired(sid, env);
          case Remeasure => RemeasureTimerFired(env);
          case DeferredBroadcast => BroadcastTimerFired(env);
        }
      }
    }

    /** A command of the client. */
    method Command(e: Event, env: Env)
      requires Valid() && IsCommand(e)
      modifies this, hub
      ensures Valid() && State() == Step(old(State()), e, env, true)
    {
      hide InRange, Usable, Replay, TimerHub.Within, Session.ApplyTempoChange, Session.ApplyForceBeatAtTime,
        Session.ApplyRequestBeatAtTime, Session.ApplyPlayingChange, Session.SetEnabled;
      if e.SetTempo? {
        ApplyTempoChange(e.bpm, e.at, env);
      } else if e.ForceBeat? {
        ApplyForceBeatAtTime(e.beat, e.at, e.quantum, env);
      } else if e.RequestBeat? {
        ApplyRequestBeatAtTime(e.beat, e.at, e.quantum, env);
      } else if e.SetPlaying? {
        ApplyPlayingChange(e.playing, e.at, env);
      } else if e.Enable? {
        SetEnabled(e.on, env);
      } else {
        startStopSync := e.on;
        assert Schedule() == old(Schedule());
      }
    }

    /** A timer of the runtime elapses. */
    method TimerElapses(id: nat)
      requires Valid()
      modifies this, hub
      ensures Valid() && State() == Emit(old(State()), TimerElapsed(id))
    {
      hide InRange, Usable, Replay;
      ghost var e := TimerElapsed(id);
      ReplaySnoc(out, e);
      LogStaysSound(State(), e);
      hub.Elapse(id);
      assert Schedule() == Apply(old(Schedule()), e);
      hide Apply, TimerHub.Within;
      out := out + [e];
    }

    /** One turn of the event loop: takes one input and handles it to the end. */
    method Serve(input: Input, env: Env) returns (ghost e: Option<Event>)
      requires Valid()
      modifies this, hub
      ensures Valid() && Means(old(State()), input, e)
      ensures State() == match e
                         case Some(ev) => Step(old(State()), ev, env, true)
                         case None => old(State())
    {
      hide InRange, Usable, Replay, MeasurementEvent, DiscoveryEvent, CurrentPeerState, Discovered, Session.RemovePeer,
        Session.Broadcast, Session.PrunePeers, DueEvent;
      assert Replay(out).channel == hub.channel && Replay(out).issued == hub.issued && Replay(out).elapsed == hub.elapsed;
      hide TimerHub.Within;
      e := None;
      match input {
        case DiscoveryPacket(data) =>
          HandleDiscoveryPacket(data, env);
          e := DiscoveryEvent(data);
        case MeasurementPacket(from, data) =>
          e := HandleMeasurementPacket(from, data, env);
        case BroadcastTicker =>
          Broadcast(env.wall);
          e := Some(BroadcastTick);
        case PruneTicker =>
          PrunePeers(env);
          e := Some(PruneTick);
        case TimerChannel =>
          if hub.channel != [] {
            e := Some(DueEvent(Schedule()));
            Fire(env);
          }
        case RuntimeTimer(id) =>
          if 1 <= id <= hub.issued && id !in hub.elapsed {
            TimerElapses(id);
            e := Some(Elapse(id));
          }
        case FromClient(command) =>
          if IsCommand(command) {
            Command(command, env);
            e := Some(command);
          }
      }
    }


    /**
     The event loop. Whatever the inputs are, the engine goes through a run of
     possible events from its state, and all its invariants hold in the end.
     */
    method RunLoop(inputs: seq<Input>, readings: seq<Env>) returns (ghost occurrences: seq<Occurrence>)
      requires Invariant() && |readings| == |inputs|
      modifies this, hub
      ensures Invariant()
      ensures PossibleRun(old(State()), occurrences, true) && State() == Run(old(State()), occurrences, true)
    {
      hide InRange, Usable, Replay, Kept, Coupled, Accounted, Step, Means, Possible, TimerHub.Within;
      occurrences := [];
      var i := 0;
      while i < |inputs|
        invariant 0 <= i <= |inputs|
        invariant Invariant()
        invariant PossibleRun(old(State()), occurrences, true) && State() == Run(old(State()), occurrences, true)
      {
        ghost var before := State();
        ghost var e := Serve(inputs[i], readings[i]);
        if e.Some? {
          MeantIsPossible(before, inputs[i], e.value);
          StepKeepsAll(before, e.value, readings[i]);
          ghost var next := occurrences + [Occurrence(e.value, readings[i])];
          assert next[..|occurrences|] == occurrences;
          occurrences := next;
        }
        i := i + 1;
      }
    }

    /** The engine stops: it says goodbye if enabled and stops every timer, so that none can run any more. */
    method Shutdown()
      requires Invariant()
      modifies this, hub
      ensures hub.callbacks == map[] && hub.running == {}
      ensures State() == if old(enabled) then Emit(old(State()), Leave(nodeId)) else old(State())
    {
      assert hub.running == hub.callbacks.Keys by {
        assert Schedule().running == Schedule().callbacks.Keys by { AccountedIsOrderly(State(), measurements.Keys); }
      }
      if enabled {
        Log(Leave(nodeId));
      }
      hub.StopAll();
    }

  }

  lemma ChosenIsPeer(peers: map<NodeId, Peer>, sid: NodeId)
    requires Members(peers, sid) != {}
    ensures Chosen(sid, Members(peers, sid)) in peers
  {}
}