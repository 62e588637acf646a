/** Which commit wins (link/timeline.go:83-100, link/engine.go:660-671). */
module Commits {
  import opened Rounding
  import opened BeatGrid
  import opened Tempos
  import opened Timelines
  import opened NodeIds
  import opened PeerStates
  import opened Session
  import opened Bookkeeping
  import opened Convergence

  predicate IsCommit(e: Event) {
    e.SetTempo? || e.ForceBeat? || e.RequestBeat?
  }

  /** The host time a command commits at. */
  function CommitTime(c: Core, e: Event): Micros
    requires Sound(c) && IsCommit(e)
  {
    match e
    case SetTempo(_, at) => at
    case ForceBeat(_, at, _) => at
    case RequestBeat(beat, at, quantum) => RequestedTime(c, beat, at, quantum)
  }

  /** The beat of the session at the time a command commits. */
  function CommitBeat(c: Core, e: Event): Beats
    requires Sound(c) && IsCommit(e)
  {
    c.timeline.ToBeats(c.xform.HostToGhost(CommitTime(c, e)))
  }

  /** A commit that changes the session gives it this beat as origin, or the next origin if the beat is not beyond the old one. */
  ghost predicate OriginIsBeat(c: Core, r: Core, beat: Beats) {
    r.timeline == c.timeline
    || r.timeline.beatOrigin == if beat > c.timeline.beatOrigin then beat else c.timeline.beatOrigin + 1
  }

  lemma CommitOrigin(c: Core, client: Timeline, at: Micros, env: Env)
    requires Sound(c) && InRange(client.bpm)
    ensures var r := CommitClientTimeline(c.(client := client), at, env);
      && OriginIsBeat(c, r, c.timeline.ToBeats(c.xform.HostToGhost(at)))
      && (r.timeline != c.timeline ==> r.timeline.bpm == client.bpm && r.timeline.FromBeats(0) == c.xform.HostToGhost(client.timeOrigin))
      && r.out == c.out + (if c.enabled then [Announce(env.wall, CurrentPeerState(r))] else [])
  {
    hide UpdateSessionTimelineFromClient, UpdateSessionTiming, CacheTimeline, GhostXForm.HostToGhost, Timeline.ToBeats, Timeline.FromBeats,
      MicrosPerBeat, InRange;
    var tl := UpdateSessionTimelineFromClient(c.timeline, client, at, c.xform);
    SessionFollowsClient(c.timeline, client, at, c.xform);
    TimingKeeps(c.(client := client), tl, c.xform, env.update);
    ClampKeepsInRange(tl);
  }

  /** Every command that changes the session gives it the session's beat at its time as origin, if that is beyond the old one. */
  lemma CommandOrigin(c: Core, e: Event, env: Env)
    requires Sound(c) && IsCommit(e)
    ensures OriginIsBeat(c, Step(c, e, env, true), CommitBeat(c, e))
  {
    hide CommitClientTimeline, RequestedTime, ForceBeatWithRetry, WithTempo, GhostXForm.HostToGhost, Timeline.ToBeats, OriginIsBeat, InRange, Usable;
    match e
    case SetTempo(bpm, at) =>
      TempoChangeKeepsBeat(c.client, bpm, at);
      CommitOrigin(c, WithTempo(c.client, bpm, at), at, env);
    case ForceBeat(beat, at, quantum) =>
      ForcedBeatWithRetry(c.client, beat, at, quantum);
      CommitOrigin(c, ForceBeatWithRetry(c.client, beat, at, quantum), at, env);
    case RequestBeat(beat, at, quantum) =>
      var t := RequestedTime(c, beat, at, quantum);
      ForcedBeatWithRetry(c.client, beat, t, quantum);
      CommitOrigin(c, ForceBeatWithRetry(c.client, beat, t, quantum), t, env);
  }

  /** Of two commits to sessions with one beat origin, the one at the later session beat has the larger origin. */
  lemma LaterCommitIsNewer(c: Core, d: Core, e: Event, f: Event, env: Env, fnv: Env)
    requires Sound(c) && Sound(d) && IsCommit(e) && IsCommit(f) && c.timeline.beatOrigin == d.timeline.beatOrigin
    requires Step(d, f, fnv, true).timeline != d.timeline
    requires CommitBeat(c, e) < CommitBeat(d, f) && c.timeline.beatOrigin + 1 < CommitBeat(d, f)
    ensures Step(c, e, env, true).timeline.beatOrigin < Step(d, f, fnv, true).timeline.beatOrigin == CommitBeat(d, f)
  {
    hide Step, CommitBeat, InRange, Usable;
    CommandOrigin(c, e, env);
    CommandOrigin(d, f, fnv);
  }

  /** The network after two of its nodes committed before hearing of each other. */
  ghost function AfterBoth(n: Network, i: nat, e: Event, env: Env, j: nat, f: Event, fnv: Env): Network {
    Act(Act(n, Commit(i, e, env)), Commit(j, f, fnv))
  }

  /**
   When two nodes that hold the same timeline commit before hearing of each
   other, the commit at the later beat of the session is the one all nodes end
   up with, after one exchange.
   */
  lemma LaterCommitWins(n: Network, i: nat, e: Event, env: Env, j: nat, f: Event, fnv: Env, deeds: seq<Deed>, sid: NodeId)
    requires Together(n, sid) && i < |n.nodes| && j < |n.nodes| && i != j && IsCommit(e) && IsCommit(f)
    requires n.made == {GridOf(n.nodes[j].timeline)}
    requires Step(n.nodes[j], f, fnv, true).timeline != n.nodes[j].timeline
    requires CommitBeat(n.nodes[i], e) < CommitBeat(n.nodes[j], f) && n.nodes[j].timeline.beatOrigin + 1 < CommitBeat(n.nodes[j], f)
    requires forall d | d in deeds :: !d.Commit?
    requires AllHeard(AfterBoth(n, i, e, env, j, f, fnv), Spread(AfterBoth(n, i, e, env, j, f, fnv), deeds))
    ensures var r := Spread(AfterBoth(n, i, e, env, j, f, fnv), deeds);
      forall k | 0 <= k < |r.nodes| :: GridOf(r.nodes[k].timeline) == GridOf(Step(n.nodes[j], f, fnv, true).timeline)
  {
    hide Step, CommitBeat, Spread, Together, AllHeard, GridOf, InRange, Usable;
    var m := AfterBoth(n, i, e, env, j, f, fnv);
    AfterBothTogether(n, i, e, env, j, f, fnv, sid);
    NodesConverge(m, deeds, sid);
    var g := GridOf(Step(n.nodes[j], f, fnv, true).timeline);
    LaterCommitIsNewer(n.nodes[i], n.nodes[j], e, f, env, fnv);
    assert Newest(g, m.made) && forall h | Newest(h, m.made) :: h == g;
  }

  lemma AfterBothTogether(n: Network, i: nat, e: Event, env: Env, j: nat, f: Event, fnv: Env, sid: NodeId)
    requires Together(n, sid) && i < |n.nodes| && j < |n.nodes| && i != j && IsCommit(e) && IsCommit(f)
    requires n.made == {GridOf(n.nodes[j].timeline)}
    ensures var m := AfterBoth(n, i, e, env, j, f, fnv);
      && Together(m, sid)
      && m.made == {GridOf(n.nodes[j].timeline), GridOf(Step(n.nodes[i], e, env, true).timeline), GridOf(Step(n.nodes[j], f, fnv, true).timeline)}
      && n.nodes[i].timeline.beatOrigin == n.nodes[j].timeline.beatOrigin
      && Step(n.nodes[j], f, fnv, true).timeline.beatOrigin >= n.nodes[j].timeline.beatOrigin
  {
    hide Step, InSession, MessagesIn, MadeIn, GridOf, InRange, Usable;
    DeedKeeps(n, Commit(i, e, env), sid);
    DeedKeeps(Act(n, Commit(i, e, env)), Commit(j, f, fnv), sid);
    assert GridOf(n.nodes[i].timeline) in n.made;
    CommandOrigin(n.nodes[j], f, fnv);
  }
}
