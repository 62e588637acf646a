/**
 Timelines, ghost time and the phase encoding of beats
 (link/timeline.go, link/ghostxform.go).
 */
module Timelines {
  import opened Rounding
  import opened BeatGrid
  import opened Tempos

  /** Maps host time to the ghost time a session shares; the zero value signals a failed measurement. */
  datatype GhostXForm = GhostXForm(slope: real, intercept: Micros) {
    function HostToGhost(hostTime: Micros): Micros {
      Llround(slope * hostTime as real) + intercept
    }

    function GhostToHost(ghostTime: Micros): Micros
      requires slope != 0.0
    {
      Llround((ghostTime - intercept) as real / slope)
    }
  }

  const ZERO_XFORM := GhostXForm(0.0, 0)

  /** Ghost time 0 is now and advances with the host clock. */
  function InitXForm(now: Micros): GhostXForm {
    GhostXForm(1.0, -now)
  }

  /** At slope one the transform is an exact translation, so its two directions are inverses. */
  lemma UnitSlopeTranslates(x: GhostXForm, t: Micros)
    requires x.slope == 1.0
    ensures x.HostToGhost(t) == t + x.intercept
    ensures x.GhostToHost(t) == t - x.intercept
  {
    LlroundInteger(t);
    LlroundInteger(t - x.intercept);
    assert (t - x.intercept) as real / 1.0 == (t - x.intercept) as real;
  }

  datatype Timeline = Timeline(bpm: real, beatOrigin: Beats, timeOrigin: Micros) {
    function ToBeats(t: Micros): Beats
      requires Usable(bpm)
    {
      beatOrigin + MicrosToBeats(bpm, t - timeOrigin)
    }

    function FromBeats(b: Beats): Micros
      requires Usable(bpm)
    {
      timeOrigin + BeatsToMicros(bpm, b - beatOrigin)
    }
  }

  function ClampTempo(tl: Timeline): Timeline {
    tl.(bpm := Clamp(tl.bpm))
  }

  function ToPhaseEncodedBeats(tl: Timeline, t: Micros, quantum: Beats): Beats
    requires Usable(tl.bpm) && quantum > 0
  {
    var beat := tl.ToBeats(t);
    ClosestPhaseMatch(beat, beat - tl.beatOrigin, quantum)
  }

  function FromPhaseEncodedBeats(tl: Timeline, beat: Beats, quantum: Beats): Micros
    requires Usable(tl.bpm) && quantum > 0
  {
    var fromOrigin := beat - tl.beatOrigin;
    var originOffset := fromOrigin - Phase(fromOrigin, quantum);
    var inversePhaseOffset := ClosestPhaseMatch(
      quantum - Phase(fromOrigin, quantum), quantum - Phase(beat, quantum), quantum);
    tl.FromBeats(tl.beatOrigin + originOffset + quantum - inversePhaseOffset)
  }

  function ShiftClientTimeline(client: Timeline, shift: Beats): Timeline
    requires Usable(client.bpm)
  {
    client.(timeOrigin := client.timeOrigin - (client.FromBeats(shift) - client.FromBeats(0)))
  }

  function UpdateClientTimelineFromSession(curClient: Timeline, session: Timeline, atTime: Micros, xform: GhostXForm): Timeline
    requires Usable(curClient.bpm) && Usable(session.bpm) && xform.slope != 0.0
  {
    var tempTl := Timeline(session.bpm, curClient.ToBeats(atTime), atTime);
    var hostBeatZero := xform.GhostToHost(session.FromBeats(0));
    Timeline(tempTl.bpm, tempTl.ToBeats(hostBeatZero), hostBeatZero)
  }

  function UpdateSessionTimelineFromClient(curSession: Timeline, client: Timeline, atTime: Micros, xform: GhostXForm): Timeline
    requires Usable(curSession.bpm) && Usable(client.bpm)
  {
    var ghostBeat0 := xform.HostToGhost(client.timeOrigin);
    if curSession.ToBeats(ghostBeat0) == 0 && client.bpm == curSession.bpm then curSession
    else
      var tempTl := Timeline(client.bpm, 0, ghostBeat0);
      var atBeat := curSession.ToBeats(xform.HostToGhost(atTime));
      var newBeatOrigin := if atBeat < curSession.beatOrigin + 1 then curSession.beatOrigin + 1 else atBeat;
      Timeline(client.bpm, newBeatOrigin, tempTl.FromBeats(newBeatOrigin))
  }

  function ForceBeatAtTimeImpl(tl: Timeline, beat: Beats, t: Micros, quantum: Beats): Timeline
    requires Usable(tl.bpm) && quantum > 0
  {
    var curBeatAtTime := ToPhaseEncodedBeats(tl, t, quantum);
    var closestInPhase := ClosestPhaseMatch(curBeatAtTime, beat, quantum);
    var shifted := ShiftClientTimeline(tl, closestInPhase - curBeatAtTime);
    shifted.(beatOrigin := shifted.beatOrigin + beat - closestInPhase)
  }

  // ----- Phase encoding -----

  /** The constant by which phase encoding translates the beats of a timeline. */
  function EncodingOffset(beatOrigin: Beats, quantum: Beats): Beats
    requires quantum > 0
  {
    (HalfOffset(quantum) - beatOrigin) % quantum - HalfOffset(quantum)
  }

  /** The offset is the one value in [-h, q-h) congruent to minus the beat origin. */
  lemma EncodingOffsetIsUnique(beatOrigin: Beats, quantum: Beats)
    requires quantum > 0
    ensures var d, h, target := EncodingOffset(beatOrigin, quantum), HalfOffset(quantum), -beatOrigin;
      && -h <= d < quantum - h
      && Congruent(d, target, quantum)
      && forall y | -h <= y < quantum - h && Congruent(y, target, quantum) :: y == d
  {
    var d, h, target := EncodingOffset(beatOrigin, quantum), HalfOffset(quantum), -beatOrigin;
    hide HalfOffset;
    var k := (h - beatOrigin) / quantum;
    assert h - beatOrigin == quantum * k + (d + h);
    assert d - target == quantum * -k;
    hide EncodingOffset;
    forall y | -h <= y < quantum - h && Congruent(y, target, quantum) ensures y == d {
      LeastAbove(d, y, target, quantum);
      LeastAbove(y, d, target, quantum);
    }
  }

  /** Encoding is a translation by a constant that does not depend on the time. */
  lemma PhaseEncodingTranslates(tl: Timeline, t: Micros, quantum: Beats)
    requires Usable(tl.bpm) && quantum > 0
    ensures ToPhaseEncodedBeats(tl, t, quantum) == tl.ToBeats(t) + EncodingOffset(tl.beatOrigin, quantum)
  {
    var beat := tl.ToBeats(t);
    ClosestPhaseMatchForm(beat, beat - tl.beatOrigin, quantum);
    hide ClosestPhaseMatch, HalfOffset, MicrosToBeats, Usable;
    assert beat - tl.beatOrigin - beat + HalfOffset(quantum) == HalfOffset(quantum) - tl.beatOrigin;
  }

  lemma RemaindersDiffer(b: int, origin: int, h: int, q: int)
    requires q > 0
    ensures ((b - origin) % q - b % q + h) % q == (h - origin) % q
  {
    var i, j, u, v := (b - origin) / q, b / q, (b - origin) % q, b % q;
    assert b - origin == q * i + u && b == q * j + v;
    assert u - v + h == (h - origin) + (j - i) * q;
    ShiftKeepsRemainder(h - origin, j - i, q);
  }

  /** Decoding undoes that same translation before mapping to time. */
  lemma PhaseDecodingTranslates(tl: Timeline, beat: Beats, quantum: Beats)
    requires Usable(tl.bpm) && quantum > 0
    ensures FromPhaseEncodedBeats(tl, beat, quantum) == tl.FromBeats(beat - EncodingOffset(tl.beatOrigin, quantum))
  {
    var h, q := HalfOffset(quantum), quantum;
    var u, v := Phase(beat - tl.beatOrigin, q), Phase(beat, q);
    PhaseIsRemainder(beat - tl.beatOrigin, q);
    PhaseIsRemainder(beat, q);
    ClosestPhaseMatchForm(q - u, q - v, q);
    hide Phase, ClosestPhaseMatch, HalfOffset, BeatsToMicros, Usable;
    assert q - v - (q - u) + h == u - v + h;
    RemaindersDiffer(beat, tl.beatOrigin, h, q);
  }

  /** The offset only depends on the grid position of the beat origin. */
  lemma OffsetOfCongruentOrigins(a: Beats, b: Beats, quantum: Beats)
    requires quantum > 0 && Congruent(a, b, quantum)
    ensures EncodingOffset(a, quantum) == EncodingOffset(b, quantum)
  {
    var h := HalfOffset(quantum);
    hide HalfOffset;
    var k :| a - b == quantum * k;
    assert h - b == h - a + k * quantum;
    ShiftKeepsRemainder(h - a, k, quantum);
  }

  /**
   Decoding an encoded time gives the time back: exactly at or above 60 BPM,
   within 2 microseconds at any tempo of at least 20 BPM.
   */
  lemma DecodeOfEncode(tl: Timeline, t: Micros, quantum: Beats)
    requires Usable(tl.bpm) && quantum > 0
    ensures var decoded := FromPhaseEncodedBeats(tl, ToPhaseEncodedBeats(tl, t, quantum), quantum);
      && decoded == tl.FromBeats(tl.ToBeats(t))
      && (MicrosPerBeat(tl.bpm) <= MICRO ==> decoded == t)
      && (MicrosPerBeat(tl.bpm) <= 3000000 ==> Abs(decoded - t) <= 2)
  {
    PhaseEncodingTranslates(tl, t, quantum);
    PhaseDecodingTranslates(tl, ToPhaseEncodedBeats(tl, t, quantum), quantum);
    hide ToPhaseEncodedBeats, FromPhaseEncodedBeats, EncodingOffset, MicrosPerBeat, BeatsOf, MicrosOf;
    BackToMicros(MicrosPerBeat(tl.bpm), t - tl.timeOrigin);
  }

  /**
   Encoding a decoded beat gives the beat back: exactly at or below 60 BPM,
   within 8 micro-beats at any tempo of at most 999 BPM.
   */
  lemma EncodeOfDecode(tl: Timeline, beat: Beats, quantum: Beats)
    requires Usable(tl.bpm) && quantum > 0
    ensures var encoded := ToPhaseEncodedBeats(tl, FromPhaseEncodedBeats(tl, beat, quantum), quantum);
      && (MicrosPerBeat(tl.bpm) >= MICRO ==> encoded == beat)
      && (MicrosPerBeat(tl.bpm) >= 60060 ==> Abs(encoded - beat) <= 8)
  {
    var p := MicrosPerBeat(tl.bpm);
    PhaseDecodingTranslates(tl, beat, quantum);
    PhaseEncodingTranslates(tl, FromPhaseEncodedBeats(tl, beat, quantum), quantum);
    hide ToPhaseEncodedBeats, FromPhaseEncodedBeats, EncodingOffset, MicrosPerBeat, BeatsOf, MicrosOf;
    var b := beat - EncodingOffset(tl.beatOrigin, quantum) - tl.beatOrigin;
    BackToBeats(p, b);
    if p >= 60060 {
      ErrorAtMostEight(p, Abs(BeatsOf(p, MicrosOf(p, b)) - b));
    }
  }

  lemma ErrorAtMostEight(p: int, n: nat)
    requires p >= 60060 && 2 * (p * n) <= 1000000 + p
    ensures n <= 8
  {
    if n >= 9 {
      assert p * n == 9 * p + p * (n - 9);
      NonNegativeProduct(p, n - 9);
    }
  }

  lemma NonNegativeProduct(a: nat, b: nat)
    ensures a * b >= 0
  {}

  // ----- Client and session timelines -----

  /** A client timeline anchored at its session's beat 0: within 2 microseconds, exactly from 60 BPM up. */
  ghost predicate Anchored(client: Timeline, session: Timeline, xform: GhostXForm)
    requires Usable(session.bpm)
  {
    var beatZero := session.FromBeats(0);
    && Abs(xform.HostToGhost(client.timeOrigin) - beatZero) <= 2
    && (MicrosPerBeat(session.bpm) <= MICRO ==> xform.HostToGhost(client.timeOrigin) == beatZero)
  }

  /** A ghost time that the session maps to beat 0 is where the session places beat 0. */
  lemma BeatZeroIsNear(session: Timeline, ghost0: Micros)
    requires InRange(session.bpm) && Usable(session.bpm) && session.ToBeats(ghost0) == 0
    ensures Abs(ghost0 - session.FromBeats(0)) <= 2
    ensures MicrosPerBeat(session.bpm) <= MICRO ==> ghost0 == session.FromBeats(0)
  {
    InRangeMicros(session.bpm);
    BackToMicros(MicrosPerBeat(session.bpm), ghost0 - session.timeOrigin);
  }

  /**
   Following a session keeps the client's beat at the instant of the update,
   takes the session's tempo and puts the client's origin on session beat 0.
   */
  lemma ClientFollowsSession(cur: Timeline, session: Timeline, at: Micros, xform: GhostXForm)
    requires Usable(cur.bpm) && Usable(session.bpm) && xform.slope == 1.0
    ensures var r := UpdateClientTimelineFromSession(cur, session, at, xform);
      && r.bpm == session.bpm
      && r.ToBeats(at) == cur.ToBeats(at)
      && xform.HostToGhost(r.timeOrigin) == session.FromBeats(0)
  {
    var g := session.FromBeats(0);
    UnitSlopeTranslates(xform, g);
    var zero := xform.GhostToHost(g);
    UnitSlopeTranslates(xform, zero);
    hide GhostXForm.GhostToHost, GhostXForm.HostToGhost;
    ConversionsAreOdd(MicrosPerBeat(session.bpm), at - zero, 0);
    assert -(at - zero) == zero - at;
    hide MicrosPerBeat, BeatsOf, MicrosOf;
  }

  /** A client already anchored exactly on its session is a fixpoint of following it. */
  lemma AnchoredClientIsFixpoint(client: Timeline, session: Timeline, at: Micros, xform: GhostXForm)
    requires Usable(client.bpm) && client.bpm == session.bpm && xform.slope == 1.0
    requires xform.HostToGhost(client.timeOrigin) == session.FromBeats(0)
    ensures UpdateClientTimelineFromSession(client, session, at, xform) == client
  {
    ClientFollowsSession(client, session, at, xform);
    var r := UpdateClientTimelineFromSession(client, session, at, xform);
    UnitSlopeTranslates(xform, r.timeOrigin);
    UnitSlopeTranslates(xform, client.timeOrigin);
    hide UpdateClientTimelineFromSession, MicrosPerBeat, BeatsOf, MicrosOf;
    assert r.timeOrigin == client.timeOrigin;
  }

  /**
   Committing a client timeline either leaves the session alone, when client
   and session already agree on beat 0 and tempo, or yields a strictly larger
   beat origin whose beat 0 is exactly the client's origin: the session's beat
   at the time of the commit, or the next origin if that beat is not beyond it.
   */
  lemma SessionFollowsClient(session: Timeline, client: Timeline, at: Micros, xform: GhostXForm)
    requires Usable(session.bpm) && Usable(client.bpm)
    ensures var r := UpdateSessionTimelineFromClient(session, client, at, xform);
      var ghost0 := xform.HostToGhost(client.timeOrigin);
      && (r == session <==> session.ToBeats(ghost0) == 0 && client.bpm == session.bpm)
      && (r != session ==> r.bpm == client.bpm && r.beatOrigin > session.beatOrigin && r.FromBeats(0) == ghost0)
      && (r != session ==> var atBeat := session.ToBeats(xform.HostToGhost(at));
            r.beatOrigin == if atBeat > session.beatOrigin then atBeat else session.beatOrigin + 1)
  {
    var r := UpdateSessionTimelineFromClient(session, client, at, xform);
    ConversionsAreOdd(MicrosPerBeat(client.bpm), 0, r.beatOrigin);
    hide MicrosPerBeat, BeatsOf, MicrosOf, GhostXForm.HostToGhost;
  }

  /**
   Committing the same client again changes nothing exactly when some whole
   microsecond stands for the new beat origin; this always holds up to 60 BPM.
   In numbers: the origin times the length of a beat is near enough to a
   multiple of 1,000,000.
   */
  lemma CommitIsIdempotentIff(session: Timeline, client: Timeline, at: Micros, again: Micros, xform: GhostXForm)
    requires Usable(session.bpm) && Usable(client.bpm)
    requires UpdateSessionTimelineFromClient(session, client, at, xform) != session
    ensures var r := UpdateSessionTimelineFromClient(session, client, at, xform);
      var p := MicrosPerBeat(client.bpm);
      && (UpdateSessionTimelineFromClient(r, client, again, xform) == r <==> HasMicro(p, r.beatOrigin))
      && (p >= MICRO ==> UpdateSessionTimelineFromClient(r, client, again, xform) == r)
  {
    var r := UpdateSessionTimelineFromClient(session, client, at, xform);
    var p := MicrosPerBeat(client.bpm);
    SessionFollowsClient(session, client, at, xform);
    SessionFollowsClient(r, client, again, xform);
    hide UpdateSessionTimelineFromClient, MicrosPerBeat, BeatsOf, MicrosOf, GhostXForm.HostToGhost, HasMicro;
    assert xform.HostToGhost(client.timeOrigin) - r.timeOrigin == MicrosOf(p, 0 - r.beatOrigin);
    assert 0 - r.beatOrigin == -r.beatOrigin;
    ConversionsAreOdd(p, MicrosOf(p, r.beatOrigin), r.beatOrigin);
    BackToBeatsIff(p, r.beatOrigin);
    BackToBeats(p, r.beatOrigin);
  }

  /** Faster than 60 BPM an unchanged client can be committed anew: here the second commit is not a no-op. */
  lemma CommitIsNotIdempotent()
    ensures Usable(120.0) && Usable(999.0)
    ensures var session, client, xform := Timeline(120.0, 0, 0), Timeline(999.0, 0, 0), GhostXForm(1.0, 0);
      var r := UpdateSessionTimelineFromClient(session, client, 0, xform);
      Usable(r.bpm) && UpdateSessionTimelineFromClient(r, client, 0, xform) != r
  {
    hide MicrosPerBeat, GhostXForm.HostToGhost, RoundDiv;
    Micros999();
    InRangeMicros(120.0);
    UnitSlopeTranslates(GhostXForm(1.0, 0), 0);
    RoundIff(0, MicrosPerBeat(120.0), 0);
    RoundIff(0, 60060, 0);
    RoundIff(60060, MICRO, 0);
  }

  // ----- Forcing a beat -----

  lemma ShiftError(p: int, n: Micros, shift: Beats, origin: Beats)
    requires p > 0
    ensures var delta := MicrosOf(p, shift - origin) - MicrosOf(p, -origin);
      p * Abs(BeatsOf(p, n + delta) - BeatsOf(p, n) - shift) <= 1000000 + p
  {
    var a, b := MicrosOf(p, shift - origin), MicrosOf(p, -origin);
    ConversionBounds(p, 0, shift - origin);
    ConversionBounds(p, 0, -origin);
    BeatStep(p, n, a - b);
    hide MicrosOf, BeatsOf;
    ShiftArithmetic(p, a, b, BeatsOf(p, n + (a - b)) - BeatsOf(p, n), shift, origin);
  }

  lemma ShiftArithmetic(p: int, a: int, b: int, step: int, shift: int, origin: int)
    requires p > 0
    requires -1000000 <= 2000000 * a - 2 * (p * (shift - origin)) <= 1000000
    requires -1000000 <= 2000000 * b - 2 * (p * -origin) <= 1000000
    requires -p <= p * step - 1000000 * (a - b) <= p
    ensures p * Abs(step - shift) <= 1000000 + p
  {
    assert p * (shift - origin) == p * shift - p * origin;
    assert p * -origin == -(p * origin);
    assert p * (step - shift) == p * step - p * shift;
    assert p * (shift - step) == p * shift - p * step;
  }

  /**
   Shifting a timeline moves the beat at any time by the shift up to the
   rounding of the time difference, so the shift is not exact in general.
   */
  lemma ShiftIsNearlyExact(client: Timeline, shift: Beats, t: Micros)
    requires Usable(client.bpm)
    ensures var p := MicrosPerBeat(client.bpm);
      p * Abs(ShiftClientTimeline(client, shift).ToBeats(t) - client.ToBeats(t) - shift) <= 1000000 + p
  {
    var p := MicrosPerBeat(client.bpm);
    ShiftError(p, t - client.timeOrigin, shift, client.beatOrigin);
    hide MicrosPerBeat, BeatsOf, MicrosOf;
    var delta := MicrosOf(p, shift - client.beatOrigin) - MicrosOf(p, -client.beatOrigin);
    var s := ShiftClientTimeline(client, shift);
    assert 0 - client.beatOrigin == -client.beatOrigin;
    assert s.timeOrigin == client.timeOrigin - delta;
    assert t - s.timeOrigin == t - client.timeOrigin + delta;
  }

  /** Whether every shift of every timeline of this tempo is exact at every time, as documented. */
  ghost predicate ShiftsExactly(bpm: real)
    requires Usable(bpm)
  {
    forall origin, zero, shift, t ::
      ShiftClientTimeline(Timeline(bpm, origin, zero), shift).ToBeats(t) == Timeline(bpm, origin, zero).ToBeats(t) + shift
  }

  /** With an odd number of seconds per beat nothing is ever rounded at a tie, and every shift is a whole time. */
  lemma OddSecondsShiftExactly(k: int, n: Micros, shift: Beats, origin: Beats)
    requires k > 0 && k % 2 == 1
    ensures var p := MICRO * k;
      BeatsOf(p, n + MicrosOf(p, shift - origin) - MicrosOf(p, -origin)) == BeatsOf(p, n) + shift
  {
    hide RoundDiv, MicrosOf, Nearest;
    var p := MICRO * k;
    WholeSeconds(k, shift - origin);
    WholeSeconds(k, -origin);
    assert (shift - origin) * k - -origin * k == shift * k;
    var r := BeatsOf(p, n);
    RoundIff(n * MICRO, p, r);
    NearestShifted(k, n, shift, r);
    RoundIff((n + shift * k) * MICRO, p, r + shift);
  }

  lemma NearestShifted(k: int, n: Micros, shift: Beats, r: Beats)
    requires k > 0 && k % 2 == 1 && Nearest(n * MICRO, MICRO * k, r)
    ensures Nearest((n + shift * k) * MICRO, MICRO * k, r + shift)
  {
    assert MICRO * k * r == MICRO * (k * r);
    assert MICRO * k * (r + shift) == MICRO * (k * r) + MICRO * (shift * k);
    NoTie(k, k * r - n);
  }

  lemma WholeSeconds(k: int, b: Beats)
    ensures MicrosOf(MICRO * k, b) == b * k
  {
    assert b * (MICRO * k) == MICRO * (b * k);
    RoundExact(b * k, MICRO);
  }

  lemma NoTie(k: int, x: int)
    requires k % 2 == 1
    ensures 2 * x != k && 2 * x != -k
  {}

  /** With an even number of seconds per beat half a beat is a whole time, where rounding moves apart. */
  lemma EvenSecondsDiffer(j: int)
    requires j > 0
    ensures var p := MICRO * (2 * j); BeatsOf(p, -j + MicrosOf(p, 1)) == BeatsOf(p, -j) + 2
  {
    hide RoundDiv;
    var p := MICRO * (2 * j);
    WholeSeconds(2 * j, 1);
    RoundIff(-j * MICRO, p, -1);
    RoundIff(j * MICRO, p, 1);
  }

  lemma {:induction false} EqualSteps(p: int, c: Micros, k: nat)
    requires p > 0 && forall n :: BeatsOf(p, n + c) == BeatsOf(p, n) + 1
    ensures BeatsOf(p, k * c) == k
  {
    if k == 0 {
      RoundExact(0, p);
    } else {
      EqualSteps(p, c, k - 1);
      hide BeatsOf;
      assert k * c == (k - 1) * c + c;
    }
  }

  /** A time whose steps are exactly one micro-beat each is as long as a micro-beat. */
  lemma EqualStepsAreWhole(p: int, c: Micros)
    requires p > 0 && forall n :: BeatsOf(p, n + c) == BeatsOf(p, n) + 1
    ensures p == MICRO * c
  {
    EqualSteps(p, c, p);
    assert (p * c) * MICRO == p * (c * MICRO);
    RoundExact(c * MICRO, p);
    hide RoundDiv;
  }

  lemma ExactShiftSteps(bpm: real, n: Micros)
    requires Usable(bpm) && ShiftsExactly(bpm)
    ensures var p := MicrosPerBeat(bpm); BeatsOf(p, n + MicrosOf(p, 1)) == BeatsOf(p, n) + 1
  {
    hide MicrosPerBeat, BeatsOf, MicrosOf;
    var tl := Timeline(bpm, 0, 0);
    assert ShiftClientTimeline(tl, 1).ToBeats(n) == tl.ToBeats(n) + 1;
    ConversionsAreOdd(MicrosPerBeat(bpm), 0, 0);
    assert ShiftClientTimeline(tl, 1).timeOrigin == -MicrosOf(MicrosPerBeat(bpm), 1);
  }

  lemma OddSecondsAreExact(bpm: real, origin: Beats, zero: Micros, shift: Beats, t: Micros)
    requires Usable(bpm) && MicrosPerBeat(bpm) % (2 * MICRO) == MICRO
    ensures ShiftClientTimeline(Timeline(bpm, origin, zero), shift).ToBeats(t) == Timeline(bpm, origin, zero).ToBeats(t) + shift
  {
    hide MicrosPerBeat, BeatsOf, MicrosOf;
    var p := MicrosPerBeat(bpm);
    var k := p / MICRO;
    assert p == MICRO * k && k % 2 == 1;
    OddSecondsShiftExactly(k, t - zero, shift, origin);
    assert 0 - origin == -origin;
    var s := ShiftClientTimeline(Timeline(bpm, origin, zero), shift);
    assert t - s.timeOrigin == t - zero + MicrosOf(p, shift - origin) - MicrosOf(p, -origin);
  }

  lemma ExactTempoHasOddSeconds(bpm: real)
    requires Usable(bpm) && ShiftsExactly(bpm)
    ensures MicrosPerBeat(bpm) % (2 * MICRO) == MICRO
  {
    hide MicrosPerBeat, BeatsOf, MicrosOf, ShiftsExactly;
    var p := MicrosPerBeat(bpm);
    var c := MicrosOf(p, 1);
    forall n ensures BeatsOf(p, n + c) == BeatsOf(p, n) + 1 {
      ExactShiftSteps(bpm, n);
    }
    EqualStepsAreWhole(p, c);
    if c % 2 == 0 {
      EvenSecondsDiffer(c / 2);
    }
  }

  /**
   The documented equality of a shift holds for a tempo exactly when a beat
   takes an odd number of whole seconds: in range, at 60 and at 20 BPM.
   */
  lemma ShiftIsExactIff(bpm: real)
    requires Usable(bpm)
    ensures ShiftsExactly(bpm) <==> MicrosPerBeat(bpm) % (2 * MICRO) == MICRO
    ensures InRange(bpm) ==> (ShiftsExactly(bpm) <==> MicrosPerBeat(bpm) == MICRO || MicrosPerBeat(bpm) == 3 * MICRO)
  {
    hide MicrosPerBeat, Timeline.ToBeats, Timeline.FromBeats, InRange;
    if InRange(bpm) {
      InRangeMicros(bpm);
    }
    if MicrosPerBeat(bpm) % (2 * MICRO) == MICRO {
      forall origin, zero, shift, t
        ensures ShiftClientTimeline(Timeline(bpm, origin, zero), shift).ToBeats(t) == Timeline(bpm, origin, zero).ToBeats(t) + shift {
        OddSecondsAreExact(bpm, origin, zero, shift, t);
      }
    } else if ShiftsExactly(bpm) {
      ExactTempoHasOddSeconds(bpm);
    }
  }

  /** The documented equality of a shift fails here: a micro-beat at 999 BPM is no time at all. */
  lemma ShiftIsNotExact()
    ensures Usable(999.0)
    ensures var tl := Timeline(999.0, 0, 0); ShiftClientTimeline(tl, 1).ToBeats(0) != tl.ToBeats(0) + 1
  {
    Micros999();
    RoundIff(60060, MICRO, 0);
    RoundIff(0, MICRO, 0);
    RoundIff(0, 60060, 0);
    hide MicrosPerBeat, RoundDiv;
  }

  /** The error a forced beat is left with is that of the shift; the encoding itself adds none. */
  lemma ForcedBeatIsNearlyExact(tl: Timeline, beat: Beats, t: Micros, quantum: Beats)
    requires Usable(tl.bpm) && quantum > 0
    ensures var r := ForceBeatAtTimeImpl(tl, beat, t, quantum);
      var cur := ToPhaseEncodedBeats(tl, t, quantum);
      var shift := ClosestPhaseMatch(cur, beat, quantum) - cur;
      var e := ShiftClientTimeline(tl, shift).ToBeats(t) - tl.ToBeats(t) - shift;
      && r.bpm == tl.bpm
      && ToPhaseEncodedBeats(r, t, quantum) == beat + e
      && MicrosPerBeat(tl.bpm) * Abs(e) <= 1000000 + MicrosPerBeat(tl.bpm)
  {
    hide ToPhaseEncodedBeats, ClosestPhaseMatch, EncodingOffset, MicrosPerBeat, BeatsOf, MicrosOf, Timeline.FromBeats;
    var cur := ToPhaseEncodedBeats(tl, t, quantum);
    var closest := ClosestPhaseMatch(cur, beat, quantum);
    var r := ForceBeatAtTimeImpl(tl, beat, t, quantum);
    ShiftIsNearlyExact(tl, closest - cur, t);
    PhaseEncodingTranslates(tl, t, quantum);
    PhaseEncodingTranslates(r, t, quantum);
    ClosestPhaseMatchIsUnique(cur, beat, quantum);
    CongruentSwap(closest, beat, r.beatOrigin, tl.beatOrigin, quantum);
    OffsetOfCongruentOrigins(r.beatOrigin, tl.beatOrigin, quantum);
  }

  lemma CongruentSwap(a: Beats, b: Beats, c: Beats, d: Beats, q: Beats)
    requires Congruent(a, b, q) && c - d == b - a
    ensures Congruent(c, d, q)
  {
    var k :| a - b == q * k;
    assert c - d == q * -k;
  }

  /**
   Forcing a beat moves the beat at every time by what it was off at the forced
   time, up to a rounding error, and keeps the beat origin on its grid.
   */
  lemma ForcedBeatMovesBy(tl: Timeline, beat: Beats, t: Micros, quantum: Beats, s: Micros)
    requires Usable(tl.bpm) && quantum > 0
    ensures var r := ForceBeatAtTimeImpl(tl, beat, t, quantum);
      var moved := r.ToBeats(s) - tl.ToBeats(s) - (beat - ToPhaseEncodedBeats(tl, t, quantum));
      && r.bpm == tl.bpm
      && Congruent(r.beatOrigin, tl.beatOrigin, quantum)
      && MicrosPerBeat(tl.bpm) * Abs(moved) <= 1000000 + MicrosPerBeat(tl.bpm)
  {
    hide ToPhaseEncodedBeats, ClosestPhaseMatch, EncodingOffset, MicrosPerBeat, BeatsOf, MicrosOf, Timeline.FromBeats;
    var cur := ToPhaseEncodedBeats(tl, t, quantum);
    var closest := ClosestPhaseMatch(cur, beat, quantum);
    ShiftIsNearlyExact(tl, closest - cur, s);
    ClosestPhaseMatchIsUnique(cur, beat, quantum);
    CongruentSwap(closest, beat, ForceBeatAtTimeImpl(tl, beat, t, quantum).beatOrigin, tl.beatOrigin, quantum);
  }

  /** Forcing a beat with the second attempt one microsecond later, as the engine does it. */
  function ForceBeatWithRetry(tl: Timeline, beat: Beats, at: Micros, quantum: Beats): Timeline
    requires Usable(tl.bpm) && quantum > 0
  {
    var first := ForceBeatAtTimeImpl(tl, beat, at, quantum);
    if ToPhaseEncodedBeats(first, at, quantum) > beat then ForceBeatAtTimeImpl(first, beat, at + 1, quantum) else first
  }

  /** What holds of the beat one microsecond before a time at which it is nearly forced. */
  lemma OneMicroEarlier(r: Timeline, beat: Beats, at: Micros, quantum: Beats)
    requires Usable(r.bpm) && quantum > 0
    requires var p := MicrosPerBeat(r.bpm); p * Abs(ToPhaseEncodedBeats(r, at + 1, quantum) - beat) <= 1000000 + p
    ensures var encoded := ToPhaseEncodedBeats(r, at, quantum);
      && encoded <= beat + 2
      && MicrosPerBeat(r.bpm) * (beat - encoded) <= 2000000 + 2 * MicrosPerBeat(r.bpm)
  {
    hide ToPhaseEncodedBeats, EncodingOffset, MicrosPerBeat, BeatsOf, MicrosOf;
    var p := MicrosPerBeat(r.bpm);
    EncodedStep(r, at, quantum);
    var e := ToPhaseEncodedBeats(r, at + 1, quantum) - beat;
    var step := ToPhaseEncodedBeats(r, at + 1, quantum) - ToPhaseEncodedBeats(r, at, quantum);
    ErrorsAdd(p, e, step);
    assert step - e == beat - ToPhaseEncodedBeats(r, at, quantum);
  }

  /** The encoded beat advances by a microsecond's worth from one microsecond to the next. */
  lemma EncodedStep(r: Timeline, at: Micros, quantum: Beats)
    requires Usable(r.bpm) && quantum > 0
    ensures var p, step := MicrosPerBeat(r.bpm), ToPhaseEncodedBeats(r, at + 1, quantum) - ToPhaseEncodedBeats(r, at, quantum);
      -p <= p * step - 1000000 <= p
  {
    hide ToPhaseEncodedBeats, EncodingOffset, MicrosPerBeat, BeatsOf, MicrosOf;
    PhaseEncodingTranslates(r, at, quantum);
    PhaseEncodingTranslates(r, at + 1, quantum);
    BeatStep(MicrosPerBeat(r.bpm), at - r.timeOrigin, 1);
    assert at + 1 - r.timeOrigin == at - r.timeOrigin + 1;
  }

  /** After the retry the beat at the requested time is at most two micro-beats late and never far early. */
  lemma ForcedBeatWithRetry(tl: Timeline, beat: Beats, at: Micros, quantum: Beats)
    requires Usable(tl.bpm) && quantum > 0
    ensures var r := ForceBeatWithRetry(tl, beat, at, quantum);
      var p := MicrosPerBeat(tl.bpm);
      && r.bpm == tl.bpm
      && var encoded := ToPhaseEncodedBeats(r, at, quantum);
      && encoded <= beat + 2
      && p * (beat - encoded) <= 2000000 + 2 * p
  {
    hide ToPhaseEncodedBeats, ClosestPhaseMatch, ForceBeatAtTimeImpl, MicrosPerBeat, Timeline.ToBeats;
    var p := MicrosPerBeat(tl.bpm);
    var first := ForceBeatAtTimeImpl(tl, beat, at, quantum);
    ForcedBeatIsNearlyExact(tl, beat, at, quantum);
    if ToPhaseEncodedBeats(first, at, quantum) > beat {
      ForcedBeatIsNearlyExact(first, beat, at + 1, quantum);
      OneMicroEarlier(ForceBeatAtTimeImpl(first, beat, at + 1, quantum), beat, at, quantum);
    } else {
      var e := ToPhaseEncodedBeats(first, at, quantum) - beat;
      AbsBound(p, e);
      assert -e == beat - ToPhaseEncodedBeats(first, at, quantum);
    }
  }

  lemma ErrorAtMost17(p: int, n: int)
    requires p >= 60060 && p * n <= 1000000 + p
    ensures n <= 17
  {
    if n >= 18 {
      assert p * n == 18 * p + p * (n - 18);
      NonNegativeProduct(p, n - 18);
    }
  }

  lemma CongruentTransitive(a: Beats, b: Beats, c: Beats, q: Beats)
    requires Congruent(a, b, q) && Congruent(b, c, q)
    ensures Congruent(a, c, q)
  {
    var i :| a - b == q * i;
    var j :| b - c == q * j;
    assert a - c == q * (i + j);
  }

  /** What one attempt leaves of the beat at the requested time and a microsecond later. */
  lemma AttemptIsClose(tl: Timeline, beat: Beats, at: Micros, quantum: Beats)
    requires Usable(tl.bpm) && MicrosPerBeat(tl.bpm) >= 60060 && quantum > 0
    ensures var r := ForceBeatAtTimeImpl(tl, beat, at, quantum);
      && r.bpm == tl.bpm
      && Abs(ToPhaseEncodedBeats(r, at, quantum) - beat) <= 17
      && Abs(ToPhaseEncodedBeats(r, at + 1, quantum) - beat) <= 34
  {
    hide ToPhaseEncodedBeats, ClosestPhaseMatch, ForceBeatAtTimeImpl, MicrosPerBeat, Timeline.ToBeats;
    var p, r := MicrosPerBeat(tl.bpm), ForceBeatAtTimeImpl(tl, beat, at, quantum);
    ForcedBeatIsNearlyExact(tl, beat, at, quantum);
    ErrorAtMost17(p, Abs(ToPhaseEncodedBeats(r, at, quantum) - beat));
    EncodedStep(r, at, quantum);
    var step := ToPhaseEncodedBeats(r, at + 1, quantum) - ToPhaseEncodedBeats(r, at, quantum);
    ErrorAtMost17(p, step);
    StepForward(p, step);
  }

  lemma AttemptMovesBy(tl: Timeline, beat: Beats, at: Micros, quantum: Beats, s: Micros)
    requires Usable(tl.bpm) && MicrosPerBeat(tl.bpm) >= 60060 && quantum > 0
    ensures var r := ForceBeatAtTimeImpl(tl, beat, at, quantum);
      && r.bpm == tl.bpm
      && Congruent(r.beatOrigin, tl.beatOrigin, quantum)
      && Abs(r.ToBeats(s) - tl.ToBeats(s) - (beat - ToPhaseEncodedBeats(tl, at, quantum))) <= 17
  {
    hide ToPhaseEncodedBeats, ClosestPhaseMatch, ForceBeatAtTimeImpl, MicrosPerBeat, Timeline.ToBeats, Congruent;
    ForcedBeatMovesBy(tl, beat, at, quantum, s);
    var r := ForceBeatAtTimeImpl(tl, beat, at, quantum);
    ErrorAtMost17(MicrosPerBeat(tl.bpm), Abs(r.ToBeats(s) - tl.ToBeats(s) - (beat - ToPhaseEncodedBeats(tl, at, quantum))));
  }

  /**
   Over both attempts the beat at every time moves by what it was off at the
   requested time, within 68 micro-beats, and the beat origin stays on its grid.
   */
  lemma ForcedGridWithRetry(tl: Timeline, beat: Beats, at: Micros, quantum: Beats, s: Micros)
    requires InRange(tl.bpm) && Usable(tl.bpm) && quantum > 0
    ensures var r := ForceBeatWithRetry(tl, beat, at, quantum);
      && r.bpm == tl.bpm
      && Congruent(r.beatOrigin, tl.beatOrigin, quantum)
      && Abs(r.ToBeats(s) - tl.ToBeats(s) - (beat - ToPhaseEncodedBeats(tl, at, quantum))) <= 68
  {
    hide ToPhaseEncodedBeats, ForceBeatAtTimeImpl, MicrosPerBeat, Timeline.ToBeats, Congruent;
    InRangeMicros(tl.bpm);
    var first := ForceBeatAtTimeImpl(tl, beat, at, quantum);
    AttemptMovesBy(tl, beat, at, quantum, s);
    if ToPhaseEncodedBeats(first, at, quantum) > beat {
      AttemptIsClose(tl, beat, at, quantum);
      AttemptMovesBy(first, beat, at + 1, quantum, s);
      CongruentTransitive(ForceBeatAtTimeImpl(first, beat, at + 1, quantum).beatOrigin, first.beatOrigin, tl.beatOrigin, quantum);
    }
  }

  lemma StepForward(p: int, step: int)
    requires 0 < p && -p <= p * step - 1000000
    ensures step >= 0
  {
    assert p * -step == -(p * step);
    if step <= -1 {
      MulAtLeast(p, -step);
    }
  }

  lemma AbsBound(p: int, e: int)
    requires p > 0 && p * Abs(e) <= 1000000 + p
    ensures p * e <= 1000000 + p && p * -e <= 1000000 + p
  {
    assert p * -e == -(p * e);
  }

  lemma ErrorsAdd(p: int, e: int, step: int)
    requires p > 0 && p * Abs(e) <= 1000000 + p && -p <= p * step - 1000000 <= p
    ensures e - step <= 2
    ensures p * (step - e) <= 2000000 + 2 * p
  {
    AbsBound(p, e);
    assert p * (step - e) == p * step - p * e;
    assert p * (e - step) == p * e - p * step;
    if e - step >= 3 {
      assert p * (e - step) == 3 * p + p * (e - step - 3);
      NonNegativeProduct(p, e - step - 3);
    }
  }

  // ----- Changing the tempo -----

  /** The client timeline with a new tempo and the beat at the given time kept. */
  function WithTempo(client: Timeline, bpm: real, at: Micros): Timeline
    requires Usable(client.bpm)
  {
    var desired := ClampTempo(Timeline(bpm, client.ToBeats(at), at));
    InRangeMicros(desired.bpm);
    Timeline(desired.bpm, client.beatOrigin, desired.FromBeats(client.beatOrigin))
  }

  /** A tempo change moves the beat at its instant by at most 8 micro-beats, and not at all up to 60 BPM. */
  lemma TempoChangeKeepsBeat(client: Timeline, bpm: real, at: Micros)
    requires Usable(client.bpm)
    ensures var r := WithTempo(client, bpm, at);
      && InRange(r.bpm) && Usable(r.bpm)
      && (InRange(bpm) ==> r.bpm == bpm)
      && Abs(r.ToBeats(at) - client.ToBeats(at)) <= 8
      && (bpm <= 60.0 ==> r.ToBeats(at) == client.ToBeats(at))
  {
    var r := WithTempo(client, bpm, at);
    InRangeMicros(r.bpm);
    var p := MicrosPerBeat(r.bpm);
    var moved := client.beatOrigin - client.ToBeats(at);
    BackToBeats(p, -moved);
    ConversionsAreOdd(p, 0, moved);
    assert at - r.timeOrigin == MicrosOf(p, -moved);
    hide MicrosPerBeat, BeatsOf, MicrosOf;
    ErrorAtMostEight(p, Abs(r.ToBeats(at) - client.ToBeats(at)));
  }

  // ----- Founding a session -----

  /** The timeline a node founds a new session with: ghost time 0 is now, at the old session's beat. */
  function FoundedTimeline(session: Timeline, oldXForm: GhostXForm, now: Micros): Timeline
    requires Usable(session.bpm)
  {
    var xform := InitXForm(now);
    var hostTime := xform.GhostToHost(0);
    Timeline(session.bpm, session.ToBeats(oldXForm.HostToGhost(hostTime)), xform.HostToGhost(hostTime))
  }

  lemma FoundedForm(session: Timeline, oldXForm: GhostXForm, now: Micros)
    requires Usable(session.bpm) && oldXForm.slope == 1.0
    ensures var m := now + oldXForm.intercept - session.timeOrigin;
      FoundedTimeline(session, oldXForm, now)
        == Timeline(session.bpm, session.beatOrigin + BeatsOf(MicrosPerBeat(session.bpm), m), 0)
  {
    UnitSlopeTranslates(InitXForm(now), 0);
    UnitSlopeTranslates(InitXForm(now), now);
    UnitSlopeTranslates(oldXForm, now);
    hide MicrosPerBeat, BeatsOf, GhostXForm.HostToGhost, GhostXForm.GhostToHost;
  }

  lemma BeatZeroMoves(p: int, m: Micros, b: Beats)
    requires 0 < p <= 3000000
    ensures Abs(MicrosOf(p, 0 - (b + BeatsOf(p, m))) - (MicrosOf(p, 0 - b) - m)) <= 2
  {
    var k := BeatsOf(p, m);
    ConversionBounds(p, m, 0 - b);
    ConversionBounds(p, m, 0 - (b + k));
    hide BeatsOf, MicrosOf;
    MoveArithmetic(p, m, b, k, MicrosOf(p, 0 - b), MicrosOf(p, 0 - (b + k)));
  }

  lemma MoveArithmetic(p: int, m: int, b: int, k: int, u: int, v: int)
    requires 0 < p <= 3000000
    requires -p <= 2 * (p * k) - 2000000 * m <= p
    requires -1000000 <= 2000000 * u - 2 * (p * (0 - b)) <= 1000000
    requires -1000000 <= 2000000 * v - 2 * (p * (0 - (b + k))) <= 1000000
    ensures Abs(v - (u - m)) <= 2
  {
    assert p * (0 - b) == -(p * b);
    assert p * (0 - (b + k)) == -(p * b) - p * k;
  }

  /** Founding a session keeps the beat at its instant and moves the host time of beat 0, and with it the grid, by at most 2 microseconds. */
  lemma FoundingKeepsGrid(session: Timeline, oldXForm: GhostXForm, now: Micros)
    requires InRange(session.bpm) && Usable(session.bpm) && oldXForm.slope == 1.0
    ensures var founded := FoundedTimeline(session, oldXForm, now);
      && founded.ToBeats(InitXForm(now).HostToGhost(now)) == session.ToBeats(oldXForm.HostToGhost(now))
      && Abs(InitXForm(now).GhostToHost(founded.FromBeats(0)) - oldXForm.GhostToHost(session.FromBeats(0))) <= 2
  {
    FoundingKeepsBeat(session, oldXForm, now);
    FoundingKeepsBeatZero(session, oldXForm, now);
    hide FoundedTimeline, MicrosPerBeat, Timeline.ToBeats, Timeline.FromBeats, GhostXForm.HostToGhost, GhostXForm.GhostToHost, InRange;
  }

  lemma FoundingKeepsBeat(session: Timeline, oldXForm: GhostXForm, now: Micros)
    requires Usable(session.bpm) && oldXForm.slope == 1.0
    ensures FoundedTimeline(session, oldXForm, now).ToBeats(InitXForm(now).HostToGhost(now)) == session.ToBeats(oldXForm.HostToGhost(now))
  {
    hide FoundedTimeline, MicrosPerBeat, BeatsOf, GhostXForm.HostToGhost;
    UnitSlopeTranslates(InitXForm(now), now);
    UnitSlopeTranslates(oldXForm, now);
    FoundedForm(session, oldXForm, now);
    ConversionsAreOdd(MicrosPerBeat(session.bpm), 0, 0);
  }

  lemma FoundingKeepsBeatZero(session: Timeline, oldXForm: GhostXForm, now: Micros)
    requires InRange(session.bpm) && Usable(session.bpm) && oldXForm.slope == 1.0
    ensures var founded := FoundedTimeline(session, oldXForm, now);
      Abs(InitXForm(now).GhostToHost(founded.FromBeats(0)) - oldXForm.GhostToHost(session.FromBeats(0))) <= 2
  {
    hide FoundedTimeline, MicrosPerBeat, BeatsOf, MicrosOf, GhostXForm.GhostToHost, InRange;
    InRangeMicros(session.bpm);
    FoundedForm(session, oldXForm, now);
    UnitSlopeTranslates(oldXForm, session.FromBeats(0));
    UnitSlopeTranslates(InitXForm(now), FoundedTimeline(session, oldXForm, now).FromBeats(0));
    BeatZeroMoves(MicrosPerBeat(session.bpm), now + oldXForm.intercept - session.timeOrigin, session.beatOrigin);
  }
}
