/**
 Tempos and the conversions between beats and host time (link/tempo.go).

 A tempo is an exact number of beats per minute; everything the program
 computes with it goes through the whole number of microseconds per beat.
 */
module Tempos {
  import opened Rounding
  import opened BeatGrid

  type Micros = int

  const MIN_BPM := 20.0
  const MAX_BPM := 999.0

  function MicrosPerBeat(bpm: real): int
    requires bpm > 0.0
  {
    Llround(60000000.0 / bpm)
  }

  /** A tempo the conversions can divide by. */
  predicate Usable(bpm: real) {
    bpm > 0.0 && MicrosPerBeat(bpm) > 0
  }

  predicate InRange(bpm: real): (r: bool)
    ensures r ==> Usable(bpm)
  {
    if MIN_BPM <= bpm <= MAX_BPM then
      TempoBounds(bpm);
      true
    else false
  }

  /** BeatsOf and MicrosOf are the conversions at a given number of microseconds per beat. */
  function BeatsOf(mpb: int, m: Micros): Beats
    requires mpb > 0
  {
    RoundDiv(m * MICRO, mpb)
  }

  function MicrosOf(mpb: int, b: Beats): Micros {
    RoundDiv(b * mpb, MICRO)
  }

  function MicrosToBeats(bpm: real, m: Micros): Beats
    requires Usable(bpm)
  {
    BeatsOf(MicrosPerBeat(bpm), m)
  }

  function BeatsToMicros(bpm: real, b: Beats): Micros
    requires Usable(bpm)
  {
    MicrosOf(MicrosPerBeat(bpm), b)
  }

  function Clamp(bpm: real): (r: real)
    ensures InRange(r) && (InRange(bpm) ==> r == bpm)
  {
    if bpm < MIN_BPM then MIN_BPM else if bpm > MAX_BPM then MAX_BPM else bpm
  }

  /** The conversions as the program writes them, in floating point, round the same fractions. */
  lemma ConversionsAsWritten(mpb: int, m: Micros, b: Beats)
    requires mpb > 0
    ensures Llround(m as real / mpb as real * 1000000.0) == BeatsOf(mpb, m)
    ensures Llround(b as real / 1000000.0 * mpb as real) == MicrosOf(mpb, b)
  {
    assert m as real / mpb as real * 1000000.0 == (m * MICRO) as real / mpb as real by {
      var z := m as real / mpb as real;
      assert z * mpb as real == m as real;
      assert z * 1000000.0 * mpb as real == (z * mpb as real) * 1000000.0;
      QuotientIs((m * MICRO) as real, z * 1000000.0, mpb as real);
    }
    assert b as real / 1000000.0 * mpb as real == (b * mpb) as real / MICRO as real by {
      assert (b * mpb) as real == b as real * mpb as real;
    }
    hide Llround, RoundDiv;
    LlroundIsRoundDiv(m * MICRO, mpb);
    LlroundIsRoundDiv(b * mpb, MICRO);
  }

  lemma QuotientBounds(n: real, d: real, lo: real, hi: real)
    requires d > 0.0 && lo * d <= n <= hi * d
    ensures lo <= n / d <= hi
  {
    var x := n / d;
    assert x * d == n;
    RealProduct(x, lo, d);
    RealProduct(hi, x, d);
  }

  lemma LlroundMonotone(x: real, y: real)
    requires x <= y
    ensures Llround(x) <= Llround(y)
  {}

  lemma TempoBounds(bpm: real)
    requires MIN_BPM <= bpm <= MAX_BPM
    ensures 60060 <= MicrosPerBeat(bpm) <= 3000000
    ensures bpm <= 60.0 ==> MicrosPerBeat(bpm) >= MICRO
    ensures bpm >= 60.0 ==> MicrosPerBeat(bpm) <= MICRO
  {
    QuotientBounds(60000000.0, bpm, 60060.0, 3000000.0);
    LlroundMonotone(60060.0, 60000000.0 / bpm);
    LlroundMonotone(60000000.0 / bpm, 3000000.0);
    LlroundInteger(60060);
    LlroundInteger(3000000);
    LlroundInteger(MICRO);
    if bpm <= 60.0 {
      QuotientBounds(60000000.0, bpm, 1000000.0, 3000000.0);
      LlroundMonotone(1000000.0, 60000000.0 / bpm);
    }
    if bpm >= 60.0 {
      QuotientBounds(60000000.0, bpm, 60060.0, 1000000.0);
      LlroundMonotone(60000000.0 / bpm, 1000000.0);
    }
  }

  /** Tempos in range have between 60,060 and 3,000,000 microseconds per beat, with 1,000,000 at 60 BPM. */
  lemma InRangeMicros(bpm: real)
    requires InRange(bpm)
    ensures 60060 <= MicrosPerBeat(bpm) <= 3000000
    ensures bpm <= 60.0 ==> MicrosPerBeat(bpm) >= MICRO
    ensures bpm >= 60.0 ==> MicrosPerBeat(bpm) <= MICRO
  {
    TempoBounds(bpm);
  }

  /** The tempo a peer decodes from a whole number of microseconds per beat. */
  function TempoOfMicros(mpb: int): real
    requires mpb > 0
  {
    60000000.0 / mpb as real
  }

  lemma TempoOfMicrosExact(mpb: int)
    requires mpb > 0
    ensures TempoOfMicros(mpb) > 0.0 && MicrosPerBeat(TempoOfMicros(mpb)) == mpb
  {
    var z := TempoOfMicros(mpb);
    assert z * mpb as real == 60000000.0;
    assert z > 0.0 by {
      if z <= 0.0 {
        RealProduct(z, 0.0, mpb as real);
      }
    }
    QuotientIs(60000000.0, mpb as real, z);
    LlroundInteger(mpb);
  }

  /**
   A tempo relayed over the wire keeps its microseconds per beat: encoding,
   decoding and clamping is the identity on them, although at 999 BPM the
   decoded tempo is out of range and clamping changes it.
   */
  lemma WireTempoIsFixpoint(bpm: real)
    requires InRange(bpm)
    ensures Usable(bpm)
    ensures var relayed := Clamp(TempoOfMicros(MicrosPerBeat(bpm)));
      InRange(relayed) && MicrosPerBeat(relayed) == MicrosPerBeat(bpm)
  {
    InRangeMicros(bpm);
    var m := MicrosPerBeat(bpm);
    TempoOfMicrosExact(m);
    InRangeMicros(MAX_BPM);
    QuotientBounds(60000000.0, m as real, MIN_BPM, 1000.0);
    if TempoOfMicros(m) > MAX_BPM {
      assert MicrosPerBeat(MAX_BPM) == 60060 by {
        Micros999();
      }
      if m > 60060 {
        QuotientBounds(60000000.0, m as real, 0.0, MAX_BPM);
      }
      assert m == 60060;
    }
  }

  /** At 999 BPM the tempo decoded from the wire exceeds 999 and is clamped back to it. */
  lemma Micros999()
    ensures MicrosPerBeat(MAX_BPM) == 60060
    ensures TempoOfMicros(60060) > MAX_BPM && Clamp(TempoOfMicros(60060)) == MAX_BPM
  {
    assert 60060.0 <= 60000000.0 / 999.0 < 60060.5;
  }

  /** Relaying any number of times never drifts. */
  function Relay(bpm: real, hops: nat): real
    requires InRange(bpm)
    ensures InRange(Relay(bpm, hops))
  {
    if hops == 0 then bpm
    else
      var b := Relay(bpm, hops - 1);
      InRangeMicros(b);
      Clamp(TempoOfMicros(MicrosPerBeat(b)))
  }

  lemma {:induction false} RelayNeverDrifts(bpm: real, hops: nat)
    requires InRange(bpm)
    ensures Usable(bpm) && Usable(Relay(bpm, hops))
    ensures MicrosPerBeat(Relay(bpm, hops)) == MicrosPerBeat(bpm)
    ensures hops > 1 ==> Relay(bpm, hops) == Relay(bpm, 1)
  {
    InRangeMicros(bpm);
    InRangeMicros(Relay(bpm, hops));
    if hops > 0 {
      RelayNeverDrifts(bpm, hops - 1);
      WireTempoIsFixpoint(Relay(bpm, hops - 1));
    }
  }

  /** Both conversions are odd. */
  lemma ConversionsAreOdd(mpb: int, m: Micros, b: Beats)
    requires mpb > 0
    ensures BeatsOf(mpb, -m) == -BeatsOf(mpb, m)
    ensures MicrosOf(mpb, -b) == -MicrosOf(mpb, b)
  {
    assert (-m) * MICRO == -(m * MICRO);
    assert (-b) * mpb == -(b * mpb);
    RoundOdd(m * MICRO, mpb);
    RoundOdd(b * mpb, MICRO);
  }

  lemma ConversionBounds(mpb: int, m: Micros, b: Beats)
    requires mpb > 0
    ensures -mpb <= 2 * (mpb * BeatsOf(mpb, m)) - 2000000 * m <= mpb
    ensures -1000000 <= 2000000 * MicrosOf(mpb, b) - 2 * (mpb * b) <= 1000000
  {
    RoundBound(m * MICRO, mpb);
    RoundBound(b * mpb, MICRO);
    assert b * mpb == mpb * b;
  }

  /** Micros to beats and back: exact at or above 60 BPM, and never off by more than mpb/2,000,000 + 1/2. */
  lemma BackToMicros(mpb: int, m: Micros)
    requires mpb > 0
    ensures var r := MicrosOf(mpb, BeatsOf(mpb, m));
      && 2000000 * Abs(r - m) <= mpb + 1000000
      && (mpb <= MICRO ==> r == m)
  {
    var b := BeatsOf(mpb, m);
    ConversionBounds(mpb, m, b);
    if mpb < MICRO {
      assert b * mpb == mpb * b;
      hide RoundDiv, BeatsOf;
      RoundUnique(b * mpb, MICRO, m);
    } else if mpb == MICRO {
      RoundExact(m, MICRO);
      RoundExact(b, MICRO);
    }
  }

  /** Beats to micros and back: exact at or below 60 BPM, and never off by more than 500,000/mpb + 1/2. */
  lemma BackToBeats(mpb: int, b: Beats)
    requires mpb > 0
    ensures var r := BeatsOf(mpb, MicrosOf(mpb, b));
      && 2 * (mpb * Abs(r - b)) <= 1000000 + mpb
      && (mpb >= MICRO ==> r == b)
  {
    var m := MicrosOf(mpb, b);
    var r := BeatsOf(mpb, m);
    ConversionBounds(mpb, m, b);
    assert mpb * (r - b) == mpb * r - mpb * b;
    assert mpb * (b - r) == mpb * b - mpb * r;
    if mpb > MICRO {
      assert m * MICRO == MICRO * m;
      hide RoundDiv, MicrosOf;
      RoundUnique(m * MICRO, mpb, b);
    } else if mpb == MICRO {
      RoundExact(b, MICRO);
      RoundExact(m, MICRO);
    }
  }

  /** How far the beat moves when the time moves by delta. */
  lemma BeatStep(mpb: int, m: Micros, delta: Micros)
    requires mpb > 0
    ensures -mpb <= mpb * (BeatsOf(mpb, m + delta) - BeatsOf(mpb, m)) - 1000000 * delta <= mpb
  {
    ConversionBounds(mpb, m, 0);
    ConversionBounds(mpb, m + delta, 0);
    hide BeatsOf;
    var x, y := BeatsOf(mpb, m + delta), BeatsOf(mpb, m);
    assert mpb * (x - y) == mpb * x - mpb * y;
  }

  /** Some whole microsecond stands for the beat: its exact time is near enough to one, as a caller can compute. */
  predicate HasMicro(mpb: int, b: Beats) {
    var r := (Abs(b) * mpb) % MICRO;
    2 * r <= mpb || 2 * (MICRO - r) < mpb
  }

  lemma BackToBeatsOfNonNegative(mpb: int, b: nat)
    requires mpb > 0
    ensures BeatsOf(mpb, MicrosOf(mpb, b)) == b <==> HasMicro(mpb, b)
  {
    var k, r := (b * mpb) / MICRO, (b * mpb) % MICRO;
    var m := if 2 * r < MICRO then k else k + 1;
    assert b * mpb == MICRO * k + r;
    RoundIff(b * mpb, MICRO, m);
    assert MicrosOf(mpb, b) == m;
    RoundIff(m * MICRO, mpb, b);
    assert mpb * b == b * mpb;
    if mpb == MICRO {
      assert r == 0;
    }
    hide RoundDiv;
  }

  /** A beat survives the trip to microseconds and back exactly when some whole microsecond stands for it. */
  lemma BackToBeatsIff(mpb: int, b: Beats)
    requires mpb > 0
    ensures BeatsOf(mpb, MicrosOf(mpb, b)) == b <==> HasMicro(mpb, b)
    ensures HasMicro(mpb, b) <==> exists m :: BeatsOf(mpb, m) == b
  {
    BackToBeatsOfNonNegative(mpb, Abs(b));
    ConversionsAreOdd(mpb, MicrosOf(mpb, Abs(b)), Abs(b));
    hide BeatsOf, MicrosOf;
    if m :| BeatsOf(mpb, m) == b {
      BackToBeats(mpb, b);
      BackToMicros(mpb, m);
    }
  }
}
