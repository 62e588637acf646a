/**
 Micro-beats and the phase of a beat on a quantum grid (link/beats.go).

 A beat position is a whole number of micro-beats. All grid functions take a
 positive quantum: with a zero quantum the program divides by zero in `mod`.
 */
module BeatGrid {
  import opened Rounding

  type Beats = int

  const MICRO := 1000000

  /** Division and remainder truncating toward zero, as the program's operators do. */
  function QuoTrunc(a: int, b: int): int
    requires b > 0
  {
    if a >= 0 then a / b else -(-a / b)
  }

  function Mod(a: Beats, b: Beats): Beats
    requires b > 0
  {
    a - QuoTrunc(a, b) * b
  }

  function Phase(beats: Beats, quantum: Beats): Beats
    requires quantum >= 0
  {
    if quantum == 0 then 0
    else
      var quantumBins := QuoTrunc(Abs(beats) + quantum, quantum);
      var quantumBeats := quantumBins * quantum;
      Mod(beats + quantumBeats, quantum)
  }

  function NextPhaseMatch(x: Beats, target: Beats, quantum: Beats): Beats
    requires quantum > 0
  {
    var desiredPhase := Phase(target, quantum);
    var xPhase := Phase(x, quantum);
    x + Mod(desiredPhase - xPhase + quantum, quantum)
  }

  /** The offset ClosestPhaseMatch subtracts: half a quantum counted in beats, rounded to micro-beats. */
  function HalfOffset(quantum: Beats): Beats {
    Llround(0.5 * (quantum as real / 1000000.0))
  }

  function ClosestPhaseMatch(x: Beats, target: Beats, quantum: Beats): Beats
    requires quantum > 0
  {
    NextPhaseMatch(x - HalfOffset(quantum), target, quantum)
  }

  /** a and b lie on the same position of the grid of quantum q. */
  ghost predicate Congruent(a: Beats, b: Beats, q: Beats) {
    exists k: int :: a - b == q * k
  }

  lemma ModUnique(a: int, q: int, k: int, r: int)
    requires q > 0 && 0 <= r < q && a == q * k + r
    ensures a % q == r && a / q == k
  {
    assert q * (a / q) + a % q == a;
    assert q * (a / q - k) == r - a % q;
    SmallMultipleIsZero(q, a / q - k);
  }

  /** Congruence is equality of Euclidean remainders. */
  lemma CongruentIffSameRemainder(a: int, b: int, q: int)
    requires q > 0
    ensures Congruent(a, b, q) <==> a % q == b % q
  {
    var i, j := a / q, b / q;
    assert a == q * i + a % q && b == q * j + b % q;
    if a % q == b % q {
      assert a - b == q * (i - j);
    }
    if Congruent(a, b, q) {
      var k :| a - b == q * k;
      assert a == q * (j + k) + b % q;
      ModUnique(a, q, j + k, b % q);
    }
  }

  lemma ModOfNonNegative(a: int, q: int)
    requires a >= 0 && q > 0
    ensures Mod(a, q) == a % q
  {
    assert q * (a / q) + a % q == a;
  }

  /** Phase is the Euclidean remainder for beats of either sign, and 0 for a zero quantum. */
  lemma PhaseIsRemainder(beats: Beats, quantum: Beats)
    requires quantum >= 0
    ensures quantum > 0 ==> Phase(beats, quantum) == beats % quantum
    ensures quantum == 0 ==> Phase(beats, quantum) == 0
  {
    if quantum > 0 {
      var bins := (Abs(beats) + quantum) / quantum;
      var m := (Abs(beats) + quantum) % quantum;
      assert quantum * bins + m == Abs(beats) + quantum;
      assert beats + bins * quantum >= 0;
      ModOfNonNegative(beats + bins * quantum, quantum);
      ShiftKeepsRemainder(beats, bins, quantum);
    }
  }

  lemma ShiftKeepsRemainder(a: int, k: int, q: int)
    requires q > 0
    ensures (a + k * q) % q == a % q
  {
    assert a == q * (a / q) + a % q;
    assert a + k * q == q * (a / q + k) + a % q;
    ModUnique(a + k * q, q, a / q + k, a % q);
  }

  lemma RemainderOfDifference(x: int, target: int, q: int)
    requires q > 0
    ensures (target % q - x % q + q) % q == (target - x) % q
  {
    var i, j, u, v := target / q, x / q, target % q, x % q;
    assert target == q * i + u && x == q * j + v;
    var d := u - v + q;
    assert d + (i - j - 1) * q == target - x;
    ShiftKeepsRemainder(d, i - j - 1, q);
  }

  /** NextPhaseMatch moves x forward by the remainder of the distance to the target. */
  lemma NextPhaseMatchForm(x: Beats, target: Beats, quantum: Beats)
    requires quantum > 0
    ensures NextPhaseMatch(x, target, quantum) == x + (target - x) % quantum
  {
    PhaseIsRemainder(x, quantum);
    PhaseIsRemainder(target, quantum);
    hide Phase, Mod;
    ModOfNonNegative(target % quantum - x % quantum + quantum, quantum);
    RemainderOfDifference(x, target, quantum);
  }

  lemma ForwardStepIsLeast(x: Beats, target: Beats, quantum: Beats, r: Beats)
    requires quantum > 0 && r == x + (target - x) % quantum
    ensures x <= r < x + quantum
    ensures Congruent(r, target, quantum)
    ensures forall y | x <= y && Congruent(y, target, quantum) :: r <= y
    ensures r == x <==> Congruent(x, target, quantum)
  {
    var k := (target - x) / quantum;
    assert target - x == quantum * k + (target - x) % quantum;
    assert r - target == quantum * -k;
    forall y | x <= y && Congruent(y, target, quantum) ensures r <= y {
      LeastAbove(r, y, target, quantum);
    }
  }

  /**
   NextPhaseMatch is the least value at or above x that is congruent to the
   target; it is x itself exactly when the phases already agree.
   */
  lemma NextPhaseMatchIsLeast(x: Beats, target: Beats, quantum: Beats)
    requires quantum > 0
    ensures var r := NextPhaseMatch(x, target, quantum);
      && x <= r < x + quantum
      && Congruent(r, target, quantum)
      && (forall y | x <= y && Congruent(y, target, quantum) :: r <= y)
      && (r == x <==> Phase(x, quantum) == Phase(target, quantum))
  {
    NextPhaseMatchForm(x, target, quantum);
    PhaseIsRemainder(x, quantum);
    PhaseIsRemainder(target, quantum);
    CongruentIffSameRemainder(x, target, quantum);
    hide NextPhaseMatch, Phase, Congruent;
    ForwardStepIsLeast(x, target, quantum, NextPhaseMatch(x, target, quantum));
  }

  /** Two congruent values less than a quantum apart are equal. */
  lemma LeastAbove(r: int, y: int, target: int, q: int)
    requires q > 0 && Congruent(r, target, q) && Congruent(y, target, q) && y > r - q
    ensures r <= y
    ensures y < r + q ==> y == r
  {
    var k :| r - target == q * k;
    var l :| y - target == q * l;
    assert y - r == q * (l - k);
    if l - k <= -1 {
      assert q * (k - l) == r - y;
      MulAtLeast(q, k - l);
    }
    if l - k >= 1 {
      MulAtLeast(q, l - k);
    }
  }

  /** The half offset is about quantum / 2,000,000 micro-beats, always inside the quantum. */
  lemma HalfOffsetValue(quantum: Beats)
    requires quantum >= 0
    ensures HalfOffset(quantum) == RoundDiv(quantum, 2 * MICRO)
    ensures 0 <= HalfOffset(quantum)
    ensures quantum > 0 ==> HalfOffset(quantum) < quantum
  {
    assert 0.5 * (quantum as real / 1000000.0) == quantum as real / 2000000.0;
    LlroundIsRoundDiv(quantum, 2 * MICRO);
    RoundBound(quantum, 2 * MICRO);
  }

  lemma ClosestPhaseMatchForm(x: Beats, target: Beats, quantum: Beats)
    requires quantum > 0
    ensures ClosestPhaseMatch(x, target, quantum) ==
      x - HalfOffset(quantum) + (target - x + HalfOffset(quantum)) % quantum
  {
    NextPhaseMatchForm(x - HalfOffset(quantum), target, quantum);
    assert target - (x - HalfOffset(quantum)) == target - x + HalfOffset(quantum);
  }

  /** ClosestPhaseMatch is the one value in [x-h, x-h+q) congruent to the target. */
  lemma ClosestPhaseMatchIsUnique(x: Beats, target: Beats, quantum: Beats)
    requires quantum > 0
    ensures var r, h := ClosestPhaseMatch(x, target, quantum), HalfOffset(quantum);
      && x - h <= r < x - h + quantum
      && Congruent(r, target, quantum)
      && forall y | x - h <= y < x - h + quantum && Congruent(y, target, quantum) :: y == r
  {
    var h := HalfOffset(quantum);
    NextPhaseMatchIsLeast(x - h, target, quantum);
    var r := ClosestPhaseMatch(x, target, quantum);
    assert r == NextPhaseMatch(x - h, target, quantum);
    hide NextPhaseMatch, ClosestPhaseMatch, HalfOffset;
    forall y | x - h <= y < x - h + quantum && Congruent(y, target, quantum) ensures y == r {
      LeastAbove(r, y, target, quantum);
    }
  }

  /**
   The result is within half a quantum of x exactly when the forward distance
   to the target's phase is at most half a quantum or falls in the last
   HalfOffset micro-beats of the quantum.
   */
  lemma ClosestWithinHalfIff(x: Beats, target: Beats, quantum: Beats)
    requires quantum > 0
    ensures var p := Phase(target - x, quantum);
      2 * Abs(ClosestPhaseMatch(x, target, quantum) - x) <= quantum
      <==> 2 * p <= quantum || quantum - p <= HalfOffset(quantum)
  {
    var h := HalfOffset(quantum);
    var p := (target - x) % quantum;
    HalfOffsetValue(quantum);
    RoundBound(quantum, 2 * MICRO);
    PhaseIsRemainder(target - x, quantum);
    ClosestPhaseMatchForm(x, target, quantum);
    hide ClosestPhaseMatch, Phase, HalfOffset, RoundDiv;
    RemainderAfterShift(target - x, h, quantum);
  }

  lemma RemainderAfterShift(a: int, h: int, q: int)
    requires 0 <= h < q
    ensures (a + h) % q == if a % q + h < q then a % q + h else a % q + h - q
  {
    var k, p := a / q, a % q;
    assert a == q * k + p;
    if p + h < q {
      ModUnique(a + h, q, k, p + h);
    } else {
      assert a + h == q * (k + 1) + (p + h - q);
      ModUnique(a + h, q, k + 1, p + h - q);
    }
  }

  /** The bound of half a quantum fails: at quantum 4, phase 3 is matched three beats away, not one. */
  lemma ClosestIsNotAlwaysWithinHalf()
    ensures ClosestPhaseMatch(0, 3 * MICRO, 4 * MICRO) == 3 * MICRO
    ensures 2 * Abs(3 * MICRO - 0) > 4 * MICRO
  {
    HalfOffsetValue(4 * MICRO);
    ClosestPhaseMatchForm(0, 3 * MICRO, 4 * MICRO);
  }
}
