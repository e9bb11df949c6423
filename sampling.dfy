/**
 * Sample ticks and bandwidth ladders of the curve pipeline
 * (`timeInterval` and `logSequence` in src/getLines.js).
 */
module Sampling {
  import opened Search

  /** JavaScript's `Math.ceil` on exact reals. */
  function Ceil(x: real): (c: int)
    ensures x <= c as real < x + 1.0
  {
    -((-x).Floor)
  }

  /** The spacing `timeInterval` puts between consecutive ticks. */
  function TickStep(start: real, end: real, numTicks: nat): int
    requires numTicks >= 2
  {
    Ceil((end - start) / (numTicks - 1) as real)
  }

  /** The ticks `timeInterval(start, end, numTicks)` returns. */
  function Ticks(start: real, end: real, numTicks: nat): (ticks: seq<real>)
    requires numTicks >= 2
    ensures |ticks| == numTicks
  {
    seq(numTicks, i => start + (i * TickStep(start, end, numTicks)) as real)
  }

  /** `(end - start) / gaps`, rounded up, times `gaps` lands in [end - start, end - start + gaps). */
  lemma CeilTimesGaps(start: real, end: real, gaps: real)
    requires gaps >= 1.0
    ensures var step := Ceil((end - start) / gaps) as real;
      end - start <= step * gaps < end - start + gaps
  {
    var x := (end - start) / gaps;
    var step := Ceil(x) as real;
    var d := step - x;
    var xg, dg, sg := x * gaps, d * gaps, step * gaps;
    assert xg == end - start;
    assert 0.0 <= d < 1.0;
    assert sg == xg + dg;
    assert gaps - dg == (1.0 - d) * gaps;
    assert 0.0 <= dg < gaps;
  }

  /** Tick `j` lies `(j - i)` steps after tick `i`. */
  lemma TickGap(start: real, end: real, numTicks: nat, i: nat, j: nat)
    requires numTicks >= 2 && i <= j < numTicks
    ensures var ticks := Ticks(start, end, numTicks);
      ticks[j] - ticks[i] == ((j - i) * TickStep(start, end, numTicks)) as real
  {
    var step := TickStep(start, end, numTicks);
    assert j * step - i * step == (j - i) * step;
  }

  /** With `start <= end` the step is a whole non-negative number, positive when `start < end`. */
  lemma TickStepSign(start: real, end: real, numTicks: nat)
    requires numTicks >= 2 && start <= end
    ensures TickStep(start, end, numTicks) >= 0
    ensures start < end ==> TickStep(start, end, numTicks) >= 1
  {
    var gaps := (numTicks - 1) as real;
    assert (end - start) / gaps >= 0.0;
    if start < end {
      assert (end - start) / gaps > 0.0;
    }
  }

  /** Ticks are ordered as the range is: ascending, strictly when `start < end`. */
  lemma TicksAscending(start: real, end: real, numTicks: nat)
    requires numTicks >= 2 && start <= end
    ensures Ascending(Ticks(start, end, numTicks))
    ensures start < end ==> StrictlyAscending(Ticks(start, end, numTicks))
  {
    var ticks := Ticks(start, end, numTicks);
    var step := TickStep(start, end, numTicks);
    TickStepSign(start, end, numTicks);
    forall i, j | 0 <= i < j < numTicks
      ensures ticks[i] <= ticks[j]
      ensures start < end ==> ticks[i] < ticks[j]
    {
      TickGap(start, end, numTicks, i, j);
      assert (j - i) * step >= 0;
      if start < end {
        assert (j - i) * step >= 1;
      }
    }
  }

  /**
   * The ticks begin at `start`, keep a whole-millisecond spacing, reach `end`
   * and overshoot it by less than one millisecond per gap.
   */
  lemma TicksCoverRange(start: real, end: real, numTicks: nat)
    requires numTicks >= 2
    ensures var ticks := Ticks(start, end, numTicks);
      && ticks[0] == start
      && (forall i :: 0 <= i < numTicks - 1 ==> ticks[i + 1] - ticks[i] == TickStep(start, end, numTicks) as real)
      && end <= ticks[numTicks - 1] < end + (numTicks - 1) as real
  {
    TicksReachEnd(start, end, numTicks);
    TicksEvenlySpaced(start, end, numTicks);
  }

  lemma TicksReachEnd(start: real, end: real, numTicks: nat)
    requires numTicks >= 2
    ensures var ticks := Ticks(start, end, numTicks);
      ticks[0] == start && end <= ticks[numTicks - 1] < end + (numTicks - 1) as real
  {
    var ticks := Ticks(start, end, numTicks);
    var gaps := (numTicks - 1) as real;
    CeilTimesGaps(start, end, gaps);
    TickGap(start, end, numTicks, 0, numTicks - 1);
    assert ticks[numTicks - 1] - ticks[0] == TickStep(start, end, numTicks) as real * gaps;
  }

  lemma TicksEvenlySpaced(start: real, end: real, numTicks: nat)
    requires numTicks >= 2
    ensures var ticks := Ticks(start, end, numTicks);
      forall i :: 0 <= i < numTicks - 1 ==> ticks[i + 1] - ticks[i] == TickStep(start, end, numTicks) as real
  {
    var ticks := Ticks(start, end, numTicks);
    forall i | 0 <= i < numTicks - 1
      ensures ticks[i + 1] - ticks[i] == TickStep(start, end, numTicks) as real
    {
      TickGap(start, end, numTicks, i, i + 1);
    }
  }

  /** src/getLines.js `timeInterval`: `numTicks` ticks from `start`. */
  method TimeInterval(start: real, end: real, numTicks: nat) returns (ticks: seq<real>)
    requires numTicks >= 2
    ensures ticks == Ticks(start, end, numTicks)
  {
    ticks := [];
    var interval := Ceil((end - start) / (numTicks - 1) as real);
    ghost var expected := Ticks(start, end, numTicks);
    for i := 0 to numTicks
      invariant ticks == expected[..i]
    {
      assert expected[i] == start + (interval * i) as real;
      assert expected[..i + 1] == expected[..i] + [expected[i]];
      ticks := ticks + [start + (interval * i) as real];
    }
    assert expected[..numTicks] == expected;
  }

  /** 2 to the power `i`. */
  function Pow2(i: nat): (p: real)
    ensures p >= 1.0
  {
    if i == 0 then 1.0 else 2.0 * Pow2(i - 1)
  }

  /**
   * src/getLines.js `logSequence`: `count` values starting at `base`, each
   * half the one before.
   */
  method LogSequence(base: real, count: nat) returns (sequence: seq<real>)
    ensures |sequence| == count
    ensures forall i :: 0 <= i < count ==> sequence[i] == base / Pow2(i)
    ensures base > 0.0 ==> forall i :: 0 <= i < count ==> sequence[i] > 0.0
  {
    sequence := [];
    var baseValue := base;
    for i := 0 to count
      invariant |sequence| == i
      invariant forall k :: 0 <= k < i ==> sequence[k] == base / Pow2(k)
      invariant baseValue == base / Pow2(i)
      invariant base > 0.0 ==> forall k :: 0 <= k < i ==> sequence[k] > 0.0
    {
      if base > 0.0 {
        LadderPositive(base, i);
      }
      sequence := sequence + [baseValue];
      HalvingLadder(base, i);
      baseValue := baseValue / 2.0;
    }
  }

  /**
   * The ladder halves at every step, so a positive base yields positive,
   * strictly decreasing bandwidths.
   */
  lemma {:induction false} HalvingLadder(base: real, i: nat)
    ensures base / Pow2(i + 1) == (base / Pow2(i)) / 2.0
    ensures base > 0.0 ==> 0.0 < base / Pow2(i + 1) < base / Pow2(i)
  {
    var p := Pow2(i);
    var q := base / p;
    assert Pow2(i + 1) == 2.0 * p;
    assert q * p == base;
    assert (q / 2.0) * (2.0 * p) == base;
    if base > 0.0 {
      assert q > 0.0;
    }
  }

  /** Every rung of the ladder below a positive base is positive. */
  lemma LadderPositive(base: real, i: nat)
    requires base > 0.0
    ensures base / Pow2(i) > 0.0
  {
    var p := Pow2(i);
    assert p > 0.0;
  }
}
