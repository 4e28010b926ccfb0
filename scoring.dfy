/** Per-test scores, normalisation against fixed baselines, the brain-age estimate and
    the three-way feedback classifier of `src/logic/scoring.ts`. JavaScript numbers are
    exact reals here; every score is a whole number because each formula ends in
    `Math.round` or works on integers. */
module Scoring {
  import opened Types

  /** JavaScript's `Math.round`: the nearest integer, halves rounded up. */
  function Round(x: real): (r: int)
    ensures x - 0.5 < r as real <= x + 0.5
  {
    (x + 0.5).Floor
  }

  lemma RoundOfInteger(n: int)
    ensures Round(n as real) == n
  {
  }

  lemma RoundMonotone(x: real, y: real)
    requires x <= y
    ensures Round(x) <= Round(y)
  {
  }

  function Max(a: int, b: int): int { if a < b then b else a }

  function MaxReal(a: real, b: real): real { if a < b then b else a }

  function MinReal(a: real, b: real): real { if a < b then a else b }

  /** Arithmetic: ten points per correct answer, minus five per mistake, plus a bonus of
      two points per second left that is never negative; the total is floored at 0. */
  function ScoreArithmetic(correct: int, mistakes: int, timeLeft: real): (r: int)
    ensures r >= 0
    ensures r >= correct * 10 - mistakes * 5
    ensures timeLeft >= 0.0 && correct * 10 - mistakes * 5 >= 0 ==>
              r == correct * 10 - mistakes * 5 + Round(timeLeft * 2.0)
  {
    var timeBonus := Max(0, Round(timeLeft * 2.0));
    assert timeLeft >= 0.0 ==> timeBonus == Round(timeLeft * 2.0) by {
      if timeLeft >= 0.0 { RoundMonotone(0.0, timeLeft * 2.0); RoundOfInteger(0); }
    }
    Max(0, correct * 10 - mistakes * 5 + timeBonus)
  }

  /** More correct answers and more time never lower the arithmetic score; more mistakes
      never raise it. */
  lemma ScoreArithmeticMonotone(c1: int, m1: int, t1: real, c2: int, m2: int, t2: real)
    requires c1 <= c2 && m1 >= m2 && t1 <= t2
    ensures ScoreArithmetic(c1, m1, t1) <= ScoreArithmetic(c2, m2, t2)
  {
    RoundMonotone(t1 * 2.0, t2 * 2.0);
  }

  function Clamp01(x: real): (r: real)
    ensures 0.0 <= r <= 1.0
    ensures 0.0 <= x <= 1.0 ==> r == x
  {
    MaxReal(0.0, MinReal(1.0, x))
  }

  /** Memory: fifteen points per digit of the longest sequence, plus up to ten more per
      digit in proportion to the accuracy, which is first clamped to [0, 1]. */
  function ScoreMemory(longest: int, accuracy: real): (r: int)
  {
    Round(longest as real * 15.0 + Clamp01(accuracy) * 10.0 * longest as real)
  }

  lemma ClampedShare(c: real, l: real)
    requires 0.0 <= c <= 1.0 && l >= 0.0
    ensures 0.0 <= c * 10.0 * l <= 10.0 * l
  {
    assert c * 10.0 * l == c * (10.0 * l);
    assert (1.0 - c) * (10.0 * l) >= 0.0;
  }

  lemma ScoreMemoryBounds(longest: int, accuracy: real)
    requires longest >= 0
    ensures 15 * longest <= ScoreMemory(longest, accuracy) <= 25 * longest
  {
    var l := longest as real;
    var c := Clamp01(accuracy);
    ClampedShare(c, l);
    RoundMonotone(l * 15.0, l * 15.0 + c * 10.0 * l);
    RoundMonotone(l * 15.0 + c * 10.0 * l, l * 25.0);
    RoundOfInteger(15 * longest);
    RoundOfInteger(25 * longest);
  }

  /** An accuracy outside [0, 1] scores exactly like the nearest bound. */
  lemma ScoreMemoryClampsAccuracy(longest: int, accuracy: real)
    ensures accuracy >= 1.0 ==> ScoreMemory(longest, accuracy) == ScoreMemory(longest, 1.0)
    ensures accuracy <= 0.0 ==> ScoreMemory(longest, accuracy) == 15 * longest
  {
    RoundOfInteger(15 * longest);
  }

  /** Reaction: 500 points at a 0 ms median, falling linearly to 0 at 500 ms and above. */
  function ScoreReaction(medianMs: real): (r: int)
    ensures r >= 0
    ensures medianMs >= 500.0 ==> r == 0
    ensures medianMs >= 0.0 ==> r <= 500
    ensures medianMs <= 500.0 ==> r == Round(500.0 - medianMs)
  {
    var base := MaxReal(0.0, 500.0 - medianMs);
    assert Round(base) >= 0 by { RoundOfInteger(0); RoundMonotone(0.0, base); }
    assert medianMs >= 0.0 ==> Round(base) <= 500 by {
      if medianMs >= 0.0 { RoundMonotone(base, 500.0); RoundOfInteger(500); }
    }
    assert medianMs >= 500.0 ==> Round(base) == 0 by { RoundOfInteger(0); }
    Round((base / 500.0) * 500.0)
  }

  lemma ScoreReactionAtZero()
    ensures ScoreReaction(0.0) == 500
  {
    RoundOfInteger(500);
  }

  /** On whole milliseconds in [0, 500] the reaction score strictly decreases. */
  lemma ScoreReactionStrictlyDecreasing(m1: int, m2: int)
    requires 0 <= m1 < m2 <= 500
    ensures ScoreReaction(m1 as real) > ScoreReaction(m2 as real)
  {
    RoundOfInteger(500 - m1);
    RoundOfInteger(500 - m2);
  }

  /** Odd-one-out: twelve points per correct answer, minus six per mistake, plus one per
      second left (never negative); the total is floored at 0. */
  function ScoreOddOneOut(correct: int, mistakes: int, timeLeft: real): (r: int)
    ensures r >= 0
    ensures r >= correct * 12 - mistakes * 6
  {
    var timeBonus := Max(0, Round(timeLeft));
    Max(0, correct * 12 - mistakes * 6 + timeBonus)
  }

  lemma ScoreOddOneOutMonotone(c1: int, m1: int, t1: real, c2: int, m2: int, t2: real)
    requires c1 <= c2 && m1 >= m2 && t1 <= t2
    ensures ScoreOddOneOut(c1, m1, t1) <= ScoreOddOneOut(c2, m2, t2)
  {
    RoundMonotone(t1, t2);
  }

  /** The baseline score of each kind (`baselines`). */
  function Baseline(kind: TestKind): real {
    match kind
    case Arithmetic => 420.0
    case Memory => 360.0
    case Reaction => 280.0
    case OddOneOut => 400.0
  }

  /** The spread of each kind (`spreads`). */
  function Spread(kind: TestKind): (s: real)
    ensures s > 0.0
  {
    match kind
    case Arithmetic => 110.0
    case Memory => 90.0
    case Reaction => 100.0
    case OddOneOut => 95.0
  }

  function Clamp(value: real, min: real, max: real): (r: real)
    ensures min <= max ==> min <= r <= max
    ensures min <= value <= max ==> r == value
  {
    MinReal(max, MaxReal(min, value))
  }

  /** How many spreads a score lies above (positive) or below (negative) its baseline. */
  function NormaliseScore(score: real, kind: TestKind): (z: real)
    ensures z * Spread(kind) == score - Baseline(kind)
    ensures z == 0.0 <==> score == Baseline(kind)
    ensures z > 0.0 <==> score > Baseline(kind)
  {
    (score - Baseline(kind)) / Spread(kind)
  }

  /** The sum of the z-scores of the kinds in `ks` that the map holds. */
  function ZSum(scores: map<TestKind, int>, ks: seq<TestKind>): real
  {
    if ks == [] then 0.0
    else (if ks[0] in scores then NormaliseScore(scores[ks[0]] as real, ks[0]) else 0.0) + ZSum(scores, ks[1..])
  }

  /** Average the z-scores, map linearly (70 at the baselines, 12 years per spread),
      clamp to [18, 80] and round. The map must not be empty: the source divides by its
      size. */
  function EstimateBrainAge(scores: map<TestKind, int>): (age: int)
    requires |scores| > 0
    ensures 18 <= age <= 80
  {
    var aggregate := ZSum(scores, AllKinds) / |scores| as real;
    var mapped := 40.0 - aggregate * 12.0 + 30.0;
    var clamped := Clamp(mapped, 18.0, 80.0);
    RoundMonotone(18.0, clamped);
    RoundMonotone(clamped, 80.0);
    RoundOfInteger(18);
    RoundOfInteger(80);
    Round(clamped)
  }

  lemma {:induction false} ZSumAtBaselines(scores: map<TestKind, int>, ks: seq<TestKind>)
    requires forall k :: k in scores ==> scores[k] as real == Baseline(k)
    ensures ZSum(scores, ks) == 0.0
  {
    if ks != [] {
      ZSumAtBaselines(scores, ks[1..]);
    }
  }

  /** A session that hits every baseline exactly has brain age 70. */
  lemma BrainAgeAtBaselines(scores: map<TestKind, int>)
    requires |scores| > 0
    requires forall k :: k in scores ==> scores[k] as real == Baseline(k)
    ensures EstimateBrainAge(scores) == 70
  {
    ZSumAtBaselines(scores, AllKinds);
    RoundOfInteger(70);
  }

  /** Arithmetic 600 and memory 100: z-scores 18/11 and -26/9 average to -62/99, which
      maps to 77.51..., rounded to 78. */
  lemma BrainAgeExample()
    ensures EstimateBrainAge(map[Arithmetic := 600, Memory := 100]) == 78
  {
    var scores := map[Arithmetic := 600, Memory := 100];
    assert |scores| == 2 by { assert scores.Keys == {Arithmetic, Memory}; }
    assert ZSum(scores, AllKinds) == 180.0 / 110.0 + (-260.0) / 90.0;
  }

  datatype Feedback = Positive | Neutral | Negative

  /** Positive at or above one spread over the baseline, negative below 0.4 spreads under
      it, neutral in between. */
  function ScoreFeedback(score: real, kind: TestKind): (f: Feedback)
    ensures f == Positive <==> score >= Baseline(kind) + Spread(kind)
    ensures f == Negative <==> score < Baseline(kind) - Spread(kind) * 0.4
    ensures f == Neutral <==> Baseline(kind) - Spread(kind) * 0.4 <= score < Baseline(kind) + Spread(kind)
  {
    var base := Baseline(kind);
    if score >= base + Spread(kind) then Positive
    else if score >= base - Spread(kind) * 0.4 then Neutral
    else Negative
  }
}
