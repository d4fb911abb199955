/** What every criterion scorer shares: the four quality levels, the result
    record, the percentage view of a score and the percentage-to-level rule. */
module BaseScorer {
  import opened Wrappers

  datatype ScoreLevel = Excellent | Good | Acceptable | Poor

  function LevelName(l: ScoreLevel): string {
    match l
    case Excellent => "excellent"
    case Good => "good"
    case Acceptable => "acceptable"
    case Poor => "poor"
  }

  /** Levels ordered from worst (0) to best (3). */
  function Rank(l: ScoreLevel): nat {
    match l
    case Poor => 0
    case Acceptable => 1
    case Good => 2
    case Excellent => 3
  }

  /** A scorer's feedback text, up to wording: either the analyser's own text,
      or the scorer's canned sentence for a level, citing some of the issues,
      or the "nothing was said" sentence. */
  datatype Feedback<I> = Provided(text: string) | Canned(level: ScoreLevel, cited: seq<I>) | NoContent

  /** A scorer's result; `I` is the scorer's own kind of issue. The free-form
      `details` echo of the inputs is not modelled. */
  datatype ScoringResult<I> = ScoringResult(
    score: real,
    maxScore: real,
    level: ScoreLevel,
    issues: seq<I>,
    feedback: Feedback<I>)
  {
    /** The score as a percentage of the maximum; 0 when the maximum is 0. */
    function Percentage(): (p: real)
      ensures maxScore == 0.0 ==> p == 0.0
      ensures maxScore != 0.0 ==> p * maxScore == score * 100.0
    {
      if maxScore == 0.0 then 0.0 else score / maxScore * 100.0
    }
  }

  /** Scaling by a non-negative factor keeps order, and by a positive one
      keeps strict order. */
  lemma ScaleMonotone(a: real, x: real, y: real)
    requires a >= 0.0 && x <= y
    ensures x * a <= y * a && a * x <= a * y
    ensures a > 0.0 && x < y ==> x * a < y * a && a * x < a * y
  {
    assert y * a - x * a == (y - x) * a;
  }

  /** A share between 0 and 1 of a positive maximum lies between 0 and the
      maximum, strictly below it when the share is below 1. */
  lemma ShareOfMax(m: real, k: real)
    requires m > 0.0 && 0.0 <= k <= 1.0
    ensures 0.0 <= m * k <= m
    ensures k < 1.0 ==> m * k < m
    ensures k == 1.0 ==> m * k == m
  {
    ScaleMonotone(m, k, 1.0);
    ScaleMonotone(m, 0.0, k);
  }

  /** For a positive maximum, comparing the percentage with a cut-off is
      comparing the score with that fraction of the maximum. */
  lemma PercentAtLeast(score: real, maxScore: real, cut: real)
    requires maxScore > 0.0
    ensures score / maxScore * 100.0 >= cut <==> score >= cut / 100.0 * maxScore
  {
    var q := score / maxScore;
    assert q * maxScore == score;
    if q * 100.0 >= cut {
      assert q >= cut / 100.0;
      assert q * maxScore >= cut / 100.0 * maxScore;
    }
    if score >= cut / 100.0 * maxScore {
      assert q * maxScore >= cut / 100.0 * maxScore;
      assert q >= cut / 100.0;
    }
  }

  /** The shared percentage-to-level rule: 90, 70 and 50 percent are the
      cut-offs, and a zero maximum is always Poor. */
  function DetermineLevel(score: real, maxScore: real): (l: ScoreLevel)
    ensures maxScore > 0.0 ==>
      && (l == Excellent <==> score >= 0.9 * maxScore)
      && (l == Good <==> 0.7 * maxScore <= score < 0.9 * maxScore)
      && (l == Acceptable <==> 0.5 * maxScore <= score < 0.7 * maxScore)
      && (l == Poor <==> score < 0.5 * maxScore)
    ensures maxScore == 0.0 ==> l == Poor
  {
    if maxScore == 0.0 then Poor
    else
      assert maxScore > 0.0 ==> (
        && (score / maxScore * 100.0 >= 90.0 <==> score >= 0.9 * maxScore)
        && (score / maxScore * 100.0 >= 70.0 <==> score >= 0.7 * maxScore)
        && (score / maxScore * 100.0 >= 50.0 <==> score >= 0.5 * maxScore)) by {
        if maxScore > 0.0 {
          PercentAtLeast(score, maxScore, 90.0);
          PercentAtLeast(score, maxScore, 70.0);
          PercentAtLeast(score, maxScore, 50.0);
        }
      }
      var pct := score / maxScore * 100.0;
      if pct >= 90.0 then Excellent
      else if pct >= 70.0 then Good
      else if pct >= 50.0 then Acceptable
      else Poor
  }

  /** A higher score never gets a lower level (for a positive maximum). */
  lemma DetermineLevelMonotone(s1: real, s2: real, maxScore: real)
    requires maxScore > 0.0 && s1 <= s2
    ensures Rank(DetermineLevel(s1, maxScore)) <= Rank(DetermineLevel(s2, maxScore))
  {
  }

  /** The fraction of the maximum awarded at each level by the banded scorers
      (fluency, vocabulary, task achievement). */
  function BandFraction(l: ScoreLevel): (f: real)
    ensures 0.0 < f <= 1.0
    ensures f == 1.0 <==> l == Excellent
  {
    match l
    case Excellent => 1.0
    case Good => 0.75
    case Acceptable => 0.5
    case Poor => 0.25
  }

  /** A banded score reads back as its own level through the percentage rule:
      the banded scorers and the shared rule agree. */
  lemma BandAgreesWithLevel(l: ScoreLevel, maxScore: real)
    requires maxScore > 0.0
    ensures DetermineLevel(maxScore * BandFraction(l), maxScore) == l
    ensures 0.25 * maxScore <= maxScore * BandFraction(l) <= maxScore
  {
  }

  /** A banded fraction is monotone in the level. */
  lemma BandFractionMonotone(a: ScoreLevel, b: ScoreLevel)
    ensures Rank(a) <= Rank(b) <==> BandFraction(a) <= BandFraction(b)
  {
  }

  /** The level whose band a score of `points` out of 100 falls in, for the
      cut-offs `hi`, `mid`, `lo` (inclusive lower bounds). */
  function Band(points: real, hi: real, mid: real, lo: real): (l: ScoreLevel)
    requires lo <= mid <= hi
    ensures l == Excellent <==> points >= hi
    ensures l == Good <==> mid <= points < hi
    ensures l == Acceptable <==> lo <= points < mid
    ensures l == Poor <==> points < lo
  {
    if points >= hi then Excellent
    else if points >= mid then Good
    else if points >= lo then Acceptable
    else Poor
  }

  /** Banding is monotone: more points never give a lower level. */
  lemma BandMonotone(p1: real, p2: real, hi: real, mid: real, lo: real)
    requires lo <= mid <= hi && p1 <= p2
    ensures Rank(Band(p1, hi, mid, lo)) <= Rank(Band(p2, hi, mid, lo))
  {
  }

  /** `analysis.get("feedback", "") or canned`: the analyser's text unless it
      is missing or empty. */
  function ProvidedOr<I>(text: Option<string>, canned: Feedback<I>): (f: Feedback<I>)
  {
    if text.Some? && text.value != "" then Provided(text.value) else canned
  }

  /** Python's `max(lo, min(hi, x))` for `lo <= hi`. */
  function Clamp(x: real, lo: real, hi: real): (r: real)
    requires lo <= hi
    ensures lo <= r <= hi
    ensures lo <= x <= hi ==> r == x
  {
    if x < lo then lo else if x > hi then hi else x
  }
}
