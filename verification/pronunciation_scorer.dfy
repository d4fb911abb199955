/** The acoustic pronunciation scorer: three voice-quality measures (HNR,
    jitter, shimmer) each cost a fixed fraction of the maximum, and the
    remainder is the score. */
module PronunciationScorer {
  import opened Wrappers
  import opened BaseScorer

  datatype Issue =
    | HnrLow        // clarity below the good threshold
    | HnrNoisy      // clarity below the poor threshold
    | JitterHigh    // unstable pitch
    | JitterSevere  // severely unstable pitch
    | ShimmerHigh   // uneven loudness
    | ShimmerSevere // severely uneven loudness

  /** The maximum for an exam level and task; 1.0 for anything not in the table. */
  function MaxScore(examLevel: string, task: string): real {
    if examLevel == "beginner" then
      (if task == "task1" then 0.5 else if task == "task2" then 0.5 else if task == "task3" then 4.0 else 1.0)
    else if examLevel == "intermediate" then
      (if task == "task1" then 1.0 else if task == "task2" then 3.0 else if task == "task3" then 4.0 else 1.0)
    else if examLevel == "advanced" then
      (if task == "task1" then 2.0 else if task == "task2" then 5.0 else if task == "task3" then 5.0 else 1.0)
    else 1.0
  }

  /** A measure's share of the deduction and the issue it raises, if any. */
  datatype Check = Check(deduction: real, issue: Option<Issue>)

  /** Higher HNR is clearer: 20 and 15 and 10 dB are the cut-offs. */
  function HnrCheck(hnr: real): (c: Check)
    ensures 0.0 <= c.deduction <= 0.5
    ensures c.deduction == 0.0 <==> hnr >= 20.0
    ensures c.issue.Some? <==> hnr < 15.0
  {
    if hnr >= 20.0 then Check(0.0, None)
    else if hnr >= 15.0 then Check(0.15, None)
    else if hnr >= 10.0 then Check(0.3, Some(HnrLow))
    else Check(0.5, Some(HnrNoisy))
  }

  /** Lower jitter is steadier: 0.01, 0.015 and 0.02 are the cut-offs. */
  function JitterCheck(jitter: real): (c: Check)
    ensures 0.0 <= c.deduction <= 0.35
    ensures c.deduction == 0.0 <==> jitter <= 0.01
    ensures c.issue.Some? <==> jitter > 0.015
  {
    if jitter <= 0.01 then Check(0.0, None)
    else if jitter <= 0.015 then Check(0.15, None)
    else if jitter <= 0.02 then Check(0.25, Some(JitterHigh))
    else Check(0.35, Some(JitterSevere))
  }

  /** Lower shimmer is more even: 0.05, 0.08 and 0.12 are the cut-offs. */
  function ShimmerCheck(shimmer: real): (c: Check)
    ensures 0.0 <= c.deduction <= 0.35
    ensures c.deduction == 0.0 <==> shimmer <= 0.05
    ensures c.issue.Some? <==> shimmer > 0.08
  {
    if shimmer <= 0.05 then Check(0.0, None)
    else if shimmer <= 0.08 then Check(0.15, None)
    else if shimmer <= 0.12 then Check(0.25, Some(ShimmerHigh))
    else Check(0.35, Some(ShimmerSevere))
  }

  /** The issue a check raises, as a list of zero or one issues. */
  function Raised(c: Check): (r: seq<Issue>)
    ensures |r| <= 1
    ensures r == [] <==> c.issue.None?
  {
    if c.issue.Some? then [c.issue.value] else []
  }

  /** The canned feedback: the first two issues at Acceptable, all at Poor. */
  function FeedbackFor(level: ScoreLevel, issues: seq<Issue>): Feedback<Issue> {
    match level
    case Excellent => Canned(Excellent, [])
    case Good => Canned(Good, [])
    case Acceptable => Canned(Acceptable, if |issues| <= 2 then issues else issues[..2])
    case Poor => Canned(Poor, issues)
  }

  /** The total fraction of the maximum the three checks take away. */
  function Deduction(hnr: real, jitter: real, shimmer: real): (d: real)
    ensures 0.0 <= d <= 1.2
    ensures d == 0.0 <==> hnr >= 20.0 && jitter <= 0.01 && shimmer <= 0.05
  {
    HnrCheck(hnr).deduction + JitterCheck(jitter).deduction + ShimmerCheck(shimmer).deduction
  }

  /** The share of the maximum kept after deducting `d`: `1 - d`, floored at 0. */
  function KeptShare(d: real): (k: real)
    requires d >= 0.0
    ensures 0.0 <= k <= 1.0
    ensures k == 1.0 <==> d == 0.0
  {
    if d < 1.0 then 1.0 - d else 0.0
  }

  /** `max(0, max_score * (1 - deductions))`: with a positive maximum the
      product is positive exactly when the deductions stay below 1, so this
      is the maximum scaled by the kept share. */
  function Remaining(maxScore: real, d: real): (r: real)
    requires maxScore > 0.0 && d >= 0.0
    ensures 0.0 <= r <= maxScore
    ensures r == maxScore <==> d == 0.0
  {
    var k := KeptShare(d);
    ShareOfMax(maxScore, k);
    maxScore * k
  }

  lemma RemainingMonotone(maxScore: real, d1: real, d2: real)
    requires maxScore > 0.0 && 0.0 <= d2 <= d1
    ensures Remaining(maxScore, d1) <= Remaining(maxScore, d2)
  {
    ScaleMonotone(maxScore, KeptShare(d1), KeptShare(d2));
  }

  /** Scores the measures the way `score` does, from the three values alone. */
  function ScoreMeasures(hnr: real, jitter: real, shimmer: real, maxScore: real): (r: ScoringResult<Issue>)
    requires maxScore > 0.0
    ensures r.maxScore == maxScore
    ensures 0.0 <= r.score <= maxScore
    ensures r.level == DetermineLevel(r.score, maxScore)
    ensures |r.issues| <= 3
    ensures r.score == maxScore <==> hnr >= 20.0 && jitter <= 0.01 && shimmer <= 0.05
    ensures r.issues == [] <==> hnr >= 15.0 && jitter <= 0.015 && shimmer <= 0.08
    ensures r.score == Remaining(maxScore, Deduction(hnr, jitter, shimmer))
    ensures r.issues == Raised(HnrCheck(hnr)) + Raised(JitterCheck(jitter)) + Raised(ShimmerCheck(shimmer))
  {
    var h, j, k := HnrCheck(hnr), JitterCheck(jitter), ShimmerCheck(shimmer);
    var score := Remaining(maxScore, Deduction(hnr, jitter, shimmer));
    var issues := Raised(h) + Raised(j) + Raised(k);
    var level := DetermineLevel(score, maxScore);
    ScoringResult(score, maxScore, level, issues, FeedbackFor(level, issues))
  }

  /** `score(data, task)`: missing measures read as HNR 0, jitter 1 and
      shimmer 1, the worst values. */
  function Score(data: map<string, real>, examLevel: string, task: string): (r: ScoringResult<Issue>)
    ensures r.maxScore == MaxScore(examLevel, task) && r.maxScore > 0.0
    ensures 0.0 <= r.score <= r.maxScore
    ensures r.level == DetermineLevel(r.score, r.maxScore)
    ensures r == ScoreMeasures(if "hnr_mean" in data then data["hnr_mean"] else 0.0,
                               if "jitter_local" in data then data["jitter_local"] else 1.0,
                               if "shimmer_local" in data then data["shimmer_local"] else 1.0,
                               MaxScore(examLevel, task))
  {
    ScoreMeasures(Field(data, "hnr_mean", 0.0), Field(data, "jitter_local", 1.0), Field(data, "shimmer_local", 1.0),
                  MaxScore(examLevel, task))
  }

  /** Each check's deduction only grows as its measure worsens. */
  lemma ChecksMonotone(h1: real, j1: real, s1: real, h2: real, j2: real, s2: real)
    requires h1 <= h2 && j1 >= j2 && s1 >= s2
    ensures HnrCheck(h2).deduction <= HnrCheck(h1).deduction
    ensures JitterCheck(j2).deduction <= JitterCheck(j1).deduction
    ensures ShimmerCheck(s2).deduction <= ShimmerCheck(s1).deduction
  {
  }

  /** Clearer, steadier, more even voice never scores lower. */
  lemma ScoreMonotone(h1: real, j1: real, s1: real, h2: real, j2: real, s2: real, maxScore: real)
    requires maxScore > 0.0
    requires h1 <= h2 && j1 >= j2 && s1 >= s2
    ensures ScoreMeasures(h1, j1, s1, maxScore).score <= ScoreMeasures(h2, j2, s2, maxScore).score
  {
    ChecksMonotone(h1, j1, s1, h2, j2, s2);
    RemainingMonotone(maxScore, Deduction(h1, j1, s1), Deduction(h2, j2, s2));
  }

  /** Poor needs more than half the maximum deducted, which the three
      issue-free deductions (0.15 each) cannot reach: a Poor score always
      names at least one issue. */
  lemma PoorHasIssue(hnr: real, jitter: real, shimmer: real, maxScore: real)
    requires maxScore > 0.0
    ensures ScoreMeasures(hnr, jitter, shimmer, maxScore).level == Poor ==>
      |ScoreMeasures(hnr, jitter, shimmer, maxScore).issues| >= 1
  {
  }

  /** With no measures at all every check takes its worst branch: three
      issues and a deduction of 1.2, so the score is 0. */
  lemma EmptyDataScoresZero(examLevel: string, task: string)
    ensures Score(map[], examLevel, task).score == 0.0
    ensures Score(map[], examLevel, task).level == Poor
    ensures Score(map[], examLevel, task).issues == [HnrNoisy, JitterSevere, ShimmerSevere]
  {
  }
}
