/** The AI grammar scorer: 70% of the maximum rests on accuracy (less a
    per-error deduction), 30% on sentence complexity, which only counts
    above 50 out of 100. */
module GrammarScorer {
  import opened Wrappers
  import opened Numbers
  import opened BaseScorer

  datatype Issue =
    | NothingToAssess      // empty transcript
    | ErrorCount(n: nat)   // how many errors the analyser found
    | Error(text: string)  // one of the first three errors
    | SimpleStructure      // complexity below 50

  /** What the grammar analyser returns; `None` is a missing key. */
  datatype Analysis = Analysis(
    errors: Option<seq<string>>,
    accuracy: Option<real>,
    complexity: Option<real>,
    feedback: Option<string>)

  function MaxScore(examLevel: string, task: string): real {
    if examLevel == "beginner" then
      (if task == "task2" then 0.5 else if task == "task3" then 4.0 else 2.0)
    else if examLevel == "intermediate" then
      (if task == "task2" then 3.0 else if task == "task3" then 4.0 else 2.0)
    else if examLevel == "advanced" then
      (if task == "task1" then 2.0 else if task == "task3" then 4.0 else 2.0)
    else 2.0
  }

  /** The deduction per error: a quarter point for beginners, half a point
      at every other level (and for an unknown one). */
  function DeductionPerError(examLevel: string): (d: real)
    ensures d == 0.25 || d == 0.5
    ensures d == 0.25 <==> examLevel == "beginner"
  {
    if examLevel == "beginner" then 0.25
    else if examLevel == "intermediate" then 0.5
    else if examLevel == "advanced" then 0.5
    else 0.5
  }

  /** The raw deduction for `n` errors: the level's per-error amount for
      each one. */
  function ErrorDeduction(examLevel: string, n: nat): (d: real)
    ensures d >= 0.0 && (d == 0.0 <==> n == 0)
    ensures d >= 0.25 * n as real
    ensures d == n as real * DeductionPerError(examLevel)
  {
    var perError := DeductionPerError(examLevel);
    ScaleMonotone(n as real, 0.25, perError);
    n as real * perError
  }

  /** The accuracy part before the deduction: 70% of the maximum, scaled by
      the accuracy out of 100. */
  function AccuracyShare(maxScore: real, accuracy: real): real {
    0.7 * maxScore * (accuracy / 100.0)
  }

  /** The complexity part: 30% of the maximum scaled by the complexity, and
      nothing unless complexity is above 50. */
  function ComplexityBonus(maxScore: real, complexity: real): (b: real)
    requires maxScore > 0.0
    ensures b >= 0.0
    ensures b == 0.0 <==> complexity <= 50.0
    ensures complexity > 50.0 ==> b == 0.3 * maxScore * (complexity / 100.0)
  {
    if complexity > 50.0 then
      ScaleMonotone(0.3 * maxScore, 0.0, complexity / 100.0);
      0.3 * maxScore * (complexity / 100.0)
    else 0.0
  }

  /** The points before clamping, for a raw deduction of `rawDeduction`
      (the error count times the per-error deduction): the accuracy share
      less the deduction capped at 70% of the maximum, never below 0, plus
      the complexity bonus. */
  function Points(maxScore: real, rawDeduction: real, accuracy: real, complexity: real): (p: real)
    requires maxScore > 0.0
    ensures p >= 0.0
    ensures rawDeduction >= 0.0 && complexity <= 50.0 ==> p <= Max(0.0, AccuracyShare(maxScore, accuracy))
  {
    var deduction := Min(rawDeduction, 0.7 * maxScore);
    Max(0.0, AccuracyShare(maxScore, accuracy) - deduction) + ComplexityBonus(maxScore, complexity)
  }

  /** The issue list: the error count and the first three errors when there
      are errors, then the structure issue when complexity is below 50. */
  function IssuesFor(errors: seq<string>, complexity: real): (r: seq<Issue>)
    ensures |r| == (if |errors| > 0 then 1 + (if |errors| < 3 then |errors| else 3) else 0)
                   + (if complexity < 50.0 then 1 else 0)
    ensures |errors| > 0 ==> r[0] == ErrorCount(|errors|)
    ensures forall i :: 0 <= i < |errors| && i < 3 ==> r[1 + i] == Error(errors[i])
    ensures (SimpleStructure in r) <==> complexity < 50.0
    ensures NothingToAssess !in r
  {
    var shown := if |errors| <= 3 then errors else errors[..3];
    var listed := seq(|shown|, i requires 0 <= i < |shown| => Error(shown[i]));
    (if |errors| > 0 then [ErrorCount(|errors|)] + listed else [])
    + (if complexity < 50.0 then [SimpleStructure] else [])
  }

  /** `score({"text": text}, task)`, given what the analyser would return. */
  function Score(text: string, examLevel: string, task: string, analysis: Analysis): (r: ScoringResult<Issue>)
    ensures r.maxScore == MaxScore(examLevel, task) > 0.0
    ensures 0.0 <= r.score <= r.maxScore
    ensures r.level == DetermineLevel(r.score, r.maxScore)
    ensures text == "" <==> r.issues == [NothingToAssess]
    ensures text == "" ==> r.score == 0.0 && r.feedback == NoContent
    ensures text != "" && analysis.complexity.GetOr(0.0) <= 50.0 ==>
      r.score <= Max(0.0, AccuracyShare(r.maxScore, analysis.accuracy.GetOr(0.0)))
    ensures text != "" ==>
      var errors, complexity := analysis.errors.GetOr([]), analysis.complexity.GetOr(0.0);
      && r.score == Min(r.maxScore, Points(r.maxScore, ErrorDeduction(examLevel, |errors|),
                                           analysis.accuracy.GetOr(0.0), complexity))
      && r.issues == IssuesFor(errors, complexity)
  {
    var maxScore := MaxScore(examLevel, task);
    if text == "" then
      ScoringResult(0.0, maxScore, Poor, [NothingToAssess], NoContent)
    else
      var errors := analysis.errors.GetOr([]);
      var complexity := analysis.complexity.GetOr(0.0);
      var points := Points(maxScore, ErrorDeduction(examLevel, |errors|), analysis.accuracy.GetOr(0.0), complexity);
      var score := Min(maxScore, points);
      var level := DetermineLevel(score, maxScore);
      var issues := IssuesFor(errors, complexity);
      ScoringResult(score, maxScore, level, issues, ProvidedOr(analysis.feedback, Canned(level, [ErrorCount(|errors|)])))
  }

  /** Below the cap of 70% of the maximum the whole deduction comes off the
      accuracy share, which stops at 0; the complexity part is untouched. */
  lemma DeductionComesOffAccuracy(maxScore: real, d: real, accuracy: real, complexity: real)
    requires maxScore > 0.0 && 0.0 <= d <= 0.7 * maxScore
    ensures Points(maxScore, d, accuracy, complexity)
         == Max(0.0, AccuracyShare(maxScore, accuracy) - d) + ComplexityBonus(maxScore, complexity)
    ensures AccuracyShare(maxScore, accuracy) >= d ==>
      Points(maxScore, d, accuracy, complexity) == Points(maxScore, 0.0, accuracy, complexity) - d
    ensures AccuracyShare(maxScore, accuracy) <= d ==>
      Points(maxScore, d, accuracy, complexity) == ComplexityBonus(maxScore, complexity)
  {
  }

  /** From 70% of the maximum on, the deduction is capped: any larger one
      gives the same points as the cap itself. */
  lemma DeductionSaturates(maxScore: real, d: real, accuracy: real, complexity: real)
    requires maxScore > 0.0 && d >= 0.7 * maxScore
    ensures Points(maxScore, d, accuracy, complexity) == Points(maxScore, 0.7 * maxScore, accuracy, complexity)
  {
  }

  /** A larger deduction never raises the points (all else equal). */
  lemma PointsAntitone(maxScore: real, x1: real, x2: real, accuracy: real, complexity: real)
    requires maxScore > 0.0 && x1 <= x2
    ensures Points(maxScore, x2, accuracy, complexity) <= Points(maxScore, x1, accuracy, complexity)
  {
  }

  /** More errors never raise the points (all else equal). */
  lemma MoreErrorsNeverHelp(maxScore: real, perError: real, n1: nat, n2: nat, accuracy: real, complexity: real)
    requires maxScore > 0.0 && perError > 0.0 && n1 <= n2
    ensures Points(maxScore, n2 as real * perError, accuracy, complexity)
         <= Points(maxScore, n1 as real * perError, accuracy, complexity)
  {
    ScaleMonotone(perError, n1 as real, n2 as real);
    PointsAntitone(maxScore, n1 as real * perError, n2 as real * perError, accuracy, complexity);
  }

  /** Error-free, fully accurate, fully complex speech gets the maximum. */
  lemma PerfectAnalysis(text: string, examLevel: string, task: string, feedback: Option<string>)
    requires text != ""
    ensures Score(text, examLevel, task, Analysis(Some([]), Some(100.0), Some(100.0), feedback)).score
         == MaxScore(examLevel, task)
    ensures Score(text, examLevel, task, Analysis(Some([]), Some(100.0), Some(100.0), feedback)).level == Excellent
    ensures Score(text, examLevel, task, Analysis(Some([]), Some(100.0), Some(100.0), feedback)).issues == []
  {
  }
}
