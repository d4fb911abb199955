/** The AI vocabulary scorer: diversity (60%) and accuracy (40%) are
    combined and banded at 80, 60 and 40; the top band also needs the
    vocabulary to match the HSK level. */
module VocabularyScorer {
  import opened Wrappers
  import opened BaseScorer

  datatype Issue =
    | NothingToAssess   // empty transcript
    | TooSimple         // diversity below 60
    | Inaccurate        // accuracy below 70
    | WrongHskLevel     // vocabulary does not match the HSK level

  datatype Analysis = Analysis(
    diversity: Option<real>,
    accuracy: Option<real>,
    hskLevelMatch: Option<bool>,
    feedback: Option<string>)

  function MaxScore(examLevel: string, task: string): real {
    if examLevel == "intermediate" && task == "task2" then 1.0 else 2.0
  }

  function Combined(diversity: real, accuracy: real): real {
    diversity * 0.6 + accuracy * 0.4
  }

  /** The band: Excellent needs both 80 combined and an HSK match; without
      the match 80 or more is only Good. */
  function LevelFor(combined: real, hskMatch: bool): (l: ScoreLevel)
    ensures l == Excellent <==> combined >= 80.0 && hskMatch
    ensures l == Good <==> combined >= 60.0 && !(combined >= 80.0 && hskMatch)
    ensures l == Poor <==> combined < 40.0
  {
    if combined >= 80.0 && hskMatch then Excellent
    else if combined >= 60.0 then Good
    else if combined >= 40.0 then Acceptable
    else Poor
  }

  function IssuesFor(diversity: real, accuracy: real, hskMatch: bool): (r: seq<Issue>)
    ensures (TooSimple in r) <==> diversity < 60.0
    ensures (Inaccurate in r) <==> accuracy < 70.0
    ensures (WrongHskLevel in r) <==> !hskMatch
    ensures NothingToAssess !in r && |r| <= 3
  {
    (if diversity < 60.0 then [TooSimple] else [])
    + (if accuracy < 70.0 then [Inaccurate] else [])
    + (if !hskMatch then [WrongHskLevel] else [])
  }

  /** `score({"text": text}, task)`; a missing HSK-match key counts as a match. */
  function Score(text: string, examLevel: string, task: string, analysis: Analysis): (r: ScoringResult<Issue>)
    ensures r.maxScore == MaxScore(examLevel, task) > 0.0
    ensures text == "" ==> r.score == 0.0 && r.level == Poor && r.issues == [NothingToAssess] && r.feedback == NoContent
    ensures text != "" ==>
      && r.score == r.maxScore * BandFraction(r.level)
      && r.level == DetermineLevel(r.score, r.maxScore)
      && (r.level == Excellent <==>
            Combined(analysis.diversity.GetOr(0.0), analysis.accuracy.GetOr(0.0)) >= 80.0 && analysis.hskLevelMatch.GetOr(true))
      && NothingToAssess !in r.issues
    ensures text != "" ==>
      var diversity, accuracy := analysis.diversity.GetOr(0.0), analysis.accuracy.GetOr(0.0);
      var hsk := analysis.hskLevelMatch.GetOr(true);
      && r.level == LevelFor(Combined(diversity, accuracy), hsk)
      && r.issues == IssuesFor(diversity, accuracy, hsk)
  {
    var maxScore := MaxScore(examLevel, task);
    if text == "" then
      ScoringResult(0.0, maxScore, Poor, [NothingToAssess], NoContent)
    else
      var diversity := analysis.diversity.GetOr(0.0);
      var accuracy := analysis.accuracy.GetOr(0.0);
      var hsk := analysis.hskLevelMatch.GetOr(true);
      var level := LevelFor(Combined(diversity, accuracy), hsk);
      BandAgreesWithLevel(level, maxScore);
      ScoringResult(maxScore * BandFraction(level), maxScore, level, IssuesFor(diversity, accuracy, hsk),
                    ProvidedOr(analysis.feedback, Canned(level, [])))
  }

  /** An HSK-level mismatch caps the result at Good, three quarters of the
      maximum, however high the combined score. */
  lemma MismatchCapsAtGood(text: string, examLevel: string, task: string, d: real, a: real, fb: Option<string>)
    requires text != ""
    ensures Score(text, examLevel, task, Analysis(Some(d), Some(a), Some(false), fb)).score
         <= 0.75 * MaxScore(examLevel, task)
    ensures WrongHskLevel in Score(text, examLevel, task, Analysis(Some(d), Some(a), Some(false), fb)).issues
  {
  }

  /** A higher combined score never gets a lower band. */
  lemma LevelMonotone(c1: real, c2: real, hsk: bool)
    requires c1 <= c2
    ensures Rank(LevelFor(c1, hsk)) <= Rank(LevelFor(c2, hsk))
  {
  }
}
