/** The acoustic scoring endpoint: the request names an exam level and a
    task code, the audio's features are extracted, the pronunciation and
    fluency scorers run on them, and the two results are summed into a total
    and a percentage. The endpoint never fails outright: an unsuccessful or
    raising extraction becomes a response with `success` false. */
module ScoringApi {
  import opened Wrappers
  import opened BaseScorer
  import opened TaskCriteria
  import PraatService
  import PronunciationScorer
  import FluencyScorer
  import GrammarScorer
  import VocabularyScorer
  import CoherenceScorer
  import TaskAchievementScorer

  /** The `exam_level` query parameter; the web layer rejects anything else. */
  datatype ExamLevel = Beginner | Intermediate | Advanced

  /** The parameter's wire value. */
  function LevelValue(l: ExamLevel): string {
    match l
    case Beginner => "101"
    case Intermediate => "102"
    case Advanced => "103"
  }

  /** `LEVEL_MAPPING`: the scorers' name for an exam level. */
  function LevelMapping(l: ExamLevel): (name: string)
    ensures name in {"beginner", "intermediate", "advanced"}
  {
    match l
    case Beginner => "beginner"
    case Intermediate => "intermediate"
    case Advanced => "advanced"
  }

  /** `TASK_MAPPING`: the scorers' name for a task code, by its variant only. */
  function TaskMapping(c: TaskCode): (task: string)
    ensures task in {"task1", "task2", "task3"}
  {
    match c
    case HSKKSC1 => "task1" case HSKKSC2 => "task2" case HSKKSC3 => "task3"
    case HSKKTC1 => "task1" case HSKKTC2 => "task2" case HSKKTC3 => "task3"
    case HSKKCC1 => "task1" case HSKKCC2 => "task2" case HSKKCC3 => "task3"
  }

  /** The exam level a task code belongs to (SC, TC or CC). */
  function LevelOf(c: TaskCode): ExamLevel {
    match c
    case HSKKSC1 | HSKKSC2 | HSKKSC3 => Beginner
    case HSKKTC1 | HSKKTC2 | HSKKTC3 => Intermediate
    case HSKKCC1 | HSKKCC2 | HSKKCC3 => Advanced
  }

  /** The task mapping reads the code's last character: a code ending in
      1, 2 or 3 is task1, task2 or task3. */
  lemma TaskMappingByLastDigit(c: TaskCode)
    ensures |CodeName(c)| == 7
    ensures TaskMapping(c) == "task" + [CodeName(c)[6]]
  {
  }

  /** The level mapping is one-to-one, and it agrees with the registry's own
      level fields for the codes of that level. */
  lemma LevelMappingAgreesWithRegistry(c: TaskCode, l: ExamLevel)
    ensures Config(c).examLevel == LevelValue(l) <==> LevelOf(c) == l
    ensures Config(c).levelName == LevelMapping(LevelOf(c))
    ensures forall m: ExamLevel :: LevelMapping(m) == LevelMapping(l) <==> m == l
  {
  }

  /** The maximum each criterion's scorer uses for a level and task. */
  function ScorerMax(kind: CriteriaType, level: string, task: string): real {
    match kind
    case TaskAchievement => TaskAchievementScorer.MaxScore(level, task)
    case Pronunciation => PronunciationScorer.MaxScore(level, task)
    case Fluency => FluencyScorer.MaxScore(level, task)
    case Grammar => GrammarScorer.MaxScore(level, task)
    case Vocabulary => VocabularyScorer.MaxScore(level, task)
    case Coherence => CoherenceScorer.MaxScore(level, task)
  }

  /** The scorers keep their own maximum tables; under the two mappings they
      agree, criterion by criterion, with the registry's plan for the task. */
  lemma ScorerTablesMatchRegistry(c: TaskCode)
    ensures var cs := Config(c).criteria;
      forall i :: 0 <= i < |cs| ==> ScorerMax(cs[i].kind, LevelMapping(LevelOf(c)), TaskMapping(c)) == cs[i].maxScore
  {
  }

  /** A request whose level does not match its code is still scored, against
      the tables of the requested level: HSKKCC2 asked at level 101 is scored
      out of 0.5 + 0.5 rather than the plan's 5 + 5. */
  lemma MismatchedLevelUsesRequestedTables()
    ensures LevelOf(HSKKCC2) != Beginner
    ensures PronunciationScorer.MaxScore(LevelMapping(Beginner), TaskMapping(HSKKCC2)) == 0.5
    ensures FluencyScorer.MaxScore(LevelMapping(Beginner), TaskMapping(HSKKCC2)) == 0.5
    ensures PronunciationScorer.MaxScore(LevelMapping(LevelOf(HSKKCC2)), TaskMapping(HSKKCC2)) == 5.0
  {
  }

  /** HSKKCC2 (reading aloud) is registered as needing a reference text, but
      it maps to task2, and the task-achievement scorer compares with a
      reference on task1 only: for this code the reference is never used. */
  lemma ReadAloudIgnoresReference(text: string, reference: string,
                                  s: TaskAchievementScorer.SimilarityAnalysis, a: TaskAchievementScorer.AchievementAnalysis)
    requires text != ""
    ensures TaskRequiresReference(CodeName(HSKKCC2))
    ensures !TaskAchievementScorer.UsesSimilarity(TaskMapping(HSKKCC2), Some(reference))
    ensures TaskAchievementScorer.Score(text, LevelMapping(Advanced), TaskMapping(HSKKCC2), Some(reference), s, a)
         == TaskAchievementScorer.ScoreAchievement(10.0, a)
  {
    RequiresReferenceExactly(CodeName(HSKKCC2));
    TaskAchievementScorer.ReferenceOnlyOnTaskOne(text, LevelMapping(Advanced), TaskMapping(HSKKCC2), reference, s, a);
  }

  // ---------------------------------------------------------------------
  // The endpoint
  // ---------------------------------------------------------------------

  /** How feature extraction ended. `dumped` is `features.model_dump()`. */
  datatype Extraction =
    | Extracted(dumped: map<string, real>)
    | Unsuccessful(errorMessage: Option<string>)  // `success` false or no features
    | Raised(message: string)                     // an exception while reading or extracting

  /** `ScoreDetail`: one scorer's result as the response shows it. */
  datatype ScoreDetail<I> = ScoreDetail(
    criteriaName: string,
    score: real,
    maxScore: real,
    percentage: real,
    level: string,
    issues: seq<I>,
    feedback: Feedback<I>)

  /** `ScoreResponse`, without the processing time. */
  datatype ScoreResponse = ScoreResponse(
    success: bool,
    examLevel: string,
    taskCode: string,
    features: Option<map<string, real>>,
    pronunciation: Option<ScoreDetail<PronunciationScorer.Issue>>,
    fluency: Option<ScoreDetail<FluencyScorer.Issue>>,
    praatScore: real,
    praatMaxScore: real,
    praatPercentage: real,
    errorMessage: Option<string>)

  const PronunciationName: string := "Ph\U{00E1}t \U{00E2}m (Pronunciation)"
  const FluencyName: string := "\U{0110}\U{1ED9} tr\U{00F4}i ch\U{1EA3}y (Fluency)"

  /** `scoring_result_to_detail`: the result under a criterion name. */
  function ToDetail<I>(r: ScoringResult<I>, name: string): (d: ScoreDetail<I>)
    requires 0.0 <= r.score <= r.maxScore
    ensures d.criteriaName == name && d.score == r.score && d.maxScore == r.maxScore
    ensures d.issues == r.issues && d.feedback == r.feedback && d.level == LevelName(r.level)
    ensures 0.0 <= d.percentage <= 100.0
    ensures d.maxScore != 0.0 ==> IsShare(d.percentage, d.score, d.maxScore)
  {
    PercentageBounds(r.score, r.maxScore);
    ScoreDetail(name, r.score, r.maxScore, r.Percentage(), LevelName(r.level), r.issues, r.feedback)
  }

  /** `pct` is `part` as a percentage of `whole`. */
  predicate IsShare(pct: real, part: real, whole: real) {
    pct * whole == part * 100.0
  }

  /** The total as a percentage of the combined maximum; 0 unless that
      maximum is positive. */
  function TotalPercentage(total: real, maxTotal: real): (pct: real)
    ensures maxTotal > 0.0 ==> IsShare(pct, total, maxTotal)
    ensures maxTotal <= 0.0 ==> pct == 0.0
  {
    if maxTotal > 0.0 then total / maxTotal * 100.0 else 0.0
  }

  /** A part of a positive whole is between 0 and 100 percent of it. */
  lemma PercentageBounds(part: real, whole: real)
    requires 0.0 <= part <= whole
    ensures whole > 0.0 ==> 0.0 <= part / whole * 100.0 <= 100.0
  {
    if whole > 0.0 {
      assert part / whole <= whole / whole;
    }
  }

  /** The response for a request that produced no scores. */
  function Failed(level: ExamLevel, code: TaskCode, message: Option<string>): ScoreResponse {
    ScoreResponse(false, LevelValue(level), CodeName(code), None, None, None, 0.0, 0.0, 0.0, message)
  }

  /** The successful response: both details, and the two results summed
      into a total, a combined maximum and a percentage. */
  function Scored(level: ExamLevel, code: TaskCode, dumped: map<string, real>,
                  p: ScoringResult<PronunciationScorer.Issue>, f: ScoringResult<FluencyScorer.Issue>): (r: ScoreResponse)
    requires 0.0 <= p.score <= p.maxScore && 0.0 <= f.score <= f.maxScore
    ensures r.success && r.features == Some(dumped) && r.errorMessage.None?
    ensures r.examLevel == LevelValue(level) && r.taskCode == CodeName(code)
    ensures r.pronunciation == Some(ToDetail(p, PronunciationName)) && r.fluency == Some(ToDetail(f, FluencyName))
    ensures r.praatScore == p.score + f.score && r.praatMaxScore == p.maxScore + f.maxScore
    ensures 0.0 <= r.praatScore <= r.praatMaxScore
    ensures 0.0 <= r.praatPercentage <= 100.0
    ensures r.praatMaxScore > 0.0 ==> IsShare(r.praatPercentage, r.praatScore, r.praatMaxScore)
  {
    var total := p.score + f.score;
    var maxTotal := p.maxScore + f.maxScore;
    PercentageBounds(total, maxTotal);
    ScoreResponse(true, LevelValue(level), CodeName(code), Some(dumped),
                  Some(ToDetail(p, PronunciationName)), Some(ToDetail(f, FluencyName)),
                  total, maxTotal, TotalPercentage(total, maxTotal), None)
  }

  /** `score_audio`: both scorers run on the same dumped features, under the
      names the two mappings give the level and the task. */
  function ScoreAudio(level: ExamLevel, code: TaskCode, extraction: Extraction): (r: ScoreResponse)
    ensures r.examLevel == LevelValue(level) && r.taskCode == CodeName(code)
    ensures r.success <==> extraction.Extracted?
    ensures extraction.Unsuccessful? ==> r == Failed(level, code, extraction.errorMessage)
    ensures extraction.Raised? ==> r == Failed(level, code, Some(extraction.message))
    ensures extraction.Extracted? ==>
      r == Scored(level, code, extraction.dumped,
                  PronunciationScorer.Score(extraction.dumped, LevelMapping(level), TaskMapping(code)),
                  FluencyScorer.Score(extraction.dumped, LevelMapping(level), TaskMapping(code)).result)
  {
    match extraction
    case Unsuccessful(message) => Failed(level, code, message)
    case Raised(message) => Failed(level, code, Some(message))
    case Extracted(dumped) =>
      var examLevel, task := LevelMapping(level), TaskMapping(code);
      Scored(level, code, dumped, PronunciationScorer.Score(dumped, examLevel, task),
             FluencyScorer.Score(dumped, examLevel, task).result)
  }

  /** Every successful response carries both details; its total is their
      sum, out of the sum of their maxima; the percentage is within 0..100
      and is the total's share of the maximum; and the total never falls
      below a quarter of the fluency maximum, fluency's floor. */
  lemma SuccessfulTotals(level: ExamLevel, code: TaskCode, dumped: map<string, real>)
    ensures var r := ScoreAudio(level, code, Extracted(dumped));
      && r.success && r.pronunciation.Some? && r.fluency.Some?
      && r.praatMaxScore == r.pronunciation.value.maxScore + r.fluency.value.maxScore > 0.0
      && r.praatScore == r.pronunciation.value.score + r.fluency.value.score
      && 0.25 * r.fluency.value.maxScore <= r.praatScore <= r.praatMaxScore
      && 0.0 <= r.praatPercentage <= 100.0
      && IsShare(r.praatPercentage, r.praatScore, r.praatMaxScore)
  {
    var examLevel, task := LevelMapping(level), TaskMapping(code);
    var p := PronunciationScorer.Score(dumped, examLevel, task);
    var f := FluencyScorer.Score(dumped, examLevel, task).result;
    assert ScoreAudio(level, code, Extracted(dumped)) == Scored(level, code, dumped, p, f);
    ScoredTotals(level, code, dumped, p, f);
  }

  /** The two maxima are the scorers' table entries for the requested level
      and the code's task. */
  lemma MaximaFromTables(level: ExamLevel, code: TaskCode, dumped: map<string, real>)
    ensures var r := ScoreAudio(level, code, Extracted(dumped));
      && r.pronunciation.Some? && r.fluency.Some?
      && r.pronunciation.value.maxScore == PronunciationScorer.MaxScore(LevelMapping(level), TaskMapping(code))
      && r.fluency.value.maxScore == FluencyScorer.MaxScore(LevelMapping(level), TaskMapping(code))
  {
  }

  lemma ScoredTotals(level: ExamLevel, code: TaskCode, dumped: map<string, real>,
                     p: ScoringResult<PronunciationScorer.Issue>, f: ScoringResult<FluencyScorer.Issue>)
    requires 0.0 <= p.score <= p.maxScore && p.maxScore > 0.0
    requires 0.25 * f.maxScore <= f.score <= f.maxScore
    ensures var r := Scored(level, code, dumped, p, f);
      && r.pronunciation.value.maxScore == p.maxScore && r.fluency.value.maxScore == f.maxScore
      && r.praatMaxScore == p.maxScore + f.maxScore > 0.0
      && r.praatScore == r.pronunciation.value.score + r.fluency.value.score
      && 0.25 * f.maxScore <= r.praatScore <= r.praatMaxScore
      && 0.0 <= r.praatPercentage <= 100.0
      && IsShare(r.praatPercentage, r.praatScore, r.praatMaxScore)
  {
  }

  /** The scores read the extracted features themselves: HNR, jitter and
      shimmer for pronunciation, and the rate and pause measures for fluency. */
  lemma ScoresReadExtractedFeatures(level: ExamLevel, code: TaskCode, dumped: map<string, real>, f: PraatService.AudioFeatures)
    requires PraatService.Holds(dumped, f)
    ensures var r := ScoreAudio(level, code, Extracted(dumped));
      var pmax := PronunciationScorer.MaxScore(LevelMapping(level), TaskMapping(code));
      var fmax := FluencyScorer.MaxScore(LevelMapping(level), TaskMapping(code));
      var p := PronunciationScorer.ScoreMeasures(f.hnrMean, f.jitterLocal, f.shimmerLocal, pmax);
      var fl := FluencyScorer.ScoreMeasures(
        FluencyScorer.Measures(f.speechRate, f.pauseRatio, f.numPauses as real, f.meanPauseDuration, f.articulationRate, f.duration),
        fmax).result;
      && r.pronunciation.value.score == p.score && r.pronunciation.value.issues == p.issues
      && r.fluency.value.score == fl.score && r.fluency.value.issues == fl.issues
  {
  }

  /** Praat output with no readable values builds the default features
      (HNR 20, jitter 0.01, shimmer 0.1, rate 180, pause ratio 0.1): only
      shimmer costs anything, so pronunciation is Good at three quarters of
      its maximum and fluency is Excellent at its full maximum. */
  lemma DefaultFeaturesScore(level: ExamLevel, code: TaskCode, dumped: map<string, real>)
    requires PraatService.Holds(dumped, PraatService.Build(map[]))
    ensures var r := ScoreAudio(level, code, Extracted(dumped));
      var pmax := PronunciationScorer.MaxScore(LevelMapping(level), TaskMapping(code));
      var fmax := FluencyScorer.MaxScore(LevelMapping(level), TaskMapping(code));
      && r.pronunciation.value.issues == [PronunciationScorer.ShimmerHigh]
      && r.pronunciation.value.score == 0.75 * pmax
      && r.pronunciation.value.level == LevelName(Good)
      && r.fluency.value.issues == []
      && r.fluency.value.level == LevelName(Excellent)
      && r.praatScore == 0.75 * pmax + fmax
  {
    PraatService.EmptyOutputGivesDefaults();
    var pmax := PronunciationScorer.MaxScore(LevelMapping(level), TaskMapping(code));
    var fmax := FluencyScorer.MaxScore(LevelMapping(level), TaskMapping(code));
    ScoresReadExtractedFeatures(level, code, dumped, PraatService.Defaults());
    DefaultPronunciation(pmax);
    DefaultFluency(fmax);
  }

  /** At the default HNR, jitter and shimmer only the shimmer check deducts:
      a quarter of the maximum. */
  lemma DefaultPronunciation(pmax: real)
    requires pmax > 0.0
    ensures var d := PraatService.Defaults();
      var p := PronunciationScorer.ScoreMeasures(d.hnrMean, d.jitterLocal, d.shimmerLocal, pmax);
      && p.issues == [PronunciationScorer.ShimmerHigh]
      && p.score == 0.75 * pmax
      && p.level == Good
  {
    var d := PraatService.Defaults();
    assert PronunciationScorer.Deduction(d.hnrMean, d.jitterLocal, d.shimmerLocal) == 0.25;
  }

  /** At the default rate and pauses no fluency check fires. */
  lemma DefaultFluency(fmax: real)
    requires fmax > 0.0
    ensures var f := PraatService.Defaults();
      var fl := FluencyScorer.ScoreMeasures(
        FluencyScorer.Measures(f.speechRate, f.pauseRatio, f.numPauses as real, f.meanPauseDuration, f.articulationRate, f.duration),
        fmax).result;
      && fl.issues == []
      && fl.level == Excellent
      && fl.score == fmax
  {
  }
}
