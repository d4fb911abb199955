/** The AI task-achievement scorer. A repeat task (task1 with a reference
    text) is banded on similarity to the reference at 90, 70 and 50; any
    other task on 0.6 relevance + 0.4 completeness at 85, 70 and 50. */
module TaskAchievementScorer {
  import opened Wrappers
  import opened BaseScorer

  datatype Issue =
    | NothingSaid                  // empty transcript
    | MissingContent(items: seq<string>) // at most the first three missing items
    | OffTopic                     // relevance below 70
    | Incomplete                   // completeness below 70

  datatype SimilarityAnalysis = SimilarityAnalysis(
    similarity: Option<real>,
    missing: Option<seq<string>>,
    feedback: Option<string>)

  datatype AchievementAnalysis = AchievementAnalysis(
    relevance: Option<real>,
    completeness: Option<real>,
    feedback: Option<string>)

  function MaxScore(examLevel: string, task: string): real {
    if examLevel == "beginner" then
      (if task == "task1" then 1.0 else if task == "task2" then 1.5 else if task == "task3" then 6.0 else 1.0)
    else if examLevel == "intermediate" then
      (if task == "task1" then 1.5 else if task == "task2" then 5.0 else if task == "task3" then 6.0 else 1.0)
    else if examLevel == "advanced" then
      (if task == "task1" then 4.0 else if task == "task2" then 10.0 else if task == "task3" then 8.0 else 1.0)
    else 1.0
  }

  /** Which analysis a request gets: similarity exactly for task1 with a
      non-empty reference text. */
  predicate UsesSimilarity(task: string, reference: Option<string>) {
    task == "task1" && reference.Some? && reference.value != ""
  }

  function ScoreSimilarity(maxScore: real, a: SimilarityAnalysis): (r: ScoringResult<Issue>)
    requires maxScore > 0.0
    ensures r.maxScore == maxScore && r.score == maxScore * BandFraction(r.level)
    ensures r.level == DetermineLevel(r.score, maxScore)
    ensures r.level == Band(a.similarity.GetOr(0.0), 90.0, 70.0, 50.0)
    ensures |r.issues| <= 1
    ensures r.issues == [] <==> a.missing.GetOr([]) == []
    ensures forall i :: 0 <= i < |r.issues| ==> r.issues[i].MissingContent? && |r.issues[i].items| <= 3
    ensures r.issues != [] ==>
      var missing := a.missing.GetOr([]);
      r.issues[0].items <= missing && |r.issues[0].items| == (if |missing| <= 3 then |missing| else 3)
    ensures r.feedback == ProvidedOr(a.feedback, Canned(r.level, []))
  {
    var level := Band(a.similarity.GetOr(0.0), 90.0, 70.0, 50.0);
    var missing := a.missing.GetOr([]);
    var issues := if missing == [] then [] else [MissingContent(if |missing| <= 3 then missing else missing[..3])];
    BandAgreesWithLevel(level, maxScore);
    ScoringResult(maxScore * BandFraction(level), maxScore, level, issues, ProvidedOr(a.feedback, Canned(level, [])))
  }

  function Combined(relevance: real, completeness: real): real {
    relevance * 0.6 + completeness * 0.4
  }

  function ScoreAchievement(maxScore: real, a: AchievementAnalysis): (r: ScoringResult<Issue>)
    requires maxScore > 0.0
    ensures r.maxScore == maxScore && r.score == maxScore * BandFraction(r.level)
    ensures r.level == DetermineLevel(r.score, maxScore)
    ensures r.level == Band(Combined(a.relevance.GetOr(0.0), a.completeness.GetOr(0.0)), 85.0, 70.0, 50.0)
    ensures (OffTopic in r.issues) <==> a.relevance.GetOr(0.0) < 70.0
    ensures (Incomplete in r.issues) <==> a.completeness.GetOr(0.0) < 70.0
    ensures |r.issues| <= 2
    ensures r.feedback == ProvidedOr(a.feedback, Canned(r.level, []))
  {
    var relevance := a.relevance.GetOr(0.0);
    var completeness := a.completeness.GetOr(0.0);
    var level := Band(Combined(relevance, completeness), 85.0, 70.0, 50.0);
    var issues := (if relevance < 70.0 then [OffTopic] else []) + (if completeness < 70.0 then [Incomplete] else []);
    BandAgreesWithLevel(level, maxScore);
    ScoringResult(maxScore * BandFraction(level), maxScore, level, issues, ProvidedOr(a.feedback, Canned(level, [])))
  }

  /** `score({"text": text}, task, reference_text)`, given both analyses the
      provider would return; only the one on the chosen path is used. */
  function Score(text: string, examLevel: string, task: string, reference: Option<string>,
                 similarity: SimilarityAnalysis, achievement: AchievementAnalysis): (r: ScoringResult<Issue>)
    ensures r.maxScore == MaxScore(examLevel, task) > 0.0
    ensures text == "" ==> r.score == 0.0 && r.level == Poor && r.issues == [NothingSaid] && r.feedback == NoContent
    ensures text != "" ==> r.score == r.maxScore * BandFraction(r.level) && r.level == DetermineLevel(r.score, r.maxScore)
    ensures text != "" && UsesSimilarity(task, reference) ==>
      r.level == Band(similarity.similarity.GetOr(0.0), 90.0, 70.0, 50.0)
    ensures text != "" && !UsesSimilarity(task, reference) ==>
      r.level == Band(Combined(achievement.relevance.GetOr(0.0), achievement.completeness.GetOr(0.0)), 85.0, 70.0, 50.0)
    ensures text != "" && UsesSimilarity(task, reference) ==> r == ScoreSimilarity(r.maxScore, similarity)
    ensures text != "" && !UsesSimilarity(task, reference) ==> r == ScoreAchievement(r.maxScore, achievement)
  {
    var maxScore := MaxScore(examLevel, task);
    if text == "" then ScoringResult(0.0, maxScore, Poor, [NothingSaid], NoContent)
    else if UsesSimilarity(task, reference) then ScoreSimilarity(maxScore, similarity)
    else ScoreAchievement(maxScore, achievement)
  }

  /** The similarity path ignores the achievement analysis, and the other
      path ignores the similarity analysis. */
  lemma PathIsolation(text: string, examLevel: string, task: string, reference: Option<string>,
                      s1: SimilarityAnalysis, s2: SimilarityAnalysis, a1: AchievementAnalysis, a2: AchievementAnalysis)
    ensures UsesSimilarity(task, reference) ==>
      Score(text, examLevel, task, reference, s1, a1) == Score(text, examLevel, task, reference, s1, a2)
    ensures !UsesSimilarity(task, reference) ==>
      Score(text, examLevel, task, reference, s1, a1) == Score(text, examLevel, task, reference, s2, a1)
  {
  }

  /** A reference text is only used on task1: on any other task the scorer
      judges relevance and completeness even when a reference is given. */
  lemma ReferenceOnlyOnTaskOne(text: string, examLevel: string, task: string, reference: string,
                               s: SimilarityAnalysis, a: AchievementAnalysis)
    requires text != "" && task != "task1"
    ensures Score(text, examLevel, task, Some(reference), s, a) == ScoreAchievement(MaxScore(examLevel, task), a)
  {
  }
}
