/** The acoustic fluency scorer: speech rate, pause pattern and rate
    stability each may raise an issue, and the number of issues alone sets
    the level and the share of the maximum awarded. */
module FluencyScorer {
  import opened Wrappers
  import opened Numbers
  import opened BaseScorer

  datatype Issue =
    | TooSlow | SlightlySlow | TooFast | SlightlyFast  // speech rate
    | TooManyPauses                                   // pause ratio above 0.25
    | PausesTooLong                                   // mean pause above 0.6 s
    | Hesitant                                        // many short pauses
    | UnsteadyRate                                    // articulation and speech rate differ by more than 50

  /** The detected-problem codes the scorer reports beside its issues. */
  datatype Problem = WrongPause | Hesitation | UnstableSpeed

  function MaxScore(examLevel: string, task: string): real {
    if examLevel == "beginner" then
      (if task == "task1" then 0.5 else if task == "task2" then 0.5 else if task == "task3" then 2.0 else 1.0)
    else if examLevel == "intermediate" then
      (if task == "task1" then 0.5 else if task == "task2" then 2.0 else if task == "task3" then 2.0 else 1.0)
    else if examLevel == "advanced" then
      (if task == "task1" then 2.0 else if task == "task2" then 5.0 else if task == "task3" then 3.0 else 1.0)
    else 1.0
  }

  /** The speech-rate check: ideal is 150 to 220 syllables per minute. */
  function RateIssue(rate: real): (r: Option<Issue>)
    ensures r.None? <==> 150.0 <= rate <= 220.0
    ensures r == Some(TooSlow) <==> rate < 100.0
    ensures r == Some(TooFast) <==> rate > 280.0
  {
    if rate < 100.0 then Some(TooSlow)
    else if rate < 150.0 then Some(SlightlySlow)
    else if rate > 280.0 then Some(TooFast)
    else if rate > 220.0 then Some(SlightlyFast)
    else None
  }

  /** Pauses scaled to a 30-second equivalent; the raw count when the
      duration is not positive. */
  function NormalizedPauses(numPauses: real, duration: real): real {
    if duration > 0.0 then numPauses / duration * 30.0 else numPauses
  }

  datatype PauseCheck = PauseCheck(issues: seq<Issue>, problems: seq<Problem>)

  /** Too much or too long pausing is one wrong-pause finding (the ratio is
      checked first); many short pauses are a separate hesitation finding. */
  function CheckPauses(pauseRatio: real, meanPause: real, normalizedPauses: real): (r: PauseCheck)
    ensures |r.issues| == |r.problems| <= 2
    ensures (WrongPause in r.problems) <==> (pauseRatio > 0.25 || meanPause > 0.6)
    ensures (Hesitation in r.problems) <==> (normalizedPauses > 10.0 && meanPause < 0.5)
    ensures TooManyPauses in r.issues <==> pauseRatio > 0.25
    ensures PausesTooLong in r.issues <==> pauseRatio <= 0.25 && meanPause > 0.6
    ensures Hesitant in r.issues <==> normalizedPauses > 10.0 && meanPause < 0.5
    ensures TooManyPauses in r.issues ==> PausesTooLong !in r.issues
  {
    var wrong :=
      if pauseRatio > 0.25 then PauseCheck([TooManyPauses], [WrongPause])
      else if meanPause > 0.6 then PauseCheck([PausesTooLong], [WrongPause])
      else PauseCheck([], []);
    if normalizedPauses > 10.0 && meanPause < 0.5 then
      PauseCheck(wrong.issues + [Hesitant], wrong.problems + [Hesitation])
    else wrong
  }

  /** The measures `score` reads, with the defaults used for a missing key. */
  datatype Measures = Measures(
    speechRate: real,
    pauseRatio: real,
    numPauses: real,
    meanPause: real,
    articulationRate: real,
    duration: real)

  function ReadMeasures(data: map<string, real>): Measures {
    Measures(
      Field(data, "speech_rate", 0.0),
      Field(data, "pause_ratio", 1.0),
      Field(data, "num_pauses", 0.0),
      Field(data, "mean_pause_duration", 0.0),
      Field(data, "articulation_rate", 0.0),
      Field(data, "duration", 1.0))
  }

  /** The level for a number of issues: none, one, two, three or more. */
  function LevelForCount(n: nat): (l: ScoreLevel)
    ensures Rank(l) == if n >= 3 then 0 else 3 - n
  {
    if n == 0 then Excellent else if n == 1 then Good else if n == 2 then Acceptable else Poor
  }

  function FeedbackFor(level: ScoreLevel, issues: seq<Issue>): Feedback<Issue> {
    match level
    case Excellent => Canned(Excellent, [])
    case Good => Canned(Good, if |issues| == 0 then [] else issues[..1])
    case Acceptable => Canned(Acceptable, if |issues| <= 2 then issues else issues[..2])
    case Poor => Canned(Poor, issues)
  }

  datatype FluencyResult = FluencyResult(result: ScoringResult<Issue>, problems: seq<Problem>)

  /** Scores the measures the way `score` does. */
  function ScoreMeasures(m: Measures, maxScore: real): (r: FluencyResult)
    requires maxScore > 0.0
    ensures r.result.maxScore == maxScore
    ensures |r.result.issues| <= 4
    ensures r.result.score == maxScore * BandFraction(r.result.level)
    ensures r.result.level == LevelForCount(|r.result.issues|)
    ensures r.result.level == DetermineLevel(r.result.score, maxScore)
    ensures 0.25 * maxScore <= r.result.score <= maxScore
    ensures (UnstableSpeed in r.problems) <==> Abs(m.articulationRate - m.speechRate) > 50.0
    ensures r.result.issues == [] <==>
      && 150.0 <= m.speechRate <= 220.0
      && m.pauseRatio <= 0.25 && m.meanPause <= 0.6
      && !(NormalizedPauses(m.numPauses, m.duration) > 10.0 && m.meanPause < 0.5)
      && Abs(m.articulationRate - m.speechRate) <= 50.0
    ensures var pauses := CheckPauses(m.pauseRatio, m.meanPause, NormalizedPauses(m.numPauses, m.duration));
      var unsteady := Abs(m.articulationRate - m.speechRate) > 50.0;
      && r.result.issues == (if RateIssue(m.speechRate).Some? then [RateIssue(m.speechRate).value] else [])
                            + pauses.issues + (if unsteady then [UnsteadyRate] else [])
      && r.problems == pauses.problems + (if unsteady then [UnstableSpeed] else [])
  {
    var rate := RateIssue(m.speechRate);
    var pauses := CheckPauses(m.pauseRatio, m.meanPause, NormalizedPauses(m.numPauses, m.duration));
    var unsteady := Abs(m.articulationRate - m.speechRate) > 50.0;
    var issues := (if rate.Some? then [rate.value] else []) + pauses.issues + (if unsteady then [UnsteadyRate] else []);
    var problems := pauses.problems + (if unsteady then [UnstableSpeed] else []);
    var level := LevelForCount(|issues|);
    var score := maxScore * BandFraction(level);
    BandAgreesWithLevel(level, maxScore);
    FluencyResult(ScoringResult(score, maxScore, level, issues, FeedbackFor(level, issues)), problems)
  }

  /** The number of the four checks the measures fail: speech rate outside
      150 to 220, too much or too long pausing, hesitation, and an unsteady
      articulation rate. */
  function FailedChecks(m: Measures): nat {
    (if 150.0 <= m.speechRate <= 220.0 then 0 else 1)
    + (if m.pauseRatio > 0.25 || m.meanPause > 0.6 then 1 else 0)
    + (if NormalizedPauses(m.numPauses, m.duration) > 10.0 && m.meanPause < 0.5 then 1 else 0)
    + (if Abs(m.articulationRate - m.speechRate) > 50.0 then 1 else 0)
  }

  /** Each failed check raises exactly one issue, so the level is the one
      for the number of failed checks. */
  lemma LevelCountsFailedChecks(m: Measures, maxScore: real)
    requires maxScore > 0.0
    ensures |ScoreMeasures(m, maxScore).result.issues| == FailedChecks(m)
    ensures ScoreMeasures(m, maxScore).result.level == LevelForCount(FailedChecks(m))
  {
  }

  /** `score(data, task)`. */
  function Score(data: map<string, real>, examLevel: string, task: string): (r: FluencyResult)
    ensures r.result.maxScore == MaxScore(examLevel, task) > 0.0
    ensures 0.25 * r.result.maxScore <= r.result.score <= r.result.maxScore
    ensures r.result.level == DetermineLevel(r.result.score, r.result.maxScore)
    ensures r == ScoreMeasures(ReadMeasures(data), MaxScore(examLevel, task))
  {
    ScoreMeasures(ReadMeasures(data), MaxScore(examLevel, task))
  }

  /** Each further issue costs exactly one level, down to Poor. */
  lemma MoreIssuesNeverBetter(a: nat, b: nat)
    requires a <= b
    ensures Rank(LevelForCount(b)) <= Rank(LevelForCount(a))
    ensures BandFraction(LevelForCount(b)) <= BandFraction(LevelForCount(a))
  {
  }

  /** With no measures, the rate reads as 0 (too slow) and the pause ratio as
      1 (too many pauses): two issues, so Acceptable and half the maximum. */
  lemma EmptyDataIsAcceptable(examLevel: string, task: string)
    ensures Score(map[], examLevel, task).result.issues == [TooSlow, TooManyPauses]
    ensures Score(map[], examLevel, task).result.level == Acceptable
    ensures Score(map[], examLevel, task).result.score == 0.5 * MaxScore(examLevel, task)
    ensures Score(map[], examLevel, task).problems == [WrongPause]
  {
  }
}
