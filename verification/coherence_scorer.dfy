/** The AI coherence scorer: the coherence score scales the maximum, raised
    by a tenth (capped at the maximum) when transitions are used and cut to
    four fifths when the ideas do not flow logically. */
module CoherenceScorer {
  import opened Wrappers
  import opened BaseScorer

  datatype Issue =
    | NothingToAssess   // empty transcript
    | NoTransitions     // no linking words between ideas
    | NoLogicalFlow     // ideas not logically connected
    | Disjointed        // coherence below 50

  datatype Analysis = Analysis(
    coherence: Option<real>,
    hasTransitions: Option<bool>,
    logicalFlow: Option<bool>,
    feedback: Option<string>)

  function MaxScore(examLevel: string, task: string): real {
    if examLevel == "intermediate" && task == "task2" then 1.0
    else if examLevel == "advanced" && task == "task3" then 3.0
    else 2.0
  }

  /** The score before levelling, within 0 and the maximum. */
  function Points(coherence: real, transitions: bool, flow: bool, maxScore: real): (p: real)
    requires maxScore > 0.0
    ensures 0.0 <= p <= maxScore
    ensures !flow && coherence <= 100.0 ==> p <= 0.8 * maxScore
  {
    var base := coherence / 100.0 * maxScore;
    assert coherence <= 100.0 ==> base <= maxScore by {
      if coherence <= 100.0 { ScaleMonotone(maxScore, coherence / 100.0, 1.0); }
    }
    var bonus := if transitions then (if base * 1.1 <= maxScore then base * 1.1 else maxScore) else base;
    var flowed := if flow then bonus else bonus * 0.8;
    if flowed < 0.0 then 0.0 else if flowed > maxScore then maxScore else flowed
  }

  function IssuesFor(coherence: real, transitions: bool, flow: bool): (r: seq<Issue>)
    ensures (NoTransitions in r) <==> !transitions
    ensures (NoLogicalFlow in r) <==> !flow
    ensures (Disjointed in r) <==> coherence < 50.0
    ensures NothingToAssess !in r && |r| <= 3
  {
    (if !transitions then [NoTransitions] else [])
    + (if !flow then [NoLogicalFlow] else [])
    + (if coherence < 50.0 then [Disjointed] else [])
  }

  /** `score({"text": text}, task)`; missing flags count as false. */
  function Score(text: string, examLevel: string, task: string, analysis: Analysis): (r: ScoringResult<Issue>)
    ensures r.maxScore == MaxScore(examLevel, task) > 0.0
    ensures 0.0 <= r.score <= r.maxScore
    ensures r.level == DetermineLevel(r.score, r.maxScore)
    ensures text == "" ==> r.score == 0.0 && r.issues == [NothingToAssess] && r.feedback == NoContent
    ensures text != "" ==> NothingToAssess !in r.issues
    ensures text != "" && !analysis.logicalFlow.GetOr(false) && analysis.coherence.GetOr(0.0) <= 100.0 ==>
      r.score <= 0.8 * r.maxScore
    ensures text != "" ==>
      var c, t, f := analysis.coherence.GetOr(0.0), analysis.hasTransitions.GetOr(false), analysis.logicalFlow.GetOr(false);
      r.score == Points(c, t, f, r.maxScore) && r.issues == IssuesFor(c, t, f)
  {
    var maxScore := MaxScore(examLevel, task);
    if text == "" then
      ScoringResult(0.0, maxScore, Poor, [NothingToAssess], NoContent)
    else
      var c := analysis.coherence.GetOr(0.0);
      var t := analysis.hasTransitions.GetOr(false);
      var f := analysis.logicalFlow.GetOr(false);
      var score := Points(c, t, f, maxScore);
      var level := DetermineLevel(score, maxScore);
      ScoringResult(score, maxScore, level, IssuesFor(c, t, f), ProvidedOr(analysis.feedback, Canned(level, [])))
  }

  /** A higher coherence score never lowers the points. */
  lemma PointsMonotone(c1: real, c2: real, transitions: bool, flow: bool, maxScore: real)
    requires maxScore > 0.0 && c1 <= c2
    ensures Points(c1, transitions, flow, maxScore) <= Points(c2, transitions, flow, maxScore)
  {
    ScaleMonotone(maxScore, c1 / 100.0, c2 / 100.0);
    var b1, b2 := c1 / 100.0 * maxScore, c2 / 100.0 * maxScore;
    assert c1 / 100.0 * maxScore <= c2 / 100.0 * maxScore;
    assert b1 <= b2;
    assert b1 * 1.1 <= b2 * 1.1 && b1 * 0.8 <= b2 * 0.8;
  }

  /** On the analyser's 0 to 100 scale, with logical flow and no
      transitions, the points are the coherence share of the maximum. */
  lemma PointsPlain(c: real, maxScore: real)
    requires maxScore > 0.0 && 0.0 <= c <= 100.0
    ensures Points(c, false, true, maxScore) == c / 100.0 * maxScore
  {
    ScaleMonotone(maxScore, 0.0, c / 100.0);
    ScaleMonotone(maxScore, c / 100.0, 1.0);
  }

  /** Missing logical flow takes a fifth off the points, transitions or not. */
  lemma FlowCutsAFifth(c: real, transitions: bool, maxScore: real)
    requires maxScore > 0.0 && 0.0 <= c <= 100.0
    ensures Points(c, transitions, false, maxScore) == 0.8 * Points(c, transitions, true, maxScore)
  {
    ScaleMonotone(maxScore, 0.0, c / 100.0);
    ScaleMonotone(maxScore, c / 100.0, 1.0);
  }

  /** Transitions add a tenth to the plain points, up to the maximum: the
      cap is reached exactly when 1.1 times the coherence exceeds 100. */
  lemma TransitionsAddATenth(c: real, maxScore: real)
    requires maxScore > 0.0 && 0.0 <= c <= 100.0
    ensures c * 1.1 <= 100.0 ==> Points(c, true, true, maxScore) == 1.1 * Points(c, false, true, maxScore)
    ensures c * 1.1 > 100.0 ==> Points(c, true, true, maxScore) == maxScore
  {
    PointsPlain(c, maxScore);
    var base := c / 100.0 * maxScore;
    assert base * 1.1 == (c * 1.1 / 100.0) * maxScore;
    if c * 1.1 <= 100.0 {
      ScaleMonotone(maxScore, 0.0, c * 1.1 / 100.0);
      ScaleMonotone(maxScore, c * 1.1 / 100.0, 1.0);
    } else {
      ScaleMonotone(maxScore, 1.0, c * 1.1 / 100.0);
    }
  }

  /** Using transitions never lowers the points, for a coherence score on
      the analyser's 0 to 100 scale. (Above 125 without logical flow it would:
      the bonus is capped at the maximum before the flow cut.) */
  lemma TransitionsNeverHurt(c: real, flow: bool, maxScore: real)
    requires maxScore > 0.0 && c <= 100.0
    ensures Points(c, false, flow, maxScore) <= Points(c, true, flow, maxScore)
  {
    ScaleMonotone(maxScore, c / 100.0, 1.0);
  }

  /** Out of scale the order flips: at coherence 200 without logical flow,
      transitions give four fifths of the maximum, no transitions the full
      maximum. */
  lemma TransitionsHurtOutOfScale()
    ensures Points(200.0, false, false, 1.0) == 1.0
    ensures Points(200.0, true, false, 1.0) == 0.8
  {
  }

  /** A missing analysis (empty dictionary) on a non-empty transcript gives
      zero and all three issues. */
  lemma EmptyAnalysis(text: string, examLevel: string, task: string)
    requires text != ""
    ensures Score(text, examLevel, task, Analysis(None, None, None, None)).score == 0.0
    ensures Score(text, examLevel, task, Analysis(None, None, None, None)).issues == [NoTransitions, NoLogicalFlow, Disjointed]
  {
  }
}
