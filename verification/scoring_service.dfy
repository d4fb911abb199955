/** The older whole-recording scorer on a 0 to 100 scale: pronunciation and
    fluency from the acoustic features, grammar and vocabulary from a
    placeholder text check, a weighted overall score, and the level it
    reaches. Also the 0 to 1 component curves of the pronunciation
    assessment. */
module ScoringService {
  import opened Wrappers
  import opened Numbers
  import PraatService

  type AudioFeatures = PraatService.AudioFeatures

  function Clamp100(x: real): (r: real)
    ensures 0.0 <= r <= 100.0
    ensures 0.0 <= x <= 100.0 ==> r == x
  {
    if x < 0.0 then 0.0 else if x > 100.0 then 100.0 else x
  }

  // ---------------------------------------------------------------------
  // Pronunciation

  datatype Band3 = Excellent | Middle | Poor

  /** The kinds of pronunciation feedback (the keys of the feedback dictionary). */
  datatype PronunciationNote = VoiceQuality | VoiceStability | Amplitude | VowelOpening | TonguePosition | Monotone

  datatype PronunciationAnalysis = PronunciationAnalysis(
    score: real, hnrQuality: Band3, voiceStability: Band3, notes: set<PronunciationNote>)

  /** The HNR deduction: none from 20, a sliding one from 10 down to 0
      between 15 and 20, and 20 below 15. */
  function HnrDeduction(hnr: real): (d: real)
    ensures 0.0 <= d <= 20.0
    ensures d == 0.0 <==> hnr >= 20.0
  {
    if hnr >= 20.0 then 0.0
    else if hnr >= 15.0 then 10.0 * (1.0 - (hnr - 15.0) / 5.0)
    else 20.0
  }

  /** The jitter deduction: none up to 0.01, sliding up to 10 until 0.015,
      15 above. */
  function JitterDeduction(jitter: real): (d: real)
    ensures 0.0 <= d <= 15.0
    ensures d == 0.0 <==> jitter <= 0.01
  {
    if jitter <= 0.01 then 0.0
    else if jitter <= 0.015 then 10.0 * ((jitter - 0.01) / 0.005)
    else 15.0
  }

  function ShimmerDeduction(shimmer: real): (d: real)
    ensures d == 0.0 || d == 5.0 || d == 10.0
    ensures d == 0.0 <==> shimmer <= 0.05
  {
    if shimmer > 0.08 then 10.0 else if shimmer > 0.05 then 5.0 else 0.0
  }

  predicate F1Valid(f1: real) { 300.0 <= f1 <= 1000.0 }
  predicate F2Valid(f2: real) { 800.0 <= f2 <= 3000.0 }

  /** The pronunciation score before clamping. */
  function PronunciationRaw(f: AudioFeatures): (s: real)
    ensures 35.0 <= s <= 100.0
  {
    100.0 - HnrDeduction(f.hnrMean) - JitterDeduction(f.jitterLocal) - ShimmerDeduction(f.shimmerLocal)
    - (if F1Valid(f.f1Mean) then 0.0 else 5.0) - (if F2Valid(f.f2Mean) then 0.0 else 5.0)
    - (if f.pitchRange < 50.0 then 10.0 else 0.0)
  }

  /** `_analyze_pronunciation`. The deductions add up to at most 65, so the
      clamp to 0..100 never bites: the score is at least 35. */
  function AnalyzePronunciation(f: AudioFeatures): (a: PronunciationAnalysis)
    ensures 35.0 <= a.score <= 100.0 && a.score == PronunciationRaw(f)
    ensures a.score == 100.0 <==>
      f.hnrMean >= 20.0 && f.jitterLocal <= 0.01 && f.shimmerLocal <= 0.05
      && F1Valid(f.f1Mean) && F2Valid(f.f2Mean) && f.pitchRange >= 50.0
    ensures a.hnrQuality == Excellent <==> f.hnrMean >= 20.0
    ensures a.hnrQuality == Poor <==> f.hnrMean < 15.0
    ensures a.voiceStability == Excellent <==> f.jitterLocal <= 0.01
    ensures a.voiceStability == Poor <==> f.jitterLocal > 0.015
    ensures VoiceQuality in a.notes <==> f.hnrMean < 15.0
    ensures Amplitude in a.notes <==> f.shimmerLocal > 0.08
    ensures Monotone in a.notes <==> f.pitchRange < 50.0
    ensures VoiceStability in a.notes <==> f.jitterLocal > 0.015
    ensures VowelOpening in a.notes <==> !F1Valid(f.f1Mean)
    ensures TonguePosition in a.notes <==> !F2Valid(f.f2Mean)
  {
    var hnrQuality := if f.hnrMean >= 20.0 then Excellent else if f.hnrMean >= 15.0 then Middle else Poor;
    var stability := if f.jitterLocal <= 0.01 then Excellent else if f.jitterLocal <= 0.015 then Middle else Poor;
    var notes :=
      (if f.hnrMean < 15.0 then {VoiceQuality} else {})
      + (if f.jitterLocal > 0.015 then {VoiceStability} else {})
      + (if f.shimmerLocal > 0.08 then {Amplitude} else {})
      + (if F1Valid(f.f1Mean) then {} else {VowelOpening})
      + (if F2Valid(f.f2Mean) then {} else {TonguePosition})
      + (if f.pitchRange < 50.0 then {Monotone} else {});
    PronunciationAnalysis(Clamp100(PronunciationRaw(f)), hnrQuality, stability, notes)
  }

  /** A clearer voice (higher HNR) and a steadier one (lower jitter) never
      lower the pronunciation score. */
  lemma PronunciationMonotone(f: AudioFeatures, hnr2: real, jitter2: real)
    requires f.hnrMean <= hnr2 && jitter2 <= f.jitterLocal
    ensures AnalyzePronunciation(f).score <= AnalyzePronunciation(f.(hnrMean := hnr2, jitterLocal := jitter2)).score
  {
    assert HnrDeduction(hnr2) <= HnrDeduction(f.hnrMean) by {
      if 15.0 <= f.hnrMean < 20.0 && hnr2 < 20.0 {
        assert (hnr2 - 15.0) / 5.0 >= (f.hnrMean - 15.0) / 5.0;
      }
    }
    assert JitterDeduction(jitter2) <= JitterDeduction(f.jitterLocal) by {
      if 0.01 < jitter2 <= 0.015 {
        assert (jitter2 - 0.01) / 0.005 <= (f.jitterLocal - 0.01) / 0.005;
      }
    }
  }

  // ---------------------------------------------------------------------
  // Fluency

  /** `FluencyIssue`; word repetition cannot be heard in the features and
      is never raised. */
  datatype FluencyIssue = WrongPause | Hesitation | Repetition | UnstableSpeed

  /** The issue's code. */
  function Code(i: FluencyIssue): string {
    match i
    case WrongPause => "ngat_nghi_sai"
    case Hesitation => "ngap_ngung"
    case Repetition => "lap_tu"
    case UnstableSpeed => "toc_do_khong_on_dinh"
  }

  datatype FluencyAnalysis = FluencyAnalysis(score: real, issues: seq<FluencyIssue>)

  /** The speech-rate deduction: 30 below 100, sliding from 20 to 0 up to
      150, none up to 220, sliding up to 15 until 280, 25 above. */
  function RateDeduction(rate: real): (d: real)
    ensures 0.0 <= d <= 30.0
    ensures d == 0.0 <==> 150.0 <= rate <= 220.0
  {
    if rate < 100.0 then 30.0
    else if rate < 150.0 then 20.0 * (1.0 - (rate - 100.0) / 50.0)
    else if rate > 280.0 then 25.0
    else if rate > 220.0 then 15.0 * ((rate - 220.0) / 60.0)
    else 0.0
  }

  predicate PauseProblem(f: AudioFeatures) {
    f.pauseRatio > 0.25 || f.meanPauseDuration > 0.6
  }

  predicate Hesitant(f: AudioFeatures) {
    f.numPauses > 10 && f.meanPauseDuration < 0.5
  }

  predicate Unsteady(f: AudioFeatures) {
    Abs(f.articulationRate - f.speechRate) > 50.0
  }

  /** The fluency score before clamping. */
  function FluencyRaw(f: AudioFeatures): (s: real)
    ensures 5.0 <= s <= 100.0
  {
    100.0 - RateDeduction(f.speechRate)
    - (if PauseProblem(f) then (if f.pauseRatio > 0.35 then 25.0 else 15.0) else 0.0)
    - (if Hesitant(f) then 15.0 else 0.0)
    - (if Unsteady(f) then 10.0 else 0.0)
    - (if f.duration < 10.0 then 15.0 else if f.duration > 180.0 then 10.0 else 0.0)
  }

  /** `_analyze_fluency`. The deductions add up to at most 95, so the
      clamp to 0..100 never bites: the score is at least 5. */
  function AnalyzeFluency(f: AudioFeatures): (a: FluencyAnalysis)
    ensures 5.0 <= a.score <= 100.0 && a.score == FluencyRaw(f)
    ensures a.score == 100.0 <==>
      150.0 <= f.speechRate <= 220.0 && !PauseProblem(f) && !Hesitant(f) && !Unsteady(f)
      && 10.0 <= f.duration <= 180.0
    ensures (WrongPause in a.issues <==> PauseProblem(f))
         && (Hesitation in a.issues <==> Hesitant(f))
         && (UnstableSpeed in a.issues <==> Unsteady(f))
         && Repetition !in a.issues
    ensures |a.issues| <= 3
  {
    var issues := (if PauseProblem(f) then [WrongPause] else [])
                  + (if Hesitant(f) then [Hesitation] else [])
                  + (if Unsteady(f) then [UnstableSpeed] else []);
    FluencyAnalysis(Clamp100(FluencyRaw(f)), issues)
  }

  /** `detect_fluency_issues`: the codes of the detected issues, in the
      order pauses, hesitation, unstable speed. */
  function DetectFluencyIssues(f: AudioFeatures): (codes: seq<string>)
    ensures |codes| == |AnalyzeFluency(f).issues|
    ensures forall i :: 0 <= i < |codes| ==> codes[i] == Code(AnalyzeFluency(f).issues[i])
    ensures "lap_tu" !in codes
  {
    var issues := AnalyzeFluency(f).issues;
    assert forall x :: x in issues ==> Code(x) != "lap_tu" by {
      forall x | x in issues ensures Code(x) != "lap_tu" { CodeInjective(x, Repetition); }
    }
    seq(|issues|, i requires 0 <= i < |issues| => Code(issues[i]))
  }

  /** Codes name issues one to one. */
  lemma CodeInjective(a: FluencyIssue, b: FluencyIssue)
    ensures Code(a) == Code(b) ==> a == b
  {
  }

  /** The detected codes in full: each present exactly when its condition
      holds, and always in the same order. */
  lemma DetectedCodes(f: AudioFeatures)
    ensures DetectFluencyIssues(f) ==
      (if PauseProblem(f) then ["ngat_nghi_sai"] else [])
      + (if Hesitant(f) then ["ngap_ngung"] else [])
      + (if Unsteady(f) then ["toc_do_khong_on_dinh"] else [])
  {
  }

  // ---------------------------------------------------------------------
  // Text quality, level and overall score

  /** A CJK unified ideograph (U+4E00 to U+9FFF). */
  predicate IsCjk(c: char) {
    '\U{4E00}' <= c <= '\U{9FFF}'
  }

  function CjkCount(s: string): (n: nat)
    ensures n <= |s|
  {
    if s == [] then 0 else (if IsCjk(s[0]) then 1 else 0) + CjkCount(s[1..])
  }

  /** `_analyze_text_quality`: 75 each, 20 off both for fewer than 50
      characters, 15 more off vocabulary when under 70% are CJK. */
  function TextQuality(transcription: string): (r: (real, real))
    ensures r.0 == (if |transcription| < 50 then 55.0 else 75.0)
    ensures r.1 == r.0 - (if (CjkCount(transcription) as real) < (|transcription| as real) * 0.7 then 15.0 else 0.0)
    ensures r.0 in {55.0, 75.0} && r.1 in {40.0, 55.0, 60.0, 75.0}
  {
    var short := |transcription| < 50;
    var grammar := if short then 55.0 else 75.0;
    var vocabulary := (if short then 55.0 else 75.0)
                      - (if (CjkCount(transcription) as real) < (|transcription| as real) * 0.7 then 15.0 else 0.0);
    (grammar, vocabulary)
  }

  /** A transcript of 50 or more characters, all CJK, keeps both 75s. */
  lemma AllCjkKeepsVocabulary(transcription: string)
    requires |transcription| >= 50 && forall i :: 0 <= i < |transcription| ==> IsCjk(transcription[i])
    ensures TextQuality(transcription) == (75.0, 75.0)
  {
    AllCjkCounted(transcription);
  }

  lemma {:induction false} AllCjkCounted(s: string)
    requires forall i :: 0 <= i < |s| ==> IsCjk(s[i])
    ensures CjkCount(s) == |s|
  {
    if s != [] {
      assert IsCjk(s[0]);
      AllCjkCounted(s[1..]);
    }
  }

  datatype HskkLevel = Elementary | Intermediate | Advanced

  function LevelRank(l: HskkLevel): nat {
    match l
    case Elementary => 0
    case Intermediate => 1
    case Advanced => 2
  }

  /** `_determine_level`: 80 and up is advanced, 65 and up intermediate. */
  function DetermineLevel(overall: real): (l: HskkLevel)
    ensures l == Advanced <==> overall >= 80.0
    ensures l == Intermediate <==> 65.0 <= overall < 80.0
    ensures l == Elementary <==> overall < 65.0
  {
    if overall >= 80.0 then Advanced else if overall >= 65.0 then Intermediate else Elementary
  }

  lemma LevelMonotone(a: real, b: real)
    requires a <= b
    ensures LevelRank(DetermineLevel(a)) <= LevelRank(DetermineLevel(b))
  {
  }

  /** The criterion weights (the settings' `weight_*`). */
  datatype Weights = Weights(pronunciation: real, fluency: real, grammar: real, vocabulary: real)

  const DefaultWeights: Weights := Weights(0.35, 0.35, 0.15, 0.15)

  predicate Convex(w: Weights) {
    && w.pronunciation >= 0.0 && w.fluency >= 0.0 && w.grammar >= 0.0 && w.vocabulary >= 0.0
    && w.pronunciation + w.fluency + w.grammar + w.vocabulary == 1.0
  }

  /** `HSKKScore`. */
  datatype HskkScore = HskkScore(
    overall: real, level: HskkLevel, pronunciation: real, fluency: real, grammar: real, vocabulary: real)

  /** `calculate_score`: the weighted sum of the four scores, grammar and
      vocabulary 75 unless a non-empty transcript is given. */
  function CalculateScore(f: AudioFeatures, transcription: Option<string>, w: Weights): (s: HskkScore)
    ensures s.pronunciation == AnalyzePronunciation(f).score && s.fluency == AnalyzeFluency(f).score
    ensures transcription.None? || transcription == Some("") ==> s.grammar == 75.0 && s.vocabulary == 75.0
    ensures transcription.Some? && transcription.value != "" ==> (s.grammar, s.vocabulary) == TextQuality(transcription.value)
    ensures s.overall == Weighted(s.pronunciation, s.fluency, s.grammar, s.vocabulary, w)
    ensures s.level == DetermineLevel(s.overall)
  {
    var p := AnalyzePronunciation(f).score;
    var fl := AnalyzeFluency(f).score;
    var text := if transcription.Some? && transcription.value != "" then TextQuality(transcription.value) else (75.0, 75.0);
    var g := text.0;
    var v := text.1;
    var overall := Weighted(p, fl, g, v, w);
    HskkScore(overall, DetermineLevel(overall), p, fl, g, v)
  }

  /** The weighted sum of the four criterion scores. */
  function Weighted(p: real, f: real, g: real, v: real, w: Weights): real {
    p * w.pronunciation + f * w.fluency + g * w.grammar + v * w.vocabulary
  }

  /** With weights that are non-negative and sum to 1 (the defaults are),
      the overall score stays within 0..100. */
  lemma OverallInRange(f: AudioFeatures, transcription: Option<string>, w: Weights)
    requires Convex(w)
    ensures 0.0 <= CalculateScore(f, transcription, w).overall <= 100.0
  {
    var s := CalculateScore(f, transcription, w);
    WeightedBounds(s.pronunciation, s.fluency, s.grammar, s.vocabulary, w);
  }

  /** One weighted term. */
  function Scaled(score: real, weight: real): real { score * weight }

  lemma ProductBounds(a: real, w: real)
    requires 0.0 <= a <= 100.0 && 0.0 <= w
    ensures 0.0 <= a * w <= 100.0 * w
  {
  }

  /** A score in 0..100 times a non-negative weight lies in 0..100 times that weight. */
  lemma ScaledBound(a: real, w: real)
    requires 0.0 <= a <= 100.0 && w >= 0.0
    ensures 0.0 <= Scaled(a, w) <= 100.0 * w
  {
    ProductBounds(a, w);
  }

  /** Bounds add up, and weights summing to 1 scale 100 to 100. */
  lemma SumBounds(t1: real, t2: real, t3: real, t4: real, x: real, y: real, z: real, u: real)
    requires 0.0 <= t1 <= 100.0 * x && 0.0 <= t2 <= 100.0 * y && 0.0 <= t3 <= 100.0 * z && 0.0 <= t4 <= 100.0 * u
    requires x + y + z + u == 1.0
    ensures 0.0 <= t1 + t2 + t3 + t4 <= 100.0
  {
  }

  /** A convex combination of scores in 0..100 stays in 0..100. */
  lemma WeightedBounds(a: real, b: real, c: real, d: real, w: Weights)
    requires Convex(w)
    requires 0.0 <= a <= 100.0 && 0.0 <= b <= 100.0 && 0.0 <= c <= 100.0 && 0.0 <= d <= 100.0
    ensures 0.0 <= Weighted(a, b, c, d, w) <= 100.0
  {
    ScaledBound(a, w.pronunciation);
    ScaledBound(b, w.fluency);
    ScaledBound(c, w.grammar);
    ScaledBound(d, w.vocabulary);
    SumBounds(Scaled(a, w.pronunciation), Scaled(b, w.fluency), Scaled(c, w.grammar), Scaled(d, w.vocabulary),
              w.pronunciation, w.fluency, w.grammar, w.vocabulary);
  }

  /** The default weights are convex. */
  lemma DefaultWeightsConvex()
    ensures Convex(DefaultWeights)
  {
  }

  // ---------------------------------------------------------------------
  // The 0..1 component curves

  /** `_calculate_accuracy_from_hnr`: 1 from 20, linear from 0.7 at 15 and
      from 0.4 at 10, and proportional below 10. */
  function AccuracyFromHnr(hnr: real): (a: real)
    ensures 0.0 <= a <= 1.0
    ensures a == 1.0 <==> hnr >= 20.0
  {
    if hnr >= 20.0 then 1.0
    else if hnr >= 15.0 then 0.7 + 0.3 * ((hnr - 15.0) / 5.0)
    else if hnr >= 10.0 then 0.4 + 0.3 * ((hnr - 10.0) / 5.0)
    else if hnr / 10.0 * 0.4 < 0.0 then 0.0 else hnr / 10.0 * 0.4
  }

  /** The curve's anchor points. */
  lemma AccuracyAnchors()
    ensures AccuracyFromHnr(20.0) == 1.0 && AccuracyFromHnr(15.0) == 0.7 && AccuracyFromHnr(10.0) == 0.4
    ensures AccuracyFromHnr(5.0) == 0.2 && AccuracyFromHnr(0.0) == 0.0
  {
  }

  /** A higher HNR never gives a lower accuracy. */
  lemma AccuracyMonotone(h1: real, h2: real)
    requires h1 <= h2
    ensures AccuracyFromHnr(h1) <= AccuracyFromHnr(h2)
  {
    if h1 < 10.0 && 10.0 <= h2 {
      assert h1 / 10.0 * 0.4 < 0.4;
    } else if h1 < 10.0 {
      assert h1 / 10.0 * 0.4 <= h2 / 10.0 * 0.4;
    }
  }

  function RateScore(rate: real): (s: real)
    ensures 0.0 <= s <= 1.0
    ensures s == 1.0 <==> 150.0 <= rate <= 220.0
  {
    if 150.0 <= rate <= 220.0 then 1.0
    else if rate < 150.0 then Max(0.0, rate / 150.0)
    else Max(0.0, 1.0 - (rate - 220.0) / 100.0)
  }

  function PauseScore(ratio: real): (s: real)
    ensures 0.0 <= s <= 1.0
    ensures s == 1.0 <==> ratio <= 0.15
  {
    if ratio <= 0.15 then 1.0
    else if ratio <= 0.25 then 0.7 + 0.3 * (1.0 - (ratio - 0.15) / 0.1)
    else Max(0.0, 0.7 * (1.0 - (ratio - 0.25) / 0.3))
  }

  /** `_normalize_fluency`: the mean of the rate and pause scores, 1
      exactly for an ideal rate with few pauses. */
  function NormalizeFluency(rate: real, pauseRatio: real): (s: real)
    ensures 0.0 <= s <= 1.0
    ensures s == 1.0 <==> 150.0 <= rate <= 220.0 && pauseRatio <= 0.15
  {
    (RateScore(rate) + PauseScore(pauseRatio)) / 2.0
  }

  /** More pausing never raises the pause score. */
  lemma PauseScoreMonotone(p1: real, p2: real)
    requires p1 <= p2
    ensures PauseScore(p2) <= PauseScore(p1)
  {
    if 0.15 < p1 && p2 <= 0.25 {
      assert (p1 - 0.15) / 0.1 <= (p2 - 0.15) / 0.1;
    } else if 0.25 < p1 {
      assert (p1 - 0.25) / 0.3 <= (p2 - 0.25) / 0.3;
    }
  }

  /** `_assess_prosody`: the mean of pitch range over 100 and intensity
      spread over 5, each capped at 1. */
  function AssessProsody(f: AudioFeatures): (s: real)
    ensures s <= 1.0
    ensures PraatService.SchemaValid(f) ==> 0.0 <= s
    ensures s == 1.0 <==> f.pitchRange >= 100.0 && f.intensityStd >= 5.0
  {
    (Min(f.pitchRange / 100.0, 1.0) + Min(f.intensityStd / 5.0, 1.0)) / 2.0
  }

  /** On a built feature record every component curve lies in 0..1. */
  lemma ComponentsInUnitRange(d: map<string, real>)
    ensures var f := PraatService.Build(d);
      0.0 <= AccuracyFromHnr(f.hnrMean) <= 1.0
      && 0.0 <= NormalizeFluency(f.speechRate, f.pauseRatio) <= 1.0
      && 0.0 <= AssessProsody(f) <= 1.0
  {
  }
}
