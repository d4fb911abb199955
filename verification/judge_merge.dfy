/** Merging the language-model judge's JSON answer into the six-criterion
    result. Acoustic criteria (pronunciation, fluency) keep their
    pre-computed score and take only feedback and issues from the judge; the
    judged criteria are capped at their configured maximum. A failure once
    the call is under way (the call, a score the result schema rejects, a
    name the result has no field for) gives a result with no criteria at
    all and an error line. */
module JudgeMerge {
  import opened Wrappers
  import opened Numbers

  datatype Criterion = Pronunciation | Fluency | TaskAchievement | Grammar | Vocabulary | Coherence

  /** The criterion's field name in the result record. */
  function Name(c: Criterion): string {
    match c
    case Pronunciation => "pronunciation"
    case Fluency => "fluency"
    case TaskAchievement => "task_achievement"
    case Grammar => "grammar"
    case Vocabulary => "vocabulary"
    case Coherence => "coherence"
  }

  /** The result field a name refers to, if the result has one. */
  function CriterionNamed(s: string): (c: Option<Criterion>)
    ensures c.Some? ==> Name(c.value) == s
  {
    if s == "pronunciation" then Some(Pronunciation)
    else if s == "fluency" then Some(Fluency)
    else if s == "task_achievement" then Some(TaskAchievement)
    else if s == "grammar" then Some(Grammar)
    else if s == "vocabulary" then Some(Vocabulary)
    else if s == "coherence" then Some(Coherence)
    else None
  }

  /** Every criterion is found again under its own name. */
  lemma NameRoundTrip(c: Criterion)
    ensures CriterionNamed(Name(c)) == Some(c)
  {
    match c
    case Pronunciation =>
    case Fluency =>
    case TaskAchievement =>
    case Grammar =>
    case Vocabulary =>
    case Coherence =>
  }

  predicate IsAcoustic(c: Criterion) {
    c == Pronunciation || c == Fluency
  }

  /** `CriteriaScore`; its schema demands a score between 0 and 100. */
  datatype CriteriaScore = CriteriaScore(score: real, maxScore: real, feedback: string, issues: seq<string>)

  predicate Valid(s: CriteriaScore) {
    0.0 <= s.score <= 100.0
  }

  /** One criterion's object in the judge's JSON; `None` is a missing key. */
  datatype JudgeEntry = JudgeEntry(score: Option<real>, maxScore: Option<real>, feedback: Option<string>, issues: Option<seq<string>>)

  /** The judge's parsed JSON: the criterion objects by name, and `overall_feedback`. */
  datatype JudgeResponse = JudgeResponse(entries: map<string, JudgeEntry>, overall: Option<string>)

  /** A pre-computed acoustic score as handed to the judge. */
  datatype PreScore = PreScore(score: Option<real>, maxScore: Option<real>)

  /** `TriCoreScoringResult`: the criteria that were set (the others are
      `None`) and the overall feedback. */
  datatype TriCoreResult = TriCoreResult(scores: map<Criterion, CriteriaScore>, overallFeedback: string)

  /** Why a scoring run fell back to the error result. */
  datatype Failure =
    | CallFailed(message: string)   // the request or the JSON decoding raised
    | OutOfRange(name: string)      // a score outside 0..100 failed validation
    | NoSuchField(name: string)     // a configured name the result has no field for

  const ErrorPrefix: string := "Lỗi khi chấm điểm: "

  /** The exception text, up to wording. */
  function Describe(f: Failure): string {
    match f
    case CallFailed(m) => m
    case OutOfRange(n) => "1 validation error for CriteriaScore"
    case NoSuchField(n) => "\"TriCoreScoringResult\" object has no field \"" + n + "\""
  }

  /** A line that starts with the error prefix. */
  predicate IsErrorLine(s: string) {
    |ErrorPrefix| <= |s| && s[..|ErrorPrefix|] == ErrorPrefix
  }

  function ErrorResult(f: Failure): (r: TriCoreResult)
    ensures r.scores == map[] && IsErrorLine(r.overallFeedback)
  {
    TriCoreResult(map[], ErrorPrefix + Describe(f))
  }

  /** The judged criteria and their maxima, in the order they are configured. */
  type Config = seq<(string, real)>

  const DefaultConfig: Config :=
    [("task_achievement", 20.0), ("grammar", 15.0), ("vocabulary", 10.0), ("coherence", 10.0)]

  /** A configuration is a dictionary: no name appears twice. */
  predicate DistinctNames(cfg: Config) {
    forall i, j :: 0 <= i < j < |cfg| ==> cfg[i].0 != cfg[j].0
  }

  /** The configuration used: the given one, or the default when none is given. */
  function Effective(cfg: Option<Config>): (r: Config)
    ensures cfg.None? ==> r == DefaultConfig && DistinctNames(r)
    ensures cfg.Some? ==> r == cfg.value
  {
    cfg.GetOr(DefaultConfig)
  }

  /** The configured maximum for a name, if the name is configured. */
  function ConfiguredMax(cfg: Config, name: string): (r: Option<real>)
    ensures r.None? <==> forall i :: 0 <= i < |cfg| ==> cfg[i].0 != name
    ensures r.Some? ==> exists i :: 0 <= i < |cfg| && cfg[i] == (name, r.value)
  {
    if cfg == [] then None
    else if cfg[0].0 == name then Some(cfg[0].1)
    else
      var r := ConfiguredMax(cfg[1..], name);
      assert forall i :: 1 <= i < |cfg| ==> cfg[i] == cfg[1..][i - 1];
      r
  }

  /** A judged criterion: the judge's score (0 when missing) capped at the
      configured maximum, the configured maximum, and the judge's text. */
  function AiScore(e: JudgeEntry, maxScore: real): (s: CriteriaScore)
    ensures s.maxScore == maxScore && s.score <= maxScore
    ensures s.score <= e.score.GetOr(0.0)
    ensures s.score == maxScore || s.score == e.score.GetOr(0.0)
    ensures s.feedback == e.feedback.GetOr("") && s.issues == e.issues.GetOr([])
  {
    CriteriaScore(Min(e.score.GetOr(0.0), maxScore), maxScore, e.feedback.GetOr(""), e.issues.GetOr([]))
  }

  /** An acoustic criterion: score and maximum from the pre-computed score
      when there is one (0 for a missing key), otherwise the judge's own
      (maximum 10 when missing); feedback and issues always from the judge. */
  function AcousticScore(e: JudgeEntry, pre: Option<map<string, PreScore>>, name: string): (s: CriteriaScore)
    ensures pre.Some? && name in pre.value ==>
      s.score == pre.value[name].score.GetOr(0.0) && s.maxScore == pre.value[name].maxScore.GetOr(0.0)
    ensures !(pre.Some? && name in pre.value) ==>
      s.score == e.score.GetOr(0.0) && s.maxScore == e.maxScore.GetOr(10.0)
    ensures s.feedback == e.feedback.GetOr("") && s.issues == e.issues.GetOr([])
  {
    var fromPre := pre.Some? && name in pre.value;
    var score := if fromPre then pre.value[name].score.GetOr(0.0) else e.score.GetOr(0.0);
    var maxScore := if fromPre then pre.value[name].maxScore.GetOr(0.0) else e.maxScore.GetOr(10.0);
    CriteriaScore(score, maxScore, e.feedback.GetOr(""), e.issues.GetOr([]))
  }

  /** The criterion's entry in a result map, as the result field would show it. */
  function Lookup(m: map<Criterion, CriteriaScore>, c: Criterion): Option<CriteriaScore> {
    if c in m then Some(m[c]) else None
  }

  /** The acoustic pass for one criterion: skipped when the judge did not
      mention it, otherwise set (or failing validation). */
  function MergeAcousticOne(c: Criterion, entries: map<string, JudgeEntry>, pre: Option<map<string, PreScore>>,
                            acc: map<Criterion, CriteriaScore>): Result<map<Criterion, CriteriaScore>, Failure>
  {
    if Name(c) !in entries then Success(acc)
    else
      var s := AcousticScore(entries[Name(c)], pre, Name(c));
      if !Valid(s) then Failure(OutOfRange(Name(c))) else Success(acc[c := s])
  }

  /** The acoustic pass: pronunciation, then fluency. */
  function MergeAcoustic(entries: map<string, JudgeEntry>, pre: Option<map<string, PreScore>>): Result<map<Criterion, CriteriaScore>, Failure> {
    match MergeAcousticOne(Pronunciation, entries, pre, map[])
    case Failure(f) => Failure(f)
    case Success(m) => MergeAcousticOne(Fluency, entries, pre, m)
  }

  /** The judged pass, in configuration order: a name the judge did not
      mention is skipped; otherwise its score must validate and the result
      must have a field of that name. */
  function MergeAi(cfg: Config, entries: map<string, JudgeEntry>, acc: map<Criterion, CriteriaScore>): Result<map<Criterion, CriteriaScore>, Failure>
    decreases |cfg|
  {
    if cfg == [] then Success(acc)
    else
      var name := cfg[0].0;
      if name !in entries then MergeAi(cfg[1..], entries, acc)
      else
        var s := AiScore(entries[name], cfg[0].1);
        if !Valid(s) then Failure(OutOfRange(name))
        else match CriterionNamed(name)
          case None => Failure(NoSuchField(name))
          case Some(c) => MergeAi(cfg[1..], entries, acc[c := s])
  }

  /** `tri_core_ai_scoring`, given what the judge call came back with. */
  function AiScoring(cfg: Option<Config>, judge: Result<JudgeResponse, string>): TriCoreResult {
    match judge
    case Failure(msg) => ErrorResult(CallFailed(msg))
    case Success(resp) =>
      match MergeAi(Effective(cfg), resp.entries, map[])
      case Failure(f) => ErrorResult(f)
      case Success(m) => TriCoreResult(m, resp.overall.GetOr(""))
  }

  /** `unified_ai_scoring`, given the pre-computed acoustic scores and what
      the judge call came back with. */
  function UnifiedScoring(cfg: Option<Config>, pre: Option<map<string, PreScore>>, judge: Result<JudgeResponse, string>): TriCoreResult {
    match judge
    case Failure(msg) => ErrorResult(CallFailed(msg))
    case Success(resp) =>
      match MergeAcoustic(resp.entries, pre)
      case Failure(f) => ErrorResult(f)
      case Success(m0) =>
        match MergeAi(Effective(cfg), resp.entries, m0)
        case Failure(f) => ErrorResult(f)
        case Success(m) => TriCoreResult(m, resp.overall.GetOr(""))
  }

  // ---------------------------------------------------------------------
  // The reference reading: what each field ends up holding.

  /** Every judged name the judge mentioned validates and names a field. */
  predicate AiAccepted(cfg: Config, entries: map<string, JudgeEntry>) {
    forall i :: 0 <= i < |cfg| && cfg[i].0 in entries ==>
      Valid(AiScore(entries[cfg[i].0], cfg[i].1)) && CriterionNamed(cfg[i].0).Some?
  }

  /** Every acoustic criterion the judge mentioned validates. */
  predicate AcousticAccepted(entries: map<string, JudgeEntry>, pre: Option<map<string, PreScore>>) {
    && ("pronunciation" in entries ==> Valid(AcousticScore(entries["pronunciation"], pre, "pronunciation")))
    && ("fluency" in entries ==> Valid(AcousticScore(entries["fluency"], pre, "fluency")))
  }

  /** The judged value of a criterion, when it is configured and mentioned. */
  function Judged(cfg: Config, entries: map<string, JudgeEntry>, c: Criterion): Option<CriteriaScore> {
    var mx := ConfiguredMax(cfg, Name(c));
    if Name(c) in entries && mx.Some? then Some(AiScore(entries[Name(c)], mx.value)) else None
  }

  /** The kept value of an acoustic criterion the judge mentioned. */
  function Kept(entries: map<string, JudgeEntry>, pre: Option<map<string, PreScore>>, c: Criterion): Option<CriteriaScore> {
    if IsAcoustic(c) && Name(c) in entries then Some(AcousticScore(entries[Name(c)], pre, Name(c))) else None
  }

  /** `top` where it is set, else `below`. */
  function Overlay(top: Option<CriteriaScore>, below: Option<CriteriaScore>): Option<CriteriaScore> {
    if top.Some? then top else below
  }

  /** What a field holds after a successful merge: the judged value if
      there is one, else for an acoustic criterion the kept score, else
      nothing. */
  function Expected(cfg: Config, entries: map<string, JudgeEntry>, pre: Option<map<string, PreScore>>, c: Criterion): Option<CriteriaScore> {
    Overlay(Judged(cfg, entries, c), Kept(entries, pre, c))
  }

  /** The judged pass succeeds exactly when every mentioned configured
      name is accepted, and then sets exactly the judged values on top of
      what was there. */
  lemma {:induction false} MergeAiMatches(cfg: Config, entries: map<string, JudgeEntry>, acc: map<Criterion, CriteriaScore>)
    requires DistinctNames(cfg)
    ensures MergeAi(cfg, entries, acc).Success? <==> AiAccepted(cfg, entries)
    ensures MergeAi(cfg, entries, acc).Success? ==>
      forall c :: Lookup(MergeAi(cfg, entries, acc).value, c) == Overlay(Judged(cfg, entries, c), Lookup(acc, c))
    decreases |cfg|
  {
    if cfg == [] {
      return;
    }
    var name := cfg[0].0;
    var rest := cfg[1..];
    assert DistinctNames(rest) by {
      forall i, j | 0 <= i < j < |rest| ensures rest[i].0 != rest[j].0 {
        assert rest[i] == cfg[i + 1] && rest[j] == cfg[j + 1];
      }
    }
    assert forall i :: 0 <= i < |rest| ==> rest[i] == cfg[i + 1];
    assert forall k :: k != name ==> ConfiguredMax(cfg, k) == ConfiguredMax(rest, k);
    assert ConfiguredMax(rest, name).None? by {
      forall i | 0 <= i < |rest| ensures rest[i].0 != name {
        assert rest[i] == cfg[i + 1];
      }
    }
    assert AiAccepted(cfg, entries) <==>
      (name in entries ==> Valid(AiScore(entries[name], cfg[0].1)) && CriterionNamed(name).Some?) && AiAccepted(rest, entries);
    if name !in entries {
      MergeAiMatches(rest, entries, acc);
    } else {
      var s := AiScore(entries[name], cfg[0].1);
      if Valid(s) && CriterionNamed(name).Some? {
        var c0 := CriterionNamed(name).value;
        MergeAiMatches(rest, entries, acc[c0 := s]);
        forall c | true
          ensures MergeAi(cfg, entries, acc).Success? ==>
            Lookup(MergeAi(cfg, entries, acc).value, c) == Overlay(Judged(cfg, entries, c), Lookup(acc, c))
        {
          NameRoundTrip(c);
          if c == c0 {
            assert Judged(rest, entries, c).None?;
          } else {
            assert Name(c) != name;
          }
        }
      }
    }
  }

  /** The acoustic pass succeeds exactly when both mentioned acoustic
      criteria validate, and then holds exactly the mentioned ones. */
  lemma MergeAcousticMatches(entries: map<string, JudgeEntry>, pre: Option<map<string, PreScore>>)
    ensures MergeAcoustic(entries, pre).Success? <==> AcousticAccepted(entries, pre)
    ensures MergeAcoustic(entries, pre).Success? ==>
      forall c :: Lookup(MergeAcoustic(entries, pre).value, c) == Kept(entries, pre, c)
  {
  }

  /** The whole merge against the reference reading: with every mentioned
      criterion accepted, each field holds its expected value and the
      overall feedback is the judge's; otherwise the result is the error
      result, with no criteria and the error line. */
  lemma UnifiedMatchesReference(cfg: Option<Config>, pre: Option<map<string, PreScore>>, resp: JudgeResponse)
    requires DistinctNames(Effective(cfg))
    ensures var r := UnifiedScoring(cfg, pre, Success(resp));
      if AcousticAccepted(resp.entries, pre) && AiAccepted(Effective(cfg), resp.entries) then
        r.overallFeedback == resp.overall.GetOr("")
        && forall c :: Lookup(r.scores, c) == Expected(Effective(cfg), resp.entries, pre, c)
      else
        r.scores == map[] && IsErrorLine(r.overallFeedback)
  {
    MergeAcousticMatches(resp.entries, pre);
    var m0 := MergeAcoustic(resp.entries, pre);
    if m0.Success? {
      MergeAiMatches(Effective(cfg), resp.entries, m0.value);
    }
  }

  /** `tri_core_ai_scoring` against the same reading, without the acoustic pass. */
  lemma AiScoringMatchesReference(cfg: Option<Config>, resp: JudgeResponse)
    requires DistinctNames(Effective(cfg))
    ensures var r := AiScoring(cfg, Success(resp));
      if AiAccepted(Effective(cfg), resp.entries) then
        r.overallFeedback == resp.overall.GetOr("")
        && forall c :: Lookup(r.scores, c) == Judged(Effective(cfg), resp.entries, c)
      else
        r.scores == map[] && IsErrorLine(r.overallFeedback)
  {
    MergeAiMatches(Effective(cfg), resp.entries, map[]);
  }

  /** A pre-computed acoustic score survives the judge: score and maximum
      are the pre-computed ones, feedback and issues the judge's. */
  lemma AcousticScoreKept(cfg: Option<Config>, pre: map<string, PreScore>, resp: JudgeResponse, c: Criterion)
    requires DistinctNames(Effective(cfg)) && IsAcoustic(c)
    requires AcousticAccepted(resp.entries, Some(pre)) && AiAccepted(Effective(cfg), resp.entries)
    requires ConfiguredMax(Effective(cfg), Name(c)).None?
    requires Name(c) in resp.entries && Name(c) in pre
    ensures var r := UnifiedScoring(cfg, Some(pre), Success(resp));
      c in r.scores
      && r.scores[c].score == pre[Name(c)].score.GetOr(0.0)
      && r.scores[c].maxScore == pre[Name(c)].maxScore.GetOr(0.0)
      && r.scores[c].feedback == resp.entries[Name(c)].feedback.GetOr("")
  {
    UnifiedMatchesReference(cfg, Some(pre), resp);
    assert Lookup(UnifiedScoring(cfg, Some(pre), Success(resp)).scores, c) == Expected(Effective(cfg), resp.entries, Some(pre), c);
  }

  /** An acoustic criterion the judge did not mention stays unset, even
      with a pre-computed score for it. */
  lemma UnmentionedAcousticStaysUnset(cfg: Option<Config>, pre: Option<map<string, PreScore>>, resp: JudgeResponse, c: Criterion)
    requires DistinctNames(Effective(cfg)) && IsAcoustic(c) && Name(c) !in resp.entries
    ensures c !in UnifiedScoring(cfg, pre, Success(resp)).scores
  {
    UnifiedMatchesReference(cfg, pre, resp);
    if AcousticAccepted(resp.entries, pre) && AiAccepted(Effective(cfg), resp.entries) {
      assert Lookup(UnifiedScoring(cfg, pre, Success(resp)).scores, c) == Expected(Effective(cfg), resp.entries, pre, c);
    }
  }

  /** Every judged criterion that is set is capped at its configured
      maximum, which it also reports. */
  lemma JudgedCapped(cfg: Option<Config>, resp: JudgeResponse, name: string, mx: real)
    requires DistinctNames(Effective(cfg))
    requires (name, mx) in Effective(cfg)
    requires CriterionNamed(name).Some?
    ensures var r := AiScoring(cfg, Success(resp)); var c := CriterionNamed(name).value;
      c in r.scores ==> r.scores[c].score <= mx && r.scores[c].maxScore == mx
  {
    AiScoringMatchesReference(cfg, resp);
    var r := AiScoring(cfg, Success(resp));
    var c := CriterionNamed(name).value;
    if c in r.scores {
      assert Lookup(r.scores, c) == Judged(Effective(cfg), resp.entries, c);
      var cf := Effective(cfg);
      var k :| 0 <= k < |cf| && cf[k] == (name, mx);
      var k2 :| 0 <= k2 < |cf| && cf[k2] == (name, ConfiguredMax(cf, name).value);
      assert k == k2;
    }
  }

  /** A single out-of-range judged score (here a negative grammar score)
      empties the whole result, including criteria that were fine. */
  lemma NegativeScoreEmptiesResult(fb: string)
    ensures var resp := JudgeResponse(map["grammar" := JudgeEntry(Some(-1.0), None, None, None),
                                          "vocabulary" := JudgeEntry(Some(8.0), None, None, None)], Some(fb));
      UnifiedScoring(None, None, Success(resp)).scores == map[]
  {
    var entries := map["grammar" := JudgeEntry(Some(-1.0), None, None, None),
                       "vocabulary" := JudgeEntry(Some(8.0), None, None, None)];
    assert !AiAccepted(DefaultConfig, entries) by {
      assert DefaultConfig[1].0 == "grammar";
    }
    UnifiedMatchesReference(None, None, JudgeResponse(entries, Some(fb)));
  }
}
