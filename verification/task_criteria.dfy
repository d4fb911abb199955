/** The HSKK rubric registry: for each of the nine task codes, the ordered
    criteria that are scored, where each score comes from (acoustic analysis
    or the AI judge), its maximum, and whether a reference text is needed. */
module TaskCriteria {
  import opened Wrappers

  datatype CriteriaType = TaskAchievement | Pronunciation | Fluency | Grammar | Vocabulary | Coherence

  /** The wire name of a criterion type (the enum's string value). */
  function TypeName(t: CriteriaType): string {
    match t
    case TaskAchievement => "task_achievement"
    case Pronunciation => "pronunciation"
    case Fluency => "fluency"
    case Grammar => "grammar"
    case Vocabulary => "vocabulary"
    case Coherence => "coherence"
  }

  lemma TypeNameInjective(a: CriteriaType, b: CriteriaType)
    ensures TypeName(a) == TypeName(b) <==> a == b
  {
  }

  /** PRAAT: computed deterministically from acoustic features; AI: judged from text. */
  datatype DataSource = Praat | Ai

  datatype CriteriaConfig = CriteriaConfig(
    kind: CriteriaType,
    source: DataSource,
    maxScore: real,
    requiresReference: bool)

  datatype TaskConfig = TaskConfig(
    taskCode: string,
    examLevel: string,
    levelName: string,
    questionCount: int,
    pointsPerQuestion: real,
    totalPoints: real,
    criteria: seq<CriteriaConfig>)
  {
    predicate HasAiCriteria() {
      exists i :: 0 <= i < |criteria| && criteria[i].source == Ai
    }

    predicate HasPraatCriteria() {
      exists i :: 0 <= i < |criteria| && criteria[i].source == Praat
    }
  }

  function Ai(kind: CriteriaType, maxScore: real): CriteriaConfig {
    CriteriaConfig(kind, DataSource.Ai, maxScore, false)
  }

  function AiWithReference(kind: CriteriaType, maxScore: real): CriteriaConfig {
    CriteriaConfig(kind, DataSource.Ai, maxScore, true)
  }

  function Acoustic(kind: CriteriaType, maxScore: real): CriteriaConfig {
    CriteriaConfig(kind, Praat, maxScore, false)
  }

  /** The nine task codes: exam level (SC 101, TC 102, CC 103) by task variant. */
  datatype TaskCode = HSKKSC1 | HSKKSC2 | HSKKSC3 | HSKKTC1 | HSKKTC2 | HSKKTC3 | HSKKCC1 | HSKKCC2 | HSKKCC3

  function CodeName(c: TaskCode): string {
    match c
    case HSKKSC1 => "HSKKSC1" case HSKKSC2 => "HSKKSC2" case HSKKSC3 => "HSKKSC3"
    case HSKKTC1 => "HSKKTC1" case HSKKTC2 => "HSKKTC2" case HSKKTC3 => "HSKKTC3"
    case HSKKCC1 => "HSKKCC1" case HSKKCC2 => "HSKKCC2" case HSKKCC3 => "HSKKCC3"
  }

  /** The keys of the registry dictionary: a string names a task iff it is one of the nine codes. */
  function ParseTaskCode(s: string): (r: Option<TaskCode>)
    ensures r.Some? ==> CodeName(r.value) == s
  {
    if s == "HSKKSC1" then Some(HSKKSC1) else if s == "HSKKSC2" then Some(HSKKSC2)
    else if s == "HSKKSC3" then Some(HSKKSC3) else if s == "HSKKTC1" then Some(HSKKTC1)
    else if s == "HSKKTC2" then Some(HSKKTC2) else if s == "HSKKTC3" then Some(HSKKTC3)
    else if s == "HSKKCC1" then Some(HSKKCC1) else if s == "HSKKCC2" then Some(HSKKCC2)
    else if s == "HSKKCC3" then Some(HSKKCC3) else None
  }

  /** The registry's value for each code. */
  function Config(c: TaskCode): TaskConfig {
    match c
    // 101, beginner
    case HSKKSC1 => TaskConfig("HSKKSC1", "101", "beginner", 15, 2.0, 30.0,
      [AiWithReference(TaskAchievement, 1.0), Acoustic(Pronunciation, 0.5), Acoustic(Fluency, 0.5)])
    case HSKKSC2 => TaskConfig("HSKKSC2", "101", "beginner", 10, 3.0, 30.0,
      [Ai(TaskAchievement, 1.5), Ai(Grammar, 0.5), Acoustic(Pronunciation, 0.5), Acoustic(Fluency, 0.5)])
    case HSKKSC3 => TaskConfig("HSKKSC3", "101", "beginner", 2, 20.0, 40.0,
      [Ai(TaskAchievement, 6.0), Acoustic(Pronunciation, 4.0), Ai(Grammar, 4.0),
       Ai(Vocabulary, 2.0), Ai(Coherence, 2.0), Acoustic(Fluency, 2.0)])
    // 102, intermediate
    case HSKKTC1 => TaskConfig("HSKKTC1", "102", "intermediate", 10, 3.0, 30.0,
      [AiWithReference(TaskAchievement, 1.5), Acoustic(Pronunciation, 1.0), Acoustic(Fluency, 0.5)])
    case HSKKTC2 => TaskConfig("HSKKTC2", "102", "intermediate", 2, 15.0, 30.0,
      [Ai(TaskAchievement, 5.0), Acoustic(Pronunciation, 3.0), Ai(Grammar, 3.0),
       Ai(Vocabulary, 1.0), Ai(Coherence, 1.0), Acoustic(Fluency, 2.0)])
    case HSKKTC3 => TaskConfig("HSKKTC3", "102", "intermediate", 2, 20.0, 40.0,
      [Ai(TaskAchievement, 6.0), Acoustic(Pronunciation, 4.0), Ai(Grammar, 4.0),
       Ai(Vocabulary, 2.0), Ai(Coherence, 2.0), Acoustic(Fluency, 2.0)])
    // 103, advanced
    case HSKKCC1 => TaskConfig("HSKKCC1", "103", "advanced", 3, 10.0, 30.0,
      [AiWithReference(TaskAchievement, 4.0), Acoustic(Pronunciation, 2.0), Ai(Grammar, 2.0),
       Acoustic(Fluency, 2.0)])
    case HSKKCC2 => TaskConfig("HSKKCC2", "103", "advanced", 1, 20.0, 20.0,
      [AiWithReference(TaskAchievement, 10.0), Acoustic(Pronunciation, 5.0), Acoustic(Fluency, 5.0)])
    case HSKKCC3 => TaskConfig("HSKKCC3", "103", "advanced", 2, 25.0, 50.0,
      [Ai(TaskAchievement, 8.0), Acoustic(Pronunciation, 5.0), Ai(Grammar, 4.0),
       Ai(Vocabulary, 2.0), Ai(Coherence, 3.0), Acoustic(Fluency, 3.0)])
  }

  // ---------- lookups ----------

  function GetTaskConfig(code: string): (r: Option<TaskConfig>)
    ensures r.Some? <==> ParseTaskCode(code).Some?
    ensures r.Some? ==> r.value.taskCode == code
  {
    match ParseTaskCode(code)
    case Some(c) => Some(Config(c))
    case None => None
  }

  function GetCriteriaForTask(code: string): seq<CriteriaConfig> {
    match GetTaskConfig(code)
    case Some(cfg) => cfg.criteria
    case None => []
  }

  /** `{c.type.value: c.max_score for c in criteria}`: a later criterion of the
      same type would overwrite an earlier one. */
  function MaxScoresOf(criteria: seq<CriteriaConfig>): map<string, real> {
    if |criteria| == 0 then map[]
    else map[TypeName(criteria[0].kind) := criteria[0].maxScore] + MaxScoresOf(criteria[1..])
  }

  function GetMaxScoresForTask(code: string): map<string, real> {
    match GetTaskConfig(code)
    case Some(cfg) => MaxScoresOf(cfg.criteria)
    case None => map[]
  }

  function TaskRequiresReference(code: string): bool {
    match GetTaskConfig(code)
    case Some(cfg) => exists i :: 0 <= i < |cfg.criteria| && cfg.criteria[i].requiresReference
    case None => false
  }

  // ---------- registry invariants ----------

  function SumMaxScores(criteria: seq<CriteriaConfig>): real {
    if |criteria| == 0 then 0.0 else criteria[0].maxScore + SumMaxScores(criteria[1..])
  }

  predicate IsAcousticKind(t: CriteriaType) {
    t == Pronunciation || t == Fluency
  }

  predicate DistinctKinds(criteria: seq<CriteriaConfig>) {
    forall i, j :: 0 <= i < j < |criteria| ==> criteria[i].kind != criteria[j].kind
  }

  /** What a well-built plan promises: non-empty, positive maxima, PRAAT
      exactly for the acoustic kinds, no kind twice, and points that add up. */
  predicate WellFormed(cfg: TaskConfig) {
    && |cfg.criteria| > 0
    && (forall i :: 0 <= i < |cfg.criteria| ==> cfg.criteria[i].maxScore > 0.0)
    && (forall i :: 0 <= i < |cfg.criteria| ==>
          (cfg.criteria[i].source == Praat <==> IsAcousticKind(cfg.criteria[i].kind)))
    && DistinctKinds(cfg.criteria)
    && SumMaxScores(cfg.criteria) == cfg.pointsPerQuestion
    && cfg.questionCount as real * cfg.pointsPerQuestion == cfg.totalPoints
  }

  /** The registry has exactly the nine codes as keys, and each key is the
      `task_code` of the plan it maps to. */
  lemma RegistryKeys(c: TaskCode)
    ensures ParseTaskCode(CodeName(c)) == Some(c)
    ensures GetTaskConfig(CodeName(c)) == Some(Config(c))
    ensures Config(c).taskCode == CodeName(c)
  {
  }

  lemma CodeNameInjective(a: TaskCode, b: TaskCode)
    ensures CodeName(a) == CodeName(b) <==> a == b
  {
    RegistryKeys(a);
    RegistryKeys(b);
  }

  lemma UnknownTaskCode(code: string)
    requires ParseTaskCode(code) == None
    ensures GetTaskConfig(code) == None
    ensures GetCriteriaForTask(code) == []
    ensures GetMaxScoresForTask(code) == map[]
    ensures !TaskRequiresReference(code)
  {
  }

  /** Only the first criterion of a plan can need the reference text, and it
      does exactly for the four read-aloud and repeat tasks. */
  lemma PlanRequiresReference(c: TaskCode)
    ensures (exists i :: 0 <= i < |Config(c).criteria| && Config(c).criteria[i].requiresReference)
      <==> c in {HSKKSC1, HSKKTC1, HSKKCC1, HSKKCC2}
  {
    var cs := Config(c).criteria;
    if !cs[0].requiresReference {
      assert forall i :: 0 <= i < |cs| ==> !cs[i].requiresReference;
    }
  }

  lemma RequiresReferenceExactly(code: string)
    ensures TaskRequiresReference(code) <==> code in {"HSKKSC1", "HSKKTC1", "HSKKCC1", "HSKKCC2"}
  {
    match ParseTaskCode(code)
    case None =>
    case Some(c) =>
      PlanRequiresReference(c);
      RegistryKeys(c);
  }

  /** `k` is not the kind of any criterion in `cs`. */
  predicate KindAbsent(k: CriteriaType, cs: seq<CriteriaConfig>) {
    |cs| == 0 || (cs[0].kind != k && KindAbsent(k, cs[1..]))
  }

  /** The per-criterion half of `WellFormed`, checked head first so that a
      literal list is decided by unfolding. */
  predicate RowsOk(cs: seq<CriteriaConfig>) {
    |cs| == 0 ||
    (&& cs[0].maxScore > 0.0
     && (cs[0].source == Praat <==> IsAcousticKind(cs[0].kind))
     && KindAbsent(cs[0].kind, cs[1..])
     && RowsOk(cs[1..]))
  }

  lemma {:induction false} KindAbsentSound(k: CriteriaType, cs: seq<CriteriaConfig>)
    requires KindAbsent(k, cs)
    ensures forall j :: 0 <= j < |cs| ==> cs[j].kind != k
  {
    if |cs| > 0 {
      KindAbsentSound(k, cs[1..]);
      assert forall j :: 1 <= j < |cs| ==> cs[j] == cs[1..][j - 1];
    }
  }

  /** The recursive check implies the quantified clauses of `WellFormed`. */
  lemma {:induction false} RowsOkSound(cs: seq<CriteriaConfig>)
    requires RowsOk(cs)
    ensures forall i :: 0 <= i < |cs| ==> cs[i].maxScore > 0.0
    ensures forall i :: 0 <= i < |cs| ==> (cs[i].source == Praat <==> IsAcousticKind(cs[i].kind))
    ensures DistinctKinds(cs)
  {
    if |cs| > 0 {
      var t := cs[1..];
      RowsOkSound(t);
      KindAbsentSound(cs[0].kind, t);
      assert forall j :: 1 <= j < |cs| ==> cs[j] == t[j - 1];
    }
  }

  /** A plan is well formed once its rows pass the recursive check and its
      points add up. */
  lemma PlanWellFormed(cfg: TaskConfig)
    requires |cfg.criteria| > 0 && RowsOk(cfg.criteria)
    requires SumMaxScores(cfg.criteria) == cfg.pointsPerQuestion
    requires cfg.questionCount as real * cfg.pointsPerQuestion == cfg.totalPoints
    ensures WellFormed(cfg)
  {
    RowsOkSound(cfg.criteria);
  }

  // One lemma per plan keeps each proof small; peeling the literal list down
  // to empty lets the verifier unfold the recursive checks.
  lemma WellFormedSC1()
    ensures WellFormed(Config(HSKKSC1))
  {
    var cs := Config(HSKKSC1).criteria;
    assert cs[1..][1..][1..] == [];
    PlanWellFormed(Config(HSKKSC1));
  }

  lemma WellFormedSC2()
    ensures WellFormed(Config(HSKKSC2))
  {
    var cs := Config(HSKKSC2).criteria;
    assert cs[1..][1..][1..][1..] == [];
    PlanWellFormed(Config(HSKKSC2));
  }

  lemma WellFormedSC3()
    ensures WellFormed(Config(HSKKSC3))
  {
    var cs := Config(HSKKSC3).criteria;
    assert cs[1..][1..][1..][1..][1..][1..] == [];
    PlanWellFormed(Config(HSKKSC3));
  }

  lemma WellFormedTC1()
    ensures WellFormed(Config(HSKKTC1))
  {
    var cs := Config(HSKKTC1).criteria;
    assert cs[1..][1..][1..] == [];
    PlanWellFormed(Config(HSKKTC1));
  }

  lemma WellFormedTC2()
    ensures WellFormed(Config(HSKKTC2))
  {
    var cs := Config(HSKKTC2).criteria;
    assert cs[1..][1..][1..][1..][1..][1..] == [];
    PlanWellFormed(Config(HSKKTC2));
  }

  lemma WellFormedTC3()
    ensures WellFormed(Config(HSKKTC3))
  {
    var cs := Config(HSKKTC3).criteria;
    assert cs[1..][1..][1..][1..][1..][1..] == [];
    PlanWellFormed(Config(HSKKTC3));
  }

  lemma WellFormedCC1()
    ensures WellFormed(Config(HSKKCC1))
  {
    var cs := Config(HSKKCC1).criteria;
    assert cs[1..][1..][1..][1..] == [];
    PlanWellFormed(Config(HSKKCC1));
  }

  lemma WellFormedCC2()
    ensures WellFormed(Config(HSKKCC2))
  {
    var cs := Config(HSKKCC2).criteria;
    assert cs[1..][1..][1..] == [];
    PlanWellFormed(Config(HSKKCC2));
  }

  lemma WellFormedCC3()
    ensures WellFormed(Config(HSKKCC3))
  {
    var cs := Config(HSKKCC3).criteria;
    assert cs[1..][1..][1..][1..][1..][1..] == [];
    PlanWellFormed(Config(HSKKCC3));
  }

  /** Every plan in the registry is well formed. */
  lemma ConfigWellFormed(c: TaskCode)
    ensures WellFormed(Config(c))
  {
    match c
    case HSKKSC1 => WellFormedSC1();
    case HSKKSC2 => WellFormedSC2();
    case HSKKSC3 => WellFormedSC3();
    case HSKKTC1 => WellFormedTC1();
    case HSKKTC2 => WellFormedTC2();
    case HSKKTC3 => WellFormedTC3();
    case HSKKCC1 => WellFormedCC1();
    case HSKKCC2 => WellFormedCC2();
    case HSKKCC3 => WellFormedCC3();
  }

  /** Every plan has both an acoustic and a judged criterion. */
  lemma EveryTaskMixesSources(c: TaskCode)
    ensures Config(c).HasPraatCriteria()
    ensures Config(c).HasAiCriteria()
  {
    var cs := Config(c).criteria;
    assert cs[0].source == DataSource.Ai;
    assert cs[|cs| - 1].source == Praat;
  }

  /** The map's keys are exactly the wire names of the listed criteria. */
  lemma {:induction false} MaxScoresOfKeys(criteria: seq<CriteriaConfig>)
    ensures forall i :: 0 <= i < |criteria| ==> TypeName(criteria[i].kind) in MaxScoresOf(criteria)
    ensures forall k :: k in MaxScoresOf(criteria) ==> exists i :: 0 <= i < |criteria| && TypeName(criteria[i].kind) == k
  {
    if |criteria| > 0 {
      var rest := criteria[1..];
      MaxScoresOfKeys(rest);
      forall i | 1 <= i < |criteria| ensures TypeName(criteria[i].kind) in MaxScoresOf(rest) {
        assert criteria[i] == rest[i - 1];
      }
      forall k | k in MaxScoresOf(criteria)
        ensures exists i :: 0 <= i < |criteria| && TypeName(criteria[i].kind) == k
      {
        if k != TypeName(criteria[0].kind) {
          var j :| 0 <= j < |rest| && TypeName(rest[j].kind) == k;
          assert criteria[j + 1] == rest[j];
        }
      }
    }
  }

  lemma DistinctTail(criteria: seq<CriteriaConfig>)
    requires |criteria| > 0 && DistinctKinds(criteria)
    ensures DistinctKinds(criteria[1..])
    ensures forall i :: 1 <= i < |criteria| ==> TypeName(criteria[i].kind) != TypeName(criteria[0].kind)
  {
    var rest := criteria[1..];
    forall i, j | 0 <= i < j < |rest| ensures rest[i].kind != rest[j].kind {
      assert rest[i] == criteria[i + 1] && rest[j] == criteria[j + 1];
    }
    forall i | 1 <= i < |criteria| ensures TypeName(criteria[i].kind) != TypeName(criteria[0].kind) {
      TypeNameInjective(criteria[i].kind, criteria[0].kind);
    }
  }

  /** Adding a criterion whose type name is new extends the map by exactly
      that one entry. */
  lemma MaxScoresOfCons(criteria: seq<CriteriaConfig>)
    requires |criteria| > 0 && TypeName(criteria[0].kind) !in MaxScoresOf(criteria[1..])
    ensures MaxScoresOf(criteria).Keys == MaxScoresOf(criteria[1..]).Keys + {TypeName(criteria[0].kind)}
    ensures |MaxScoresOf(criteria)| == |MaxScoresOf(criteria[1..])| + 1
  {
    var m := MaxScoresOf(criteria[1..]);
    var first := TypeName(criteria[0].kind);
    var full := MaxScoresOf(criteria);
    assert full == map[first := criteria[0].maxScore] + m;
    assert full.Keys == m.Keys + {first};
    assert |full.Keys| == |m.Keys| + 1;
  }

  /** With distinct kinds, the max-score map has one entry per criterion,
      holding that criterion's own maximum. */
  lemma {:induction false} MaxScoresOfDistinct(criteria: seq<CriteriaConfig>)
    requires DistinctKinds(criteria)
    ensures |MaxScoresOf(criteria)| == |criteria|
    ensures forall i :: 0 <= i < |criteria| ==>
      TypeName(criteria[i].kind) in MaxScoresOf(criteria) && MaxScoresOf(criteria)[TypeName(criteria[i].kind)] == criteria[i].maxScore
  {
    if |criteria| > 0 {
      var rest := criteria[1..];
      var first := TypeName(criteria[0].kind);
      DistinctTail(criteria);
      MaxScoresOfDistinct(rest);
      MaxScoresOfKeys(rest);
      var m := MaxScoresOf(rest);
      assert first !in m by {
        forall j | 0 <= j < |rest| ensures TypeName(rest[j].kind) != first {
          assert criteria[j + 1] == rest[j];
        }
      }
      MaxScoresOfCons(criteria);
      forall i | 1 <= i < |criteria|
        ensures TypeName(criteria[i].kind) in m && MaxScoresOf(criteria)[TypeName(criteria[i].kind)] == criteria[i].maxScore
      {
        assert criteria[i] == rest[i - 1];
      }
    }
  }

  /** `get_max_scores_for_task`: one entry per criterion of the plan, holding
      that criterion's maximum; an unknown code gives the empty map. */
  lemma MaxScoresForTask(code: string)
    ensures GetTaskConfig(code).None? ==> GetMaxScoresForTask(code) == map[]
    ensures GetTaskConfig(code).Some? ==>
      var cs := GetTaskConfig(code).value.criteria;
      && |GetMaxScoresForTask(code)| == |cs|
      && forall i :: 0 <= i < |cs| ==>
           TypeName(cs[i].kind) in GetMaxScoresForTask(code) && GetMaxScoresForTask(code)[TypeName(cs[i].kind)] == cs[i].maxScore
  {
    match ParseTaskCode(code)
    case None =>
    case Some(c) =>
      ConfigWellFormed(c);
      MaxScoresOfDistinct(Config(c).criteria);
  }

  /** HSKKSC3 splits its 20 points per question as 6+4+4+2+2+2. */
  lemma PointsExample()
    ensures SumMaxScores(Config(HSKKSC3).criteria) == 20.0
    ensures Config(HSKKSC1).questionCount as real * Config(HSKKSC1).pointsPerQuestion == 30.0
    ensures Config(HSKKCC3).questionCount as real * Config(HSKKCC3).pointsPerQuestion == 50.0
  {
    ConfigWellFormed(HSKKSC3);
  }
}
