# HSKK speaking-test scoring, modelled in Dafny

This project models the deterministic heart of the HSKK Praat scoring service. HSKK is the spoken-Chinese proficiency test. Its parts are:

- **Rubric registry.** The nine task codes (HSKKSC1 … HSKKCC3), each with its ordered criteria, maxima, sources and reference flag.
- **Shared level banding.** The 90/70/50 per-cent tiers every scorer uses.
- **Acoustic scorers.** Pronunciation uses additive deductions over HNR, jitter and shimmer. Fluency maps an issue count to a step multiplier.
- **Judged-criterion scorers.** The grammar, vocabulary, coherence and task-achievement scorers, applied to an analysis record that an AI provider has already returned.
- **Feature-vector boundary.** The Praat output-file line parser, and the default-then-clamp builder of the 44-field feature record.
- **Tri-core post-processing.**
  - The judge-response merge: acoustic criteria keep their pre-computed score; judged criteria are capped at the configured maximum; any failure empties the result.
  - The fixed three-slot speech-to-text fan-out.
  - FunASR timestamp zipping.
- **Word-level alignment.** Best-overlap interval matching, the per-word quality tiers and the summary counts.
- **The older 0–100 scoring service.** Its deductions, the HNR-to-accuracy and fluency curves, text quality, level and weighted overall score.
- **The `/praat` endpoint's arithmetic.** Task and level mappings, per-criterion details, summed totals and the zero-guarded percentage.

Modelling conventions:

- Floating-point values are exact `real`s.
- Python dictionaries are `map`s, or sequences of pairs where order matters.
- An absent key is an `Option`.
- Every external engine (Praat in Docker, FunASR, Whisper, Gemini, the OpenAI judge, the AI analysis provider, `float()`) is an input to the model: the parsed feature map, the analysis record, the judge's response, the raw timestamp list, or a string-to-number function.
- Feedback and issue texts are tags (`Issue` datatypes, and `Feedback<I>` = provider text, canned text for a level, or no content).

Files, one module each:

| file | module | source |
|---|---|---|
| wrappers.dfy | Wrappers | `Option`, `Result`, `dict.get` with a default |
| numbers.dfy | Numbers | Python's `min`, `max` and `abs` on two reals |
| base_scorer.dfy | BaseScorer | app/scorers/base_scorer.py |
| task_criteria.dfy | TaskCriteria | app/scorers/task_criteria_config.py |
| pronunciation_scorer.dfy | PronunciationScorer | app/scorers/praat_scorers/pronunciation_scorer.py |
| fluency_scorer.dfy | FluencyScorer | app/scorers/praat_scorers/fluency_scorer.py |
| grammar_scorer.dfy | GrammarScorer | app/scorers/ai_scorers/grammar_scorer.py |
| vocabulary_scorer.dfy | VocabularyScorer | app/scorers/ai_scorers/vocabulary_scorer.py |
| coherence_scorer.dfy | CoherenceScorer | app/scorers/ai_scorers/coherence_scorer.py |
| task_achievement_scorer.dfy | TaskAchievementScorer | app/scorers/ai_scorers/task_achievement_scorer.py |
| praat_repository.dfy | PraatRepository | app/repositories/praat_repository.py (`read_output_file`) |
| praat_service.dfy | PraatService | app/services/praat_service.py, app/models/schemas.py |
| speech_to_text.dfy | SpeechToText | app/services/tri_core_service.py (STT part) |
| judge_merge.dfy | JudgeMerge | app/services/tri_core_service.py (scoring part) |
| word_analysis.dfy | WordAnalysis | app/services/word_analysis_service.py |
| scoring_service.dfy | ScoringService | app/services/scoring_service.py, app/core/config.py |
| scoring_api.dfy | ScoringApi | app/api/v1/scoring.py |

Where the code and its own documentation disagree, the model follows the code. Two cases:

- **Acoustic fallback.** When no pre-computed score exists for pronunciation or fluency, the merge in `unified_ai_scoring` falls back to the judge's own score and maximum (default 10). The model keeps this fallback (`JudgeMerge.AcousticScore`).
- **HSKKCC2.** It is flagged `requires_reference`, but it maps to `task2`. The similarity path of the task-achievement scorer is reserved for `task1`, so it is never taken for HSKKCC2. `ScoringApi.ReadAloudIgnoresReference` states this consequence.

## Model

| member | source | states |
|---|---|---|
| BaseScorer.ScoringResult.Percentage | app/scorers/base_scorer.py:28-33 | the percentage is 0 when the maximum is 0, and otherwise the exact share score/max × 100 |
| BaseScorer.DetermineLevel | app/scorers/base_scorer.py:72-86 | a zero maximum is POOR; with a positive maximum the level is EXCELLENT iff pct ≥ 90, GOOD iff 70 ≤ pct < 90, ACCEPTABLE iff 50 ≤ pct < 70, POOR iff pct < 50 |
| BaseScorer.DetermineLevelMonotone | app/scorers/base_scorer.py:77-86 | for a fixed positive maximum a higher score never yields a lower level |
| BaseScorer.BandFraction | app/scorers/praat_scorers/fluency_scorer.py:99-110 | the step multipliers 1 / 0.75 / 0.5 / 0.25 the scorers attach to each level lie in (0, 1], and only EXCELLENT gets the full score |
| BaseScorer.BandAgreesWithLevel | app/scorers/base_scorer.py:77-86 | scoring a level's multiplier × max gives back that same level under the shared banding, so step scorers and `_determine_level` agree; a banded score lies between a quarter of the maximum and the maximum |
| BaseScorer.BandFractionMonotone | app/scorers/praat_scorers/fluency_scorer.py:99-110 | a better level always carries a larger multiplier, in both directions |
| BaseScorer.Band | app/scorers/base_scorer.py:77-86 | the threshold ladder ≥ hi / ≥ mid / ≥ lo / else, stated as four if-and-only-if bands |
| BaseScorer.BandMonotone | app/scorers/base_scorer.py:79-86 | more points never give a lower band |
| BaseScorer.Clamp | app/services/praat_service.py:68-74 | the clamped value lies in [lo, hi] and a value already inside is unchanged |
| TaskCriteria.TypeNameInjective | app/scorers/task_criteria_config.py:11-19 | the six criteria types have distinct string values |
| TaskCriteria.ParseTaskCode | app/scorers/task_criteria_config.py:431-444 | a recognised string is exactly the name of the code it parses to |
| TaskCriteria.GetTaskConfig | app/scorers/task_criteria_config.py:447-449 | a config is found iff the code is one of the nine, and the config found carries that very code |
| TaskCriteria.RegistryKeys | app/scorers/task_criteria_config.py:431-444 | each of the nine keys maps to the config whose `task_code` is that key |
| TaskCriteria.CodeNameInjective | app/scorers/task_criteria_config.py:431-444 | the nine registry keys are pairwise distinct |
| TaskCriteria.UnknownTaskCode | app/scorers/task_criteria_config.py:447-471 | an unknown code gives no config, no criteria, an empty max-score map and no reference requirement |
| TaskCriteria.RequiresReferenceExactly | app/scorers/task_criteria_config.py:466-471 | a reference text is required exactly for HSKKSC1, HSKKTC1, HSKKCC1 and HSKKCC2 |
| TaskCriteria.WellFormedSC1 | app/scorers/task_criteria_config.py:64-93 | HSKKSC1: non-empty criteria with positive maxima summing to the points per question, questions × points = total, distinct types, PRAAT iff an acoustic type |
| TaskCriteria.WellFormedSC2 | app/scorers/task_criteria_config.py:95-129 | the same invariants for HSKKSC2 |
| TaskCriteria.WellFormedSC3 | app/scorers/task_criteria_config.py:131-176 | the same invariants for HSKKSC3 (6+4+4+2+2+2 = 20) |
| TaskCriteria.WellFormedTC1 | app/scorers/task_criteria_config.py:182-211 | the same invariants for HSKKTC1 |
| TaskCriteria.WellFormedTC2 | app/scorers/task_criteria_config.py:213-259 | the same invariants for HSKKTC2 |
| TaskCriteria.WellFormedTC3 | app/scorers/task_criteria_config.py:261-306 | the same invariants for HSKKTC3 |
| TaskCriteria.WellFormedCC1 | app/scorers/task_criteria_config.py:312-347 | the same invariants for HSKKCC1 |
| TaskCriteria.WellFormedCC2 | app/scorers/task_criteria_config.py:349-378 | the same invariants for HSKKCC2 |
| TaskCriteria.WellFormedCC3 | app/scorers/task_criteria_config.py:380-426 | the same invariants for HSKKCC3 |
| TaskCriteria.ConfigWellFormed | app/scorers/task_criteria_config.py:64-426 | every one of the nine configs satisfies the registry invariants |
| TaskCriteria.EveryTaskMixesSources | app/scorers/task_criteria_config.py:53-59 | both `has_praat_criteria` and `has_ai_criteria` hold for all nine tasks |
| TaskCriteria.MaxScoresOfKeys | app/scorers/task_criteria_config.py:458-463 | the max-score map's keys are exactly the type names of the criteria |
| TaskCriteria.MaxScoresOfDistinct | app/scorers/task_criteria_config.py:458-463 | with distinct types the map has one entry per criterion, holding that criterion's maximum |
| TaskCriteria.MaxScoresForTask | app/scorers/task_criteria_config.py:458-463 | for a known code, `get_max_scores_for_task` has one entry per configured criterion with its maximum; for an unknown code it is empty |
| TaskCriteria.PointsExample | app/scorers/task_criteria_config.py:69-71 | the worked sums: HSKKSC3 maxima sum to 20, 15 × 2 = 30 for HSKKSC1 and 2 × 25 = 50 for HSKKCC3 |
| PronunciationScorer.HnrCheck | app/scorers/praat_scorers/pronunciation_scorer.py:79-91 | the HNR deduction is in [0, 0.5], is zero iff hnr ≥ 20, and an issue is raised iff hnr < 15 |
| PronunciationScorer.JitterCheck | app/scorers/praat_scorers/pronunciation_scorer.py:94-106 | the jitter deduction is in [0, 0.35], is zero iff jitter ≤ 0.01, and an issue is raised iff jitter > 0.015 |
| PronunciationScorer.ShimmerCheck | app/scorers/praat_scorers/pronunciation_scorer.py:109-121 | the shimmer deduction is in [0, 0.35], is zero iff shimmer ≤ 0.05, and an issue is raised iff shimmer > 0.08 |
| PronunciationScorer.Raised | app/scorers/praat_scorers/pronunciation_scorer.py:87-121 | each metric adds at most one issue, and adds one exactly when its check flags it |
| PronunciationScorer.Deduction | app/scorers/praat_scorers/pronunciation_scorer.py:76-121 | the summed deduction is in [0, 1.2], and is zero iff all three metrics are in their best band |
| PronunciationScorer.KeptShare | app/scorers/praat_scorers/pronunciation_scorer.py:124 | the share kept lies in 0..1 and is whole exactly when nothing is deducted |
| PronunciationScorer.Remaining | app/scorers/praat_scorers/pronunciation_scorer.py:124 | the score after deductions is floored at 0, never above the maximum, and equals the maximum iff nothing was deducted |
| PronunciationScorer.RemainingMonotone | app/scorers/praat_scorers/pronunciation_scorer.py:124 | a larger deduction never leaves a larger score |
| PronunciationScorer.ScoreMeasures | app/scorers/praat_scorers/pronunciation_scorer.py:76-147 | 0 ≤ score ≤ max; the level is the shared banding of the score; the score is the maximum less the summed deduction (floored at 0); the issues are the raised HNR, jitter and shimmer checks in that order; full marks iff hnr ≥ 20, jitter ≤ 0.01 and shimmer ≤ 0.05; no issues iff hnr ≥ 15, jitter ≤ 0.015 and shimmer ≤ 0.08 |
| PronunciationScorer.Score | app/scorers/praat_scorers/pronunciation_scorer.py:49-147 | the maximum comes from the level × task table (1.0 when absent) and is positive, the score lies within it, and the level is the banding of the score; the result is the scoring of HNR, jitter and shimmer with a missing HNR read as 0 and missing jitter or shimmer as 1 |
| PronunciationScorer.ChecksMonotone | app/scorers/praat_scorers/pronunciation_scorer.py:79-121 | a higher HNR, or a lower jitter or shimmer, never deducts more |
| PronunciationScorer.ScoreMonotone | app/scorers/praat_scorers/pronunciation_scorer.py:76-125 | a higher HNR with lower jitter and shimmer never lowers the score |
| PronunciationScorer.PoorHasIssue | app/scorers/praat_scorers/pronunciation_scorer.py:76-125 | a POOR pronunciation result always names at least one issue |
| PronunciationScorer.EmptyDataScoresZero | app/scorers/praat_scorers/pronunciation_scorer.py:61-63 | an empty feature map uses hnr 0, jitter 1 and shimmer 1, scores 0 at POOR and names all three severe issues |
| FluencyScorer.RateIssue | app/scorers/praat_scorers/fluency_scorer.py:132-142 | there is no speech-rate issue iff 150 ≤ rate ≤ 220; "too slow" iff rate < 100; "too fast" iff rate > 280 |
| FluencyScorer.CheckPauses | app/scorers/praat_scorers/fluency_scorer.py:144-168 | the wrong-pause problem is raised iff pause_ratio > 0.25 or mean_pause > 0.6, as "too many pauses" iff pause_ratio > 0.25 and otherwise as "pauses too long" iff mean_pause > 0.6; hesitation iff normalised pauses > 10 and mean_pause < 0.5; one problem per issue, at most two |
| FluencyScorer.LevelForCount | app/scorers/praat_scorers/fluency_scorer.py:99-110 | 0 / 1 / 2 / ≥3 issues give EXCELLENT / GOOD / ACCEPTABLE / POOR |
| FluencyScorer.ScoreMeasures | app/scorers/praat_scorers/fluency_scorer.py:62-130 | the issues are the speech-rate issue (if any), then the pause issues, then unsteady rate iff \|articulation − rate\| > 50, and the problems are the pause problems then unstable speed under the same condition; the score is max × the level's multiplier, so 0.25·max ≤ score ≤ max; the level follows the issue count and agrees with the shared banding; no issues iff every check passes |
| FluencyScorer.LevelCountsFailedChecks | app/scorers/praat_scorers/fluency_scorer.py:62-110 | each of the four checks (rate, pausing, hesitation, unsteady rate) that fails adds exactly one issue, so the issue count is the number of failed checks and the level is the one for that number |
| FluencyScorer.Score | app/scorers/praat_scorers/fluency_scorer.py:51-130 | the maximum comes from the level × task table (1.0 when absent); fluency is never scored below a quarter of it; the result is the scoring of the measures read with their defaults |
| FluencyScorer.MoreIssuesNeverBetter | app/scorers/praat_scorers/fluency_scorer.py:99-110 | more issues never give a better level or a larger multiplier |
| FluencyScorer.EmptyDataIsAcceptable | app/scorers/praat_scorers/fluency_scorer.py:63-68 | an empty feature map gives exactly the issues "too slow" and "too many pauses", ACCEPTABLE, half the maximum, and the wrong-pause problem |
| GrammarScorer.DeductionPerError | app/scorers/ai_scorers/grammar_scorer.py:27-31 | the per-error deduction is 0.25 for a beginner exam and 0.5 for every other level, the table's default included |
| GrammarScorer.ErrorDeduction | app/scorers/ai_scorers/grammar_scorer.py:89-90 | the raw deduction is the error count times the level's per-error deduction: at least 0.25 per error, and zero exactly when there are no errors |
| GrammarScorer.ComplexityBonus | app/scorers/ai_scorers/grammar_scorer.py:86-93 | the complexity part is 30 % of the maximum scaled by complexity / 100 when complexity exceeds 50, and zero otherwise; never negative |
| GrammarScorer.Points | app/scorers/ai_scorers/grammar_scorer.py:84-95 | the points are never negative, and without a complexity bonus (complexity ≤ 50) they never exceed the accuracy share of 70 % of the maximum |
| GrammarScorer.IssuesFor | app/scorers/ai_scorers/grammar_scorer.py:100-107 | one count line plus up to the first three errors when there are errors, and a structure issue iff complexity < 50 |
| GrammarScorer.Score | app/scorers/ai_scorers/grammar_scorer.py:43-121 | the maximum comes from the table (2.0 when absent); 0 ≤ score ≤ max with the banding level; empty text gives 0 with the single "nothing to assess" issue and no feedback; otherwise the score is the points for the error deduction, accuracy and complexity capped at the maximum, and the issues are the error and structure issues |
| GrammarScorer.PointsAntitone | app/scorers/ai_scorers/grammar_scorer.py:89-92 | a larger error deduction never raises the points |
| GrammarScorer.DeductionComesOffAccuracy | app/scorers/ai_scorers/grammar_scorer.py:89-95 | a deduction up to 70 % of the maximum comes straight off the accuracy share, which is floored at 0 before the complexity part is added: it lowers the points by exactly the deduction while the share covers it, and leaves only the complexity part otherwise |
| GrammarScorer.DeductionSaturates | app/scorers/ai_scorers/grammar_scorer.py:90 | every deduction of 70 % of the maximum or more gives the same points as exactly 70 % |
| GrammarScorer.MoreErrorsNeverHelp | app/scorers/ai_scorers/grammar_scorer.py:89-92 | more errors never raise the points |
| GrammarScorer.PerfectAnalysis | app/scorers/ai_scorers/grammar_scorer.py:84-107 | no errors with accuracy and complexity 100 scores the full maximum, EXCELLENT, with no issues |
| VocabularyScorer.LevelFor | app/scorers/ai_scorers/vocabulary_scorer.py:72-83 | EXCELLENT iff combined ≥ 80 and the HSK level matches; GOOD iff combined ≥ 60 but not EXCELLENT; POOR iff combined < 40 |
| VocabularyScorer.IssuesFor | app/scorers/ai_scorers/vocabulary_scorer.py:85-91 | independent issues iff diversity < 60, accuracy < 70 and level mismatch; at most 3 |
| VocabularyScorer.Score | app/scorers/ai_scorers/vocabulary_scorer.py:37-98 | the maximum comes from the table (2.0 when absent); empty text gives 0 at POOR; otherwise the level is the band of 0.6 × diversity + 0.4 × accuracy together with the HSK match (true when missing), score = max × the level's multiplier, and the issues are those of the three thresholds |
| VocabularyScorer.MismatchCapsAtGood | app/scorers/ai_scorers/vocabulary_scorer.py:72-77 | a level mismatch caps the score at 0.75 × max and always reports the mismatch |
| VocabularyScorer.LevelMonotone | app/scorers/ai_scorers/vocabulary_scorer.py:72-83 | a higher combined value never gives a lower level |
| CoherenceScorer.Points | app/scorers/ai_scorers/coherence_scorer.py:69-77 | the points lie in [0, max], and without logical flow (coherence ≤ 100) they never exceed 0.8 × max |
| CoherenceScorer.IssuesFor | app/scorers/ai_scorers/coherence_scorer.py:80-86 | issues iff no transitions, iff no logical flow, and "disjointed" iff coherence < 50; at most 3 |
| CoherenceScorer.Score | app/scorers/ai_scorers/coherence_scorer.py:36-93 | the maximum comes from the table (2.0 when absent); 0 ≤ score ≤ max with the banding level; empty text gives 0 with the "nothing to assess" issue; otherwise the score is the points for coherence, transitions and flow (missing flags false) and the issues are those of the three checks |
| CoherenceScorer.PointsMonotone | app/scorers/ai_scorers/coherence_scorer.py:69-77 | a higher coherence value never lowers the points |
| CoherenceScorer.PointsPlain | app/scorers/ai_scorers/coherence_scorer.py:69-77 | on the 0–100 scale, with logical flow and no transitions, the points are coherence / 100 × max |
| CoherenceScorer.FlowCutsAFifth | app/scorers/ai_scorers/coherence_scorer.py:74-77 | on the 0–100 scale, missing logical flow multiplies the points by exactly 0.8 |
| CoherenceScorer.TransitionsAddATenth | app/scorers/ai_scorers/coherence_scorer.py:69-77 | on the 0–100 scale with logical flow, transitions multiply the points by 1.1 while coherence × 1.1 ≤ 100, and give the full maximum above that |
| CoherenceScorer.TransitionsNeverHurt | app/scorers/ai_scorers/coherence_scorer.py:71-72 | on the 0–100 scale, using transitions never lowers the points |
| CoherenceScorer.TransitionsHurtOutOfScale | app/scorers/ai_scorers/coherence_scorer.py:69-77 | a concrete input outside the scale (coherence 200, no flow), where the 1.1 bonus is capped before the 0.8 factor and transitions lower the score from 1.0 to 0.8 |
| CoherenceScorer.EmptyAnalysis | app/scorers/ai_scorers/coherence_scorer.py:64-65 | an analysis with every key missing scores 0 and raises all three issues |
| TaskAchievementScorer.ScoreSimilarity | app/scorers/ai_scorers/task_achievement_scorer.py:108-154 | the similarity bands 90 / 70 / 50 give the level and max × multiplier; a missing-content issue iff content is missing, naming the first three items (all when fewer); the analyser's feedback when non-empty, else canned text for the level |
| TaskAchievementScorer.ScoreAchievement | app/scorers/ai_scorers/task_achievement_scorer.py:156-205 | 0.6·relevance + 0.4·completeness banded at 85 / 70 / 50 gives the level and max × multiplier; off-topic iff relevance < 70; incomplete iff completeness < 70; the analyser's feedback when non-empty, else canned text for the level |
| TaskAchievementScorer.Score | app/scorers/ai_scorers/task_achievement_scorer.py:75-106 | the maximum comes from the table (1.0 when absent); empty text gives 0 at POOR with "nothing said"; otherwise the similarity path is used iff the task is task1 with a non-empty reference, and the result is exactly that path's result (score, level, issues and feedback) |
| TaskAchievementScorer.PathIsolation | app/scorers/ai_scorers/task_achievement_scorer.py:99-106 | each path reads only its own analysis record |
| TaskAchievementScorer.ReferenceOnlyOnTaskOne | app/scorers/ai_scorers/task_achievement_scorer.py:99 | outside task1 a reference text is ignored |
| PraatRepository.Strip | app/repositories/praat_repository.py:156 | `str.strip`: a contiguous slice with only whitespace removed on either side and none left at its ends, whitespace being every character `str.isspace` accepts |
| PraatRepository.FirstComma | app/repositories/praat_repository.py:163-164 | the position of the first comma, or none when the line has no comma |
| PraatRepository.Lower | app/repositories/praat_repository.py:171 | lower-casing keeps the length and maps each character |
| PraatRepository.ParseValue | app/repositories/praat_repository.py:169-177 | the undefined markers (undefined, --undefined--, nan, inf, -inf in any case) and unparseable text read as 0.0; any other text reads as the number `float()` gives for it |
| PraatRepository.ParseLine | app/repositories/praat_repository.py:156-177 | blank lines, `#` comments and lines without a comma give no entry, and a key never contains a comma |
| PraatRepository.Entries | app/repositories/praat_repository.py:156-177 | at most one entry per line |
| PraatRepository.StoreLastWins | app/repositories/praat_repository.py:172-177 | a key is stored iff some line names it; a repeated key keeps the value from its last line |
| PraatRepository.ReadOutputFile | app/repositories/praat_repository.py:148-180 | a missing file gives None and an empty file an empty map |
| PraatRepository.ReadOutputFileLastWins | app/repositories/praat_repository.py:156-180 | the parsed map holds exactly the keys of the kept lines, each with the value of its last line |
| PraatRepository.SkippedLinesIgnored | app/repositories/praat_repository.py:157-161 | blank and comment lines before the data change nothing |
| PraatRepository.StripPadded | app/repositories/praat_repository.py:157 | `strip()` of a text padded on both sides with whitespace is the text, whenever the text has no whitespace at either end |
| PraatRepository.ParsePaddedLine | app/repositories/praat_repository.py:156-177 | whitespace around the line, around the key and around the value is dropped: `w1 key w2 , w3 value w4` gives the bare key and the reading of the bare value |
| PraatRepository.ParseFormattedLine | app/repositories/praat_repository.py:163-167 | a line "key,value" splits at the first comma into the key and the parsed value, whatever commas the value holds |
| PraatRepository.UndefinedMarkersReadZero | app/repositories/praat_repository.py:171-172 | the markers match regardless of case, for example "NaN" and "-INF" |
| PraatService.SafeGet | app/services/praat_service.py:68-74 | an absent key gives the default; the value is raised to the minimum and lowered to the maximum, and a value already inside the range is returned unchanged |
| PraatService.Build | app/services/praat_service.py:76-122 | the record satisfies every range of the feature schema (pitch in [50, 500], HNR in [0, 40], jitter in [0, 0.1], shimmer and pause ratio in [0, 1], 0 ≤ speech duration ≤ duration), and in-range inputs are copied unchanged |
| PraatService.EmptyOutputGivesDefaults | app/services/praat_service.py:76-122 | an empty map builds exactly the default record (for example HNR 20.0, jitter 0.01, pause ratio 0.1) |
| PraatService.BuildIdempotent | app/services/praat_service.py:68-122 | rebuilding from a built record's dumped fields reproduces the same record |
| PraatService.ExtractFeatures | app/services/praat_service.py:32-57 | features come back iff the script ran and its output was read, and then they are the built record |
| SpeechToText.RemoveSpaces | app/services/tri_core_service.py:150 | removing spaces keeps exactly the non-space characters and no space |
| SpeechToText.ZipTimestamps | app/services/tri_core_service.py:144-153 | min(\|timestamps\|, \|chars\|) words, the i-th pairing character i with timestamp i in seconds (milliseconds ÷ 1000) |
| SpeechToText.FlattenSentences | app/services/tri_core_service.py:154-160 | the sentence fallback yields one word per sentence word |
| SpeechToText.FlattenPlacesWord | app/services/tri_core_service.py:154-160 | word j of sentence s lands after all earlier sentences' words, in order |
| SpeechToText.TimedChars | app/services/tri_core_service.py:136-160 | timestamps take precedence over sentence words, and neither gives no words |
| SpeechToText.FunAsr | app/services/tri_core_service.py:104-168 | a successful text has no spaces; failures become error markers with no words; words appear only when asked for |
| SpeechToText.FunAsrTimestamps | app/services/tri_core_service.py:171-235 | the same parsing with timestamps, but every failure gives an empty result |
| SpeechToText.MultiModelStt | app/services/tri_core_service.py:288-342 | given each transcriber's outcome, exactly three texts in the order Whisper, FunASR, Gemini, plus FunASR's words |
| SpeechToText.SlotsIndependent | app/services/tri_core_service.py:326-335 | each slot depends on its own transcriber only |
| SpeechToText.NoSpacesUnchanged | app/services/tri_core_service.py:150 | a text without spaces is left as it is |
| SpeechToText.RemoveSpacesIdempotent | app/services/tri_core_service.py:150 | removing spaces twice is the same as once |
| SpeechToText.RemoveSpacesAppend | app/services/tri_core_service.py:150 | removing spaces keeps the order of the other characters: a concatenation loses its spaces piece by piece |
| SpeechToText.TimestampsCoverText | app/services/tri_core_service.py:144-153 | with enough timestamps, the timed characters spell the transcript one character each |
| SpeechToText.FailuresFillTheirSlot | app/services/tri_core_service.py:99-101 | failing transcribers still fill their slots with their own error markers |
| JudgeMerge.CriterionNamed | app/services/tri_core_service.py:42-52 | a recognised criterion name is that criterion's field name |
| JudgeMerge.NameRoundTrip | app/services/tri_core_service.py:42-52 | every criterion is found again by its name |
| JudgeMerge.ErrorResult | app/services/tri_core_service.py:555-559 | the error result has every criterion unset and the "Lỗi khi chấm điểm: " prefix |
| JudgeMerge.Effective | app/services/tri_core_service.py:479-485 | a missing config becomes {task_achievement: 20, grammar: 15, vocabulary: 10, coherence: 10}, whose names are distinct |
| JudgeMerge.ConfiguredMax | app/services/tri_core_service.py:542 | a configured maximum is found iff the name is configured, and it is that entry's value |
| JudgeMerge.AiScore | app/services/tri_core_service.py:542-551 | the score never exceeds either the configured maximum or the judge's score (default 0) and equals one of them; max_score = max; feedback and issues are the judge's |
| JudgeMerge.AcousticScore | app/services/tri_core_service.py:520-539 | score and maximum come from the pre-computed scores when present, else from the judge (max default 10); feedback and issues are the judge's |
| JudgeMerge.MergeAiMatches | app/services/tri_core_service.py:542-551 | the judged pass succeeds iff every configured, mentioned criterion validates; on success every configured name the judge mentions is set to its capped score, and everything else keeps its earlier value |
| JudgeMerge.MergeAcousticMatches | app/services/tri_core_service.py:520-539 | the acoustic pass succeeds iff each mentioned acoustic score validates, and then sets exactly the mentioned ones |
| JudgeMerge.UnifiedMatchesReference | app/services/tri_core_service.py:500-559 | `unified_ai_scoring` either returns the judge's overall feedback with every criterion equal to the reference reading (judged over kept), or, when any score fails validation, the all-empty error result |
| JudgeMerge.AiScoringMatchesReference | app/services/tri_core_service.py:400-439 | `tri_core_ai_scoring` the same way, with judged criteria only |
| JudgeMerge.AcousticScoreKept | app/services/tri_core_service.py:520-539 | a pre-computed acoustic score survives the judge with its own score and maximum, taking only the feedback and issues |
| JudgeMerge.UnmentionedAcousticStaysUnset | app/services/tri_core_service.py:520-521 | an acoustic criterion the judge does not mention stays unset even with a pre-computed score |
| JudgeMerge.JudgedCapped | app/services/tri_core_service.py:419-430 | every judged criterion that is set is capped at its configured maximum and reports it |
| JudgeMerge.NegativeScoreEmptiesResult | app/services/tri_core_service.py:34-39 | one negative judged score fails validation and empties the whole result |
| WordAnalysis.Overlap | app/services/word_analysis_service.py:169-171 | the overlap is never negative, and is positive iff the two time spans really intersect |
| WordAnalysis.BestFrom | app/services/word_analysis_service.py:160-175 | the scan finds no interval iff no overlap is positive, and otherwise the strictly largest overlap, earliest on ties |
| WordAnalysis.BestInterval | app/services/word_analysis_service.py:160-175 | the same, from the start of the list |
| WordAnalysis.BestIsUnique | app/services/word_analysis_service.py:160-175 | the best interval is the unique earliest maximum, so it is the one chosen |
| WordAnalysis.Features | app/services/word_analysis_service.py:150-188 | char, start and end are the word's (times 0 when missing); duration = end − start; pitch, pitch spread and HNR are the chosen interval's (0 for a missing key), or 0 when none overlaps |
| WordAnalysis.MapEach | app/services/word_analysis_service.py:151-190 | one output per kept word, none of them punctuation or empty |
| WordAnalysis.MapWordsToIntervals | app/services/word_analysis_service.py:132-192 | empty words or intervals give []; otherwise one output per kept word, in order, so never more than the input |
| WordAnalysis.MapOneWord | app/services/word_analysis_service.py:151-190 | a single punctuation mark is dropped and any other word becomes its features |
| WordAnalysis.PunctuationSkipped | app/services/word_analysis_service.py:26 | the Chinese punctuation marks are skipped and a Chinese character is kept |
| WordAnalysis.Assess | app/services/word_analysis_service.py:195-241 | pitch ≤ 0 gives no_data with one issue; otherwise the quality is good, needs_improvement or poor, poor iff hnr < 8, good iff there are no issues; a pitch-deviation issue iff the speaker mean is positive and the word is more than 50 % away from it; unstable tone iff pitch spread > 50; unclear iff hnr < 8; low clarity iff 8 ≤ hnr < 0.6 × the speaker mean; nothing but quality and issues changes |
| WordAnalysis.ClearerNeverPoorer | app/services/word_analysis_service.py:231-237 | a word not judged poor stays not poor with a clearer voice |
| WordAnalysis.CountsPartition | app/services/word_analysis_service.py:273-275 | good + needs_improvement + poor + no_data counts add up to the number of words |
| WordAnalysis.NoDataAreUnmeasured | app/services/word_analysis_service.py:212-215 | the no-data words are exactly those without a measured pitch |
| WordAnalysis.MeanOf | app/services/word_analysis_service.py:278-279 | with no words the average is 0; otherwise it times the count gives back the sum, and it is 0 only for a zero sum |
| WordAnalysis.AnalyzeWords | app/services/word_analysis_service.py:244-291 | the words are the mapped words each judged against the speaker means (200 and 15 when missing); total = their number; each count is the number of words with that quality, and the counts fall short of the total by the no-data count; each average is the sum over pitched words divided by their number, and 0 when there are none |
| WordAnalysis.NoIntervalsNoWords | app/services/word_analysis_service.py:259-266 | without intervals every count and average is 0 |
| ScoringService.Clamp100 | app/services/scoring_service.py:326 | the clamp lands in [0, 100] and leaves in-range values alone |
| ScoringService.HnrDeduction | app/services/scoring_service.py:267-278 | the HNR deduction is in [0, 20] and is zero iff hnr ≥ 20 |
| ScoringService.JitterDeduction | app/services/scoring_service.py:283-293 | the jitter deduction is in [0, 15] and is zero iff jitter ≤ 0.01 |
| ScoringService.ShimmerDeduction | app/services/scoring_service.py:298-304 | the shimmer deduction is 0, 5 or 10, and zero iff shimmer ≤ 0.05 |
| ScoringService.PronunciationRaw | app/services/scoring_service.py:261-322 | the unclamped pronunciation score stays in [35, 100] |
| ScoringService.AnalyzePronunciation | app/services/scoring_service.py:250-330 | score in [0, 100] (in fact [35, 100]); 100 iff every check passes; HNR and stability grades by threshold; the voice-quality, stability, amplitude, vowel-opening, tongue-position and monotone notes each iff its threshold or formant range is crossed |
| ScoringService.PronunciationMonotone | app/services/scoring_service.py:267-293 | a higher HNR and lower jitter never lower the score |
| ScoringService.RateDeduction | app/services/scoring_service.py:382-402 | the speech-rate deduction is in [0, 30] and zero iff 150 ≤ rate ≤ 220 |
| ScoringService.FluencyRaw | app/services/scoring_service.py:375-448 | the unclamped fluency score stays in [5, 100] |
| ScoringService.AnalyzeFluency | app/services/scoring_service.py:358-457 | score in [0, 100]; wrong pauses, hesitation and unstable speed are detected iff their conditions hold; repetition never is |
| ScoringService.DetectFluencyIssues | app/services/scoring_service.py:483-494 | one code per detected issue, in order, never "lap_tu" |
| ScoringService.CodeInjective | app/services/scoring_service.py:109-114 | the issue codes are distinct |
| ScoringService.DetectedCodes | app/services/scoring_service.py:408-438 | ngat_nghi_sai iff pause_ratio > 0.25 or mean_pause > 0.6, ngap_ngung iff num_pauses > 10 and mean_pause < 0.5, toc_do_khong_on_dinh iff \|articulation − rate\| > 50, in that order |
| ScoringService.CjkCount | app/services/scoring_service.py:500-526 | the CJK count never exceeds the length |
| ScoringService.TextQuality | app/services/scoring_service.py:500-526 | grammar 55 when the text is under 50 characters, else 75; vocabulary 15 lower when under 70 % of the characters are CJK; grammar ∈ {55, 75}, vocabulary ∈ {40, 55, 60, 75} |
| ScoringService.AllCjkKeepsVocabulary | app/services/scoring_service.py:500-526 | a long all-CJK text keeps 75 for both |
| ScoringService.AllCjkCounted | app/services/scoring_service.py:521-524 | every character of an all-CJK text is counted |
| ScoringService.DetermineLevel | app/services/scoring_service.py:532-539 | ADVANCED iff ≥ 80, INTERMEDIATE iff 65 ≤ overall < 80, ELEMENTARY iff < 65 |
| ScoringService.LevelMonotone | app/services/scoring_service.py:532-539 | a higher overall score never gives a lower level |
| ScoringService.CalculateScore | app/services/scoring_service.py:156-214 | pronunciation and fluency come from the analyses; without a transcription grammar = vocabulary = 75; the overall is the weighted sum and the level is its banding |
| ScoringService.OverallInRange | app/services/scoring_service.py:196-202 | with non-negative weights summing to 1 the overall lies in [0, 100] |
| ScoringService.WeightedBounds | app/services/scoring_service.py:197-202 | a convex combination of four scores in [0, 100] stays in [0, 100] |
| ScoringService.DefaultWeightsConvex | app/core/config.py:63-66 | the default weights 0.35 / 0.35 / 0.15 / 0.15 are non-negative and sum to 1 |
| ScoringService.AccuracyFromHnr | app/services/scoring_service.py:541-557 | accuracy lies in [0, 1] and equals 1 iff hnr ≥ 20 |
| ScoringService.AccuracyAnchors | app/services/scoring_service.py:541-557 | the curve's anchors: 1 at 20, 0.7 at 15, 0.4 at 10, 0.2 at 5, 0 at 0 |
| ScoringService.AccuracyMonotone | app/services/scoring_service.py:541-557 | accuracy is non-decreasing in HNR |
| ScoringService.RateScore | app/services/scoring_service.py:567-573 | the rate component lies in [0, 1] and is 1 iff 150 ≤ rate ≤ 220 |
| ScoringService.PauseScore | app/services/scoring_service.py:575-582 | the pause component lies in [0, 1] and is 1 iff pause_ratio ≤ 0.15 |
| ScoringService.NormalizeFluency | app/services/scoring_service.py:559-584 | fluency lies in [0, 1] and is 1 iff 150 ≤ rate ≤ 220 and pause_ratio ≤ 0.15 |
| ScoringService.PauseScoreMonotone | app/services/scoring_service.py:575-582 | more pausing never raises the pause component |
| ScoringService.AssessProsody | app/services/scoring_service.py:586-600 | prosody is at most 1, non-negative on schema-valid features, and 1 iff pitch range ≥ 100 and intensity spread ≥ 5 |
| ScoringService.ComponentsInUnitRange | app/services/praat_service.py:76-122 | on any built feature record the three curves lie in [0, 1] |
| ScoringApi.LevelMapping | app/api/v1/scoring.py:53-57 | the level names are beginner, intermediate and advanced |
| ScoringApi.TaskMapping | app/api/v1/scoring.py:47-51 | the task variants are task1, task2 and task3 |
| ScoringApi.TaskMappingByLastDigit | app/api/v1/scoring.py:47-51 | each seven-character code maps to "task" followed by its last digit |
| ScoringApi.LevelMappingAgreesWithRegistry | app/api/v1/scoring.py:53-57 | 101 / 102 / 103 match the registry's exam levels and level names one to one |
| ScoringApi.ScorerTablesMatchRegistry | app/scorers/praat_scorers/pronunciation_scorer.py:40-44 | for every task, each scorer's level × task table gives exactly the registry's maximum for that criterion |
| ScoringApi.MismatchedLevelUsesRequestedTables | app/api/v1/scoring.py:219-220 | the level is taken from the request, not the code: HSKKCC2 at beginner level gets the beginner maxima 0.5 / 0.5, not its own 5.0 |
| ScoringApi.ReadAloudIgnoresReference | app/scorers/task_criteria_config.py:363 | HSKKCC2 requires a reference, yet its task2 mapping never takes the similarity path, so the reference is ignored |
| ScoringApi.ToDetail | app/api/v1/scoring.py:146-156 | the detail copies name, score, maximum, issues and feedback, and its percentage is the share in [0, 100] |
| ScoringApi.TotalPercentage | app/api/v1/scoring.py:243 | the percentage is the exact share when the maximum total is positive, else 0 |
| ScoringApi.PercentageBounds | app/api/v1/scoring.py:243 | a part of a positive whole is between 0 and 100 per cent |
| ScoringApi.Scored | app/api/v1/scoring.py:215-256 | a success response with both details; totals are the sums of the two scores and of the two maxima; 0 ≤ total ≤ max total; the percentage is the share and lies in [0, 100] |
| ScoringApi.ScoreAudio | app/api/v1/scoring.py:196-266 | level and code are echoed; success iff features were extracted; a failed extraction or an exception gives the failure response without details; otherwise both scorers run on the dumped features with the mapped level and task |
| ScoringApi.SuccessfulTotals | app/api/v1/scoring.py:240-243 | on success the maximum total is positive, the score is at least a quarter of the fluency maximum and at most the maximum total, and the percentage is the share in [0, 100] |
| ScoringApi.MaximaFromTables | app/api/v1/scoring.py:219-228 | the reported maxima are the two scorers' table entries for the requested level and task |
| ScoringApi.ScoredTotals | app/api/v1/scoring.py:240-243 | the totals' bounds follow from each scorer's own bounds |
| ScoringApi.ScoresReadExtractedFeatures | app/api/v1/scoring.py:216-228 | the scores are those of the extracted feature record's fields |
| ScoringApi.DefaultFeaturesScore | app/api/v1/scoring.py:216-243 | the default feature record scores pronunciation 0.75 × max (GOOD, shimmer issue only) and fluency full marks (EXCELLENT, no issues) |

## Left out

- Rounding. `round(score, 2)` in every scorer and `round(…, 1)` / `round(…, 2)` in the endpoint are not modelled; all arithmetic is exact.
- `int()` on `num_pauses` is modelled only as the floor of a non-negative value.
- File, subprocess and Docker I/O are inputs to the model. This covers running the Praat script, copying files, `audio_repository.py`, `audio_service.py` and saving uploads. The output file is a list of lines or None.
- Network and SDK calls are inputs to the model. This covers the OpenAI, Whisper and Gemini clients, `ai_provider.py` and `get_gpt_word_feedback`. Their results are a call outcome, an analysis record or a judge response.
- Loading the FunASR model is a flag, and its output is a raw record.
- Concurrency (`asyncio.gather`, `run_in_executor`) is not modelled; only the resulting fixed three-slot order is.
- Exceptions raised before a service function's `try` block are not modelled. They propagate to the caller instead of becoming an error marker or an error result. Examples are the client construction at `app/services/tri_core_service.py:86-88` and `:250-251`, and the prompt building at `:370-399` and `:473-496`. SpeechToText and JudgeMerge model only the failures caught inside the `try`.
- Prompt text, Vietnamese and Chinese feedback strings, and float-formatted issue text are tags, not strings.
- The `details` dictionaries of the scorers and the `feedback` dictionaries of the older service are not modelled.
- `processing_time` and the clock are not modelled.
- Logging is not modelled.
- `get_criteria_name` is a pair of constants, not a scorer method.
- `float(value)` on a Praat value is a function parameter. Only its failure (a ValueError) is interpreted, as 0.0.
- `_generate_feedback` in every scorer: only its choice is modelled, not its text. The provider's text is used when present, else canned text for the level.
- `create_pronunciation_assessment` and `_calculate_pronunciation_score` / `_calculate_fluency_score` in the older service are not modelled. They are documentation helpers that no scoring path calls.
- `score_from_audio` of the task-achievement scorer is not modelled. It transcribes through the provider and then calls `score`, which is modelled.
- The application wiring is not modelled. Each part is broken as written:
  - `app/core/dependencies.py` passes a `scoring_service` argument that `AssessmentService.__init__` does not accept.
  - `app/api/v1/assessment.py` calls an `assess` method that does not exist.
  - `app/api/router.py` does not mount the scoring router.
  - `app/models/__init__.py` and `scoring_service.py` import `HSKKScore` and `PronunciationAssessment` from `schemas.py`, but they live in `hskk_models.py`. The model uses their fields.
- `constants/*.py` and `app/config.py` duplicate constants and have no behaviour; the scorers use their own tables, which are modelled.
- ScoringService.AnalyzePronunciation: the clamp to [0, 100] is modelled. The raw score never leaves [35, 100], so the clamp never changes it.
- ScoringService.AnalyzeFluency: the clamp to [0, 100] is modelled. The raw score never leaves [5, 100], so the clamp never changes it.
- JudgeMerge.AiScore, JudgeMerge.AcousticScore: a judge value of the wrong JSON type is not modelled. In the source a `"score": null` or a string score makes `min(...)` raise TypeError (or fails validation), and the `except` turns it into the error result. The model's judge response carries only numbers and missing keys, and a missing score reads as 0.
- PraatService.Build: its contract lists the ranges of only the schema fields the rest of the model reads. The record has 44 fields, and the body clamps 40 of them. `spectral_skewness`, `spectral_kurtosis`, `slope` and `spread` are copied unclamped, as the source does. `SchemaValid` states the schema's own constraints: non-negativity for every field that declares it, and a pause ratio of at most 1.
