/** Turning the parsed Praat output into the 44-field feature record:
    every feature has a default for a missing key and most are clamped into
    a plausible range, so the record always satisfies its schema. */
module PraatService {
  import opened Wrappers

  /** The clamp a feature gets: none, a floor, or a floor and a ceiling. */
  datatype Bound = Unbounded | AtLeast(lo: real) | Within(lo: real, hi: real)

  predicate InBound(v: real, b: Bound) {
    match b
    case Unbounded => true
    case AtLeast(lo) => lo <= v
    case Within(lo, hi) => lo <= v <= hi
  }

  /** `safe_get`: the value or its default, raised to the floor and then
      lowered to the ceiling. */
  function SafeGet(d: map<string, real>, key: string, default: real, b: Bound): (v: real)
    requires b.Within? ==> b.lo <= b.hi
    ensures InBound(v, b)
    ensures InBound(Field(d, key, default), b) ==> v == Field(d, key, default)
    ensures b.Within? && Field(d, key, default) > b.hi ==> v == b.hi
    ensures b != Unbounded && Field(d, key, default) < b.lo ==> v == b.lo
  {
    var raw := Field(d, key, default);
    match b
    case Unbounded => raw
    case AtLeast(lo) => if raw < lo then lo else raw
    case Within(lo, hi) => var up := if raw < lo then lo else raw; if hi < up then hi else up
  }

  /** The feature record (the `AudioFeatures` schema). */
  datatype AudioFeatures = AudioFeatures(
    duration: real,
    pitchMean: real,
    pitchStd: real,
    pitchRange: real,
    pitchMin: real,
    pitchMax: real,
    pitchMedian: real,
    pitchQuantile25: real,
    pitchQuantile75: real,
    f1Mean: real,
    f1Std: real,
    f2Mean: real,
    f2Std: real,
    f3Mean: real,
    f3Std: real,
    f4Mean: real,
    f4Std: real,
    intensityMean: real,
    intensityStd: real,
    intensityMin: real,
    intensityMax: real,
    spectralCentroid: real,
    spectralStd: real,
    spectralSkewness: real,
    spectralKurtosis: real,
    hnrMean: real,
    hnrStd: real,
    jitterLocal: real,
    jitterRap: real,
    jitterPpq5: real,
    shimmerLocal: real,
    shimmerApq3: real,
    shimmerApq5: real,
    shimmerApq11: real,
    speechRate: real,
    articulationRate: real,
    speechDuration: real,
    pauseDuration: real,
    pauseRatio: real,
    numPauses: int,
    meanPauseDuration: real,
    cog: real,
    slope: real,
    spread: real)

  /** The schema's constraints: every field declared `ge=0` is
      non-negative, and the pause ratio is at most 1. */
  predicate SchemaValid(f: AudioFeatures) {
    && f.pitchMean >= 0.0
    && f.pitchStd >= 0.0
    && f.pitchRange >= 0.0
    && f.pitchMin >= 0.0
    && f.pitchMax >= 0.0
    && f.pitchMedian >= 0.0
    && f.pitchQuantile25 >= 0.0
    && f.pitchQuantile75 >= 0.0
    && f.f1Mean >= 0.0
    && f.f1Std >= 0.0
    && f.f2Mean >= 0.0
    && f.f2Std >= 0.0
    && f.f3Mean >= 0.0
    && f.f3Std >= 0.0
    && f.f4Mean >= 0.0
    && f.f4Std >= 0.0
    && f.intensityMean >= 0.0
    && f.intensityStd >= 0.0
    && f.intensityMin >= 0.0
    && f.intensityMax >= 0.0
    && f.spectralCentroid >= 0.0
    && f.spectralStd >= 0.0
    && f.hnrStd >= 0.0
    && f.jitterLocal >= 0.0
    && f.jitterRap >= 0.0
    && f.jitterPpq5 >= 0.0
    && f.shimmerLocal >= 0.0
    && f.shimmerApq3 >= 0.0
    && f.shimmerApq5 >= 0.0
    && f.shimmerApq11 >= 0.0
    && f.speechRate >= 0.0
    && f.articulationRate >= 0.0
    && f.speechDuration >= 0.0
    && f.pauseDuration >= 0.0
    && f.pauseRatio >= 0.0
    && f.meanPauseDuration >= 0.0
    && f.numPauses >= 0
    && f.pauseRatio <= 1.0
  }

  /** `_build_audio_features`. */
  function Build(d: map<string, real>): (f: AudioFeatures)
    ensures SchemaValid(f)
    ensures f.duration >= 0.0 && 0.0 <= f.speechDuration <= f.duration
    ensures 50.0 <= f.pitchMean <= 500.0 && 0.0 <= f.hnrMean <= 40.0
    ensures 0.0 <= f.jitterLocal <= 0.1 && 0.0 <= f.shimmerLocal <= 1.0
    ensures "hnr_mean" in d && 0.0 <= d["hnr_mean"] <= 40.0 ==> f.hnrMean == d["hnr_mean"]
    ensures "speech_rate" in d && d["speech_rate"] >= 0.0 ==> f.speechRate == d["speech_rate"]
    ensures "pause_ratio" in d && 0.0 <= d["pause_ratio"] <= 1.0 ==> f.pauseRatio == d["pause_ratio"]
  {
    var duration := SafeGet(d, "duration", 0.0, AtLeast(0.0));
    AudioFeatures(
      duration,
      SafeGet(d, "pitch_mean", 200.0, Within(50.0, 500.0)),
      SafeGet(d, "pitch_std", 30.0, AtLeast(0.0)),
      SafeGet(d, "pitch_range", 100.0, AtLeast(0.0)),
      SafeGet(d, "pitch_min", 150.0, Within(50.0, 500.0)),
      SafeGet(d, "pitch_max", 250.0, Within(50.0, 500.0)),
      SafeGet(d, "pitch_median", 200.0, Within(50.0, 500.0)),
      SafeGet(d, "pitch_quantile_25", 180.0, Within(50.0, 500.0)),
      SafeGet(d, "pitch_quantile_75", 220.0, Within(50.0, 500.0)),
      SafeGet(d, "f1_mean", 500.0, Within(200.0, 1000.0)),
      SafeGet(d, "f1_std", 50.0, AtLeast(0.0)),
      SafeGet(d, "f2_mean", 1500.0, Within(800.0, 3000.0)),
      SafeGet(d, "f2_std", 100.0, AtLeast(0.0)),
      SafeGet(d, "f3_mean", 2500.0, Within(1500.0, 4000.0)),
      SafeGet(d, "f3_std", 150.0, AtLeast(0.0)),
      SafeGet(d, "f4_mean", 3500.0, Within(2500.0, 5000.0)),
      SafeGet(d, "f4_std", 200.0, AtLeast(0.0)),
      SafeGet(d, "intensity_mean", 60.0, Within(0.0, 100.0)),
      SafeGet(d, "intensity_std", 5.0, AtLeast(0.0)),
      SafeGet(d, "intensity_min", 40.0, Within(0.0, 100.0)),
      SafeGet(d, "intensity_max", 80.0, Within(0.0, 100.0)),
      SafeGet(d, "spectral_centroid", 1000.0, AtLeast(100.0)),
      SafeGet(d, "spectral_std", 500.0, AtLeast(0.0)),
      SafeGet(d, "spectral_skewness", 0.0, Unbounded),
      SafeGet(d, "spectral_kurtosis", 3.0, Unbounded),
      SafeGet(d, "hnr_mean", 20.0, Within(0.0, 40.0)),
      SafeGet(d, "hnr_std", 2.0, AtLeast(0.0)),
      SafeGet(d, "jitter_local", 0.01, Within(0.0, 0.1)),
      SafeGet(d, "jitter_rap", 0.01, Within(0.0, 0.1)),
      SafeGet(d, "jitter_ppq5", 0.01, Within(0.0, 0.1)),
      SafeGet(d, "shimmer_local", 0.1, Within(0.0, 1.0)),
      SafeGet(d, "shimmer_apq3", 0.1, Within(0.0, 1.0)),
      SafeGet(d, "shimmer_apq5", 0.1, Within(0.0, 1.0)),
      SafeGet(d, "shimmer_apq11", 0.1, Within(0.0, 1.0)),
      SafeGet(d, "speech_rate", 180.0, AtLeast(0.0)),
      SafeGet(d, "articulation_rate", 200.0, AtLeast(0.0)),
      SafeGet(d, "speech_duration", duration, Within(0.0, duration)),
      SafeGet(d, "pause_duration", 0.0, AtLeast(0.0)),
      SafeGet(d, "pause_ratio", 0.1, Within(0.0, 1.0)),
      SafeGet(d, "num_pauses", 0.0, AtLeast(0.0)).Floor,
      SafeGet(d, "mean_pause_duration", 0.0, AtLeast(0.0)),
      SafeGet(d, "cog", 1000.0, AtLeast(0.0)),
      SafeGet(d, "slope", 0.0, Unbounded),
      SafeGet(d, "spread", 0.0, Unbounded))
  }

  /** The record for an empty output file: every default. */
  function Defaults(): AudioFeatures {
    AudioFeatures(0.0, 200.0, 30.0, 100.0, 150.0, 250.0, 200.0, 180.0, 220.0, 500.0, 50.0, 1500.0, 100.0, 2500.0, 150.0, 3500.0, 200.0, 60.0, 5.0, 40.0, 80.0, 1000.0, 500.0, 0.0, 3.0, 20.0, 2.0, 0.01, 0.01, 0.01, 0.1, 0.1, 0.1, 0.1, 180.0, 200.0, 0.0, 0.0, 0.1, 0, 0.0, 1000.0, 0.0, 0.0)
  }

  /** With no keys at all, every feature takes its default, and the
      defaults already lie inside their ranges. */
  lemma EmptyOutputGivesDefaults()
    ensures Build(map[]) == Defaults()
  {
  }

  /** `d` holds every field of `f` under the field's own key, as
      `model_dump()` of `f` does (other keys may be present too). */
  predicate Holds(d: map<string, real>, f: AudioFeatures) {
    && "duration" in d && d["duration"] == f.duration
    && "pitch_mean" in d && d["pitch_mean"] == f.pitchMean
    && "pitch_std" in d && d["pitch_std"] == f.pitchStd
    && "pitch_range" in d && d["pitch_range"] == f.pitchRange
    && "pitch_min" in d && d["pitch_min"] == f.pitchMin
    && "pitch_max" in d && d["pitch_max"] == f.pitchMax
    && "pitch_median" in d && d["pitch_median"] == f.pitchMedian
    && "pitch_quantile_25" in d && d["pitch_quantile_25"] == f.pitchQuantile25
    && "pitch_quantile_75" in d && d["pitch_quantile_75"] == f.pitchQuantile75
    && "f1_mean" in d && d["f1_mean"] == f.f1Mean
    && "f1_std" in d && d["f1_std"] == f.f1Std
    && "f2_mean" in d && d["f2_mean"] == f.f2Mean
    && "f2_std" in d && d["f2_std"] == f.f2Std
    && "f3_mean" in d && d["f3_mean"] == f.f3Mean
    && "f3_std" in d && d["f3_std"] == f.f3Std
    && "f4_mean" in d && d["f4_mean"] == f.f4Mean
    && "f4_std" in d && d["f4_std"] == f.f4Std
    && "intensity_mean" in d && d["intensity_mean"] == f.intensityMean
    && "intensity_std" in d && d["intensity_std"] == f.intensityStd
    && "intensity_min" in d && d["intensity_min"] == f.intensityMin
    && "intensity_max" in d && d["intensity_max"] == f.intensityMax
    && "spectral_centroid" in d && d["spectral_centroid"] == f.spectralCentroid
    && "spectral_std" in d && d["spectral_std"] == f.spectralStd
    && "spectral_skewness" in d && d["spectral_skewness"] == f.spectralSkewness
    && "spectral_kurtosis" in d && d["spectral_kurtosis"] == f.spectralKurtosis
    && "hnr_mean" in d && d["hnr_mean"] == f.hnrMean
    && "hnr_std" in d && d["hnr_std"] == f.hnrStd
    && "jitter_local" in d && d["jitter_local"] == f.jitterLocal
    && "jitter_rap" in d && d["jitter_rap"] == f.jitterRap
    && "jitter_ppq5" in d && d["jitter_ppq5"] == f.jitterPpq5
    && "shimmer_local" in d && d["shimmer_local"] == f.shimmerLocal
    && "shimmer_apq3" in d && d["shimmer_apq3"] == f.shimmerApq3
    && "shimmer_apq5" in d && d["shimmer_apq5"] == f.shimmerApq5
    && "shimmer_apq11" in d && d["shimmer_apq11"] == f.shimmerApq11
    && "speech_rate" in d && d["speech_rate"] == f.speechRate
    && "articulation_rate" in d && d["articulation_rate"] == f.articulationRate
    && "speech_duration" in d && d["speech_duration"] == f.speechDuration
    && "pause_duration" in d && d["pause_duration"] == f.pauseDuration
    && "pause_ratio" in d && d["pause_ratio"] == f.pauseRatio
    && "num_pauses" in d && d["num_pauses"] == f.numPauses as real
    && "mean_pause_duration" in d && d["mean_pause_duration"] == f.meanPauseDuration
    && "cog" in d && d["cog"] == f.cog
    && "slope" in d && d["slope"] == f.slope
    && "spread" in d && d["spread"] == f.spread
  }

  /** Building again from the fields of a built record gives the same
      record: every field is already inside its clamp. */
  lemma BuildIdempotent(d: map<string, real>, dumped: map<string, real>)
    requires Holds(dumped, Build(d))
    ensures Build(dumped) == Build(d)
  {
  }

  datatype ExtractionError = ScriptFailed | OutputUnreadable

  /** `extract_features`: the script must succeed and its output must be
      readable; the features are then built from the parsed dictionary. */
  function ExtractFeatures(scriptSucceeded: bool, output: Option<map<string, real>>): (r: Result<AudioFeatures, ExtractionError>)
    ensures r.Success? <==> scriptSucceeded && output.Some?
    ensures !scriptSucceeded ==> r == Failure(ScriptFailed)
    ensures r.Success? ==> SchemaValid(r.value) && r.value == Build(output.value)
  {
    if !scriptSucceeded then Failure(ScriptFailed)
    else match output
      case None => Failure(OutputUnreadable)
      case Some(d) => Success(Build(d))
  }
}
