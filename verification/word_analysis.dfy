/** Per-word pronunciation analysis: each timed character from FunASR is
    matched to the Praat interval it overlaps most, then judged on pitch
    deviation, tone stability and voice clarity, and the judgements are
    counted. */
module WordAnalysis {
  import opened Wrappers
  import opened Numbers

  /** `CHINESE_PUNCTUATION`. */
  const Punctuation: string := "。，！？、"

  /** One FunASR word as a dictionary; `None` is a missing key. */
  datatype WordIn = WordIn(ch: Option<string>, text: Option<string>, start: Option<real>, end: Option<real>)

  /** One Praat interval as a dictionary; `None` is a missing key. */
  datatype Interval = Interval(start: Option<real>, end: Option<real>,
                               pitchMean: Option<real>, pitchStd: Option<real>, hnr: Option<real>)

  datatype Quality = Unknown | GoodWord | NeedsImprovement | PoorWord | NoData

  datatype WordIssue =
    | NoAudioData          // no pitch was measured for the word
    | PitchOff(pitch: real) // more than 50% away from the speaker's mean pitch
    | UnstableTone         // pitch deviation above 50 Hz
    | Unclear(hnr: real)   // HNR below 8
    | LowClarity           // HNR below 60% of the speaker's mean

  /** `WordFeatures`. */
  datatype WordFeatures = WordFeatures(
    ch: string, start: real, end: real, duration: real,
    pitchMean: real, pitchStd: real, hnr: real,
    quality: Quality, issues: seq<WordIssue>)

  /** `WordAnalysisResult`. */
  datatype WordAnalysisResult = WordAnalysisResult(
    words: seq<WordFeatures>, totalWords: nat,
    goodCount: nat, needsImprovementCount: nat, poorCount: nat,
    averagePitch: real, averageHnr: real)

  /** The Praat JSON: `intervals` and `overall` (its pitch and HNR means). */
  datatype PraatWordData = PraatWordData(
    intervals: Option<seq<Interval>>,
    overallPitchMean: Option<real>,
    overallHnrMean: Option<real>)

  /** Python's `needle in haystack` on strings: a contiguous substring. */
  predicate Contains(haystack: string, needle: string)
    decreases |haystack|
  {
    |needle| <= |haystack| && (haystack[..|needle|] == needle || (haystack != [] && Contains(haystack[1..], needle)))
  }

  /** `needle` occurs in `haystack` wherever it matches at some offset. */
  lemma {:induction false} ContainsAt(haystack: string, needle: string, k: nat)
    requires k + |needle| <= |haystack| && haystack[k..k + |needle|] == needle
    ensures Contains(haystack, needle)
    decreases k
  {
    if k > 0 {
      var t := haystack[1..];
      assert t[k - 1..k - 1 + |needle|] == haystack[k..k + |needle|];
      ContainsAt(t, needle, k - 1);
    }
  }

  /** A one-character needle occurs exactly when the character does. */
  lemma {:induction false} ContainsChar(haystack: string, c: char)
    ensures Contains(haystack, [c]) <==> c in haystack
    decreases |haystack|
  {
    if haystack != [] {
      ContainsChar(haystack[1..], c);
      assert haystack == [haystack[0]] + haystack[1..];
    }
  }

  /** A character that is skipped: empty, or part of the punctuation string. */
  predicate Skipped(ch: string) {
    ch == "" || Contains(Punctuation, ch)
  }

  function CharOf(w: WordIn): string {
    w.ch.GetOr(w.text.GetOr(""))
  }

  /** The time a word and an interval share (0 when they are disjoint). */
  function Overlap(start: real, end: real, iv: Interval): (o: real)
    ensures o >= 0.0
    ensures o > 0.0 <==> Max(start, iv.start.GetOr(0.0)) < Min(end, iv.end.GetOr(0.0))
  {
    Max(0.0, Min(end, iv.end.GetOr(0.0)) - Max(start, iv.start.GetOr(0.0)))
  }

  /** `k` is the interval the search picks: positive overlap, strictly
      more than every earlier one, at least as much as every later one. */
  predicate IsBest(ivs: seq<Interval>, start: real, end: real, k: nat) {
    && k < |ivs|
    && Overlap(start, end, ivs[k]) > 0.0
    && (forall j :: 0 <= j < k ==> Overlap(start, end, ivs[j]) < Overlap(start, end, ivs[k]))
    && (forall j :: 0 <= j < |ivs| ==> Overlap(start, end, ivs[j]) <= Overlap(start, end, ivs[k]))
  }

  /** The scan from interval `i` on, remembering the best so far. */
  function BestFrom(ivs: seq<Interval>, start: real, end: real, i: nat, best: Option<nat>, bestOverlap: real): (r: Option<nat>)
    requires i <= |ivs|
    requires best.None? ==> bestOverlap == 0.0 && forall j :: 0 <= j < i ==> Overlap(start, end, ivs[j]) <= 0.0
    requires best.Some? ==>
      && best.value < i
      && bestOverlap == Overlap(start, end, ivs[best.value]) > 0.0
      && (forall j :: 0 <= j < best.value ==> Overlap(start, end, ivs[j]) < bestOverlap)
      && (forall j :: 0 <= j < i ==> Overlap(start, end, ivs[j]) <= bestOverlap)
    ensures r.None? <==> forall j :: 0 <= j < |ivs| ==> Overlap(start, end, ivs[j]) <= 0.0
    ensures r.Some? ==> IsBest(ivs, start, end, r.value)
    decreases |ivs| - i
  {
    if i == |ivs| then best
    else
      var o := Overlap(start, end, ivs[i]);
      if o > bestOverlap then BestFrom(ivs, start, end, i + 1, Some(i), o)
      else BestFrom(ivs, start, end, i + 1, best, bestOverlap)
  }

  /** The best-overlapping interval, the first one on a tie; `None` when
      no interval overlaps the word at all. */
  function BestInterval(ivs: seq<Interval>, start: real, end: real): (r: Option<nat>)
    ensures r.None? <==> forall j :: 0 <= j < |ivs| ==> Overlap(start, end, ivs[j]) <= 0.0
    ensures r.Some? ==> IsBest(ivs, start, end, r.value)
  {
    BestFrom(ivs, start, end, 0, None, 0.0)
  }

  /** Only one interval can be the best: the pick is the unique one with
      the largest overlap that comes first. */
  lemma BestIsUnique(ivs: seq<Interval>, start: real, end: real, k: nat)
    requires IsBest(ivs, start, end, k)
    ensures BestInterval(ivs, start, end) == Some(k)
  {
  }

  /** The features of a kept word: times and duration from the word, pitch
      and HNR from the best interval (0 for a missing key, or without one). */
  function Features(w: WordIn, ivs: seq<Interval>): (f: WordFeatures)
    ensures f.ch == CharOf(w) && f.duration == f.end - f.start
    ensures f.start == w.start.GetOr(0.0) && f.end == w.end.GetOr(0.0)
    ensures f.quality == Unknown && f.issues == []
    ensures BestInterval(ivs, f.start, f.end).None? ==> f.pitchMean == 0.0 && f.pitchStd == 0.0 && f.hnr == 0.0
    ensures BestInterval(ivs, f.start, f.end).Some? ==>
      var iv := ivs[BestInterval(ivs, f.start, f.end).value];
      f.pitchMean == iv.pitchMean.GetOr(0.0) && f.pitchStd == iv.pitchStd.GetOr(0.0) && f.hnr == iv.hnr.GetOr(0.0)
  {
    var start := w.start.GetOr(0.0);
    var end := w.end.GetOr(0.0);
    match BestInterval(ivs, start, end)
    case None => WordFeatures(CharOf(w), start, end, end - start, 0.0, 0.0, 0.0, Unknown, [])
    case Some(k) =>
      WordFeatures(CharOf(w), start, end, end - start,
                   ivs[k].pitchMean.GetOr(0.0), ivs[k].pitchStd.GetOr(0.0), ivs[k].hnr.GetOr(0.0), Unknown, [])
  }

  /** The number of words that are not skipped. */
  function KeptCount(words: seq<WordIn>): (n: nat)
    ensures n <= |words|
  {
    if words == [] then 0 else (if Skipped(CharOf(words[0])) then 0 else 1) + KeptCount(words[1..])
  }

  /** The words in order, each kept one turned into its features. */
  function MapEach(words: seq<WordIn>, ivs: seq<Interval>): (r: seq<WordFeatures>)
    ensures |r| == KeptCount(words)
    ensures forall i :: 0 <= i < |r| ==> !Skipped(r[i].ch) && r[i].duration == r[i].end - r[i].start
    ensures forall i :: 0 <= i < |r| ==> r[i].quality == Unknown
  {
    if words == [] then []
    else (if Skipped(CharOf(words[0])) then [] else [Features(words[0], ivs)]) + MapEach(words[1..], ivs)
  }

  /** `map_words_to_intervals`. */
  function MapWordsToIntervals(words: seq<WordIn>, ivs: seq<Interval>): (r: seq<WordFeatures>)
    ensures words == [] || ivs == [] ==> r == []
    ensures |r| <= |words|
    ensures ivs != [] ==> |r| == KeptCount(words)
    ensures forall i :: 0 <= i < |r| ==> !Skipped(r[i].ch) && r[i].duration == r[i].end - r[i].start
  {
    if words == [] || ivs == [] then [] else MapEach(words, ivs)
  }

  /** Mapping keeps the order of the words: the words of a concatenation
      map to the concatenation of their mappings. */
  lemma {:induction false} MapEachAppend(a: seq<WordIn>, b: seq<WordIn>, ivs: seq<Interval>)
    ensures MapEach(a + b, ivs) == MapEach(a, ivs) + MapEach(b, ivs)
  {
    if a == [] {
      assert a + b == b;
    } else {
      assert (a + b)[0] == a[0] && (a + b)[1..] == a[1..] + b;
      MapEachAppend(a[1..], b, ivs);
    }
  }

  /** A single word maps to nothing when skipped, else to its features. */
  lemma MapOneWord(w: WordIn, ivs: seq<Interval>)
    requires ivs != []
    ensures Skipped(CharOf(w)) ==> MapWordsToIntervals([w], ivs) == []
    ensures !Skipped(CharOf(w)) ==> MapWordsToIntervals([w], ivs) == [Features(w, ivs)]
  {
    assert [w][1..] == [];
  }

  /** Every punctuation mark is skipped, as is a run of them. */
  lemma PunctuationSkipped()
    ensures Skipped("。") && Skipped("，") && Skipped("？") && Skipped("！？")
    ensures !Skipped("我")
  {
    ContainsAt(Punctuation, "。", 0);
    ContainsAt(Punctuation, "，", 1);
    ContainsAt(Punctuation, "？", 3);
    ContainsAt(Punctuation, "！？", 2);
    ContainsChar(Punctuation, '我');
    assert forall i :: 0 <= i < |Punctuation| ==> Punctuation[i] != '我';
  }

  /** `assess_word_quality`: no pitch means no data; otherwise pitch off by
      more than half the mean or a pitch deviation above 50 needs
      improvement, and an HNR below 8 is poor (below 60% of the mean needs
      improvement). */
  function Assess(w: WordFeatures, overallPitch: real, overallHnr: real): (r: WordFeatures)
    ensures r.(quality := w.quality, issues := w.issues) == w
    ensures w.pitchMean <= 0.0 ==> r.quality == NoData && r.issues == [NoAudioData]
    ensures w.pitchMean > 0.0 ==> r.quality in {GoodWord, NeedsImprovement, PoorWord} && |r.issues| <= 3
    ensures w.pitchMean > 0.0 ==> (r.quality == PoorWord <==> w.hnr < 8.0)
    ensures w.pitchMean > 0.0 ==> (r.quality == GoodWord <==> r.issues == [])
    ensures w.pitchMean > 0.0 ==> (UnstableTone in r.issues <==> w.pitchStd > 50.0)
    ensures w.pitchMean > 0.0 ==>
      (PitchOff(w.pitchMean) in r.issues <==> overallPitch > 0.0 && Abs(w.pitchMean - overallPitch) / overallPitch > 0.5)
    ensures w.pitchMean > 0.0 ==> (Unclear(w.hnr) in r.issues <==> w.hnr < 8.0)
    ensures w.pitchMean > 0.0 ==> (LowClarity in r.issues <==> 8.0 <= w.hnr < overallHnr * 0.6)
    ensures w.pitchMean > 0.0 ==> NoAudioData !in r.issues
  {
    if w.pitchMean <= 0.0 then w.(quality := NoData, issues := [NoAudioData])
    else
      var pitchOff := overallPitch > 0.0 && Abs(w.pitchMean - overallPitch) / overallPitch > 0.5;
      var unstable := w.pitchStd > 50.0;
      var unclear := w.hnr < 8.0;
      var lowClarity := !unclear && w.hnr < overallHnr * 0.6;
      var issues := (if pitchOff then [PitchOff(w.pitchMean)] else [])
                    + (if unstable then [UnstableTone] else [])
                    + (if unclear then [Unclear(w.hnr)] else if lowClarity then [LowClarity] else []);
      var quality := if unclear then PoorWord
                     else if pitchOff || unstable || lowClarity then NeedsImprovement
                     else GoodWord;
      w.(quality := quality, issues := issues)
  }

  /** A clearer voice never makes a word worse: raising the HNR cannot
      turn a word that is not poor into a poor one. */
  lemma ClearerNeverPoorer(w: WordFeatures, hnr2: real, overallPitch: real, overallHnr: real)
    requires w.pitchMean > 0.0 && w.hnr <= hnr2
    requires Assess(w, overallPitch, overallHnr).quality != PoorWord
    ensures Assess(w.(hnr := hnr2), overallPitch, overallHnr).quality != PoorWord
  {
  }

  function CountQuality(ws: seq<WordFeatures>, q: Quality): (n: nat)
    ensures n <= |ws|
  {
    if ws == [] then 0 else (if ws[0].quality == q then 1 else 0) + CountQuality(ws[1..], q)
  }

  /** The number of words with a measured pitch. */
  function ValidCount(ws: seq<WordFeatures>): (n: nat)
    ensures n <= |ws|
  {
    if ws == [] then 0 else (if ws[0].pitchMean > 0.0 then 1 else 0) + ValidCount(ws[1..])
  }

  /** The sum of pitch means over words with a measured pitch. */
  function PitchSum(ws: seq<WordFeatures>): (s: real)
    ensures s >= 0.0 && (s > 0.0 <==> ValidCount(ws) > 0)
  {
    if ws == [] then 0.0 else (if ws[0].pitchMean > 0.0 then ws[0].pitchMean else 0.0) + PitchSum(ws[1..])
  }

  /** The sum of HNRs over words with a measured pitch. */
  function HnrSum(ws: seq<WordFeatures>): real {
    if ws == [] then 0.0 else (if ws[0].pitchMean > 0.0 then ws[0].hnr else 0.0) + HnrSum(ws[1..])
  }

  predicate Assessed(w: WordFeatures) {
    w.quality in {GoodWord, NeedsImprovement, PoorWord, NoData}
  }

  /** Every judged word falls in exactly one of the four counts. */
  lemma {:induction false} CountsPartition(ws: seq<WordFeatures>)
    requires forall i :: 0 <= i < |ws| ==> Assessed(ws[i])
    ensures CountQuality(ws, GoodWord) + CountQuality(ws, NeedsImprovement) + CountQuality(ws, PoorWord)
          + CountQuality(ws, NoData) == |ws|
  {
    if ws != [] {
      assert Assessed(ws[0]);
      CountsPartition(ws[1..]);
    }
  }

  /** Words without a measured pitch are exactly the no-data words. */
  lemma {:induction false} NoDataAreUnmeasured(ws: seq<WordFeatures>, overallPitch: real, overallHnr: real)
    ensures var judged := AssessAll(ws, overallPitch, overallHnr);
      CountQuality(judged, NoData) + ValidCount(judged) == |ws|
  {
    var judged := AssessAll(ws, overallPitch, overallHnr);
    if ws != [] {
      NoDataAreUnmeasured(ws[1..], overallPitch, overallHnr);
      assert judged[1..] == AssessAll(ws[1..], overallPitch, overallHnr);
    }
  }

  /** The average of `sum` over `n` items; 0 when there are none. */
  function MeanOf(sum: real, n: nat): (m: real)
    ensures n == 0 ==> m == 0.0
    ensures n > 0 ==> m * n as real == sum && (m == 0.0 <==> sum == 0.0)
  {
    if n > 0 then sum / n as real else 0.0
  }

  /** Judge every mapped word against the speaker's means. */
  function AssessAll(ws: seq<WordFeatures>, overallPitch: real, overallHnr: real): (r: seq<WordFeatures>)
    ensures |r| == |ws|
    ensures forall i :: 0 <= i < |r| ==> Assessed(r[i])
  {
    seq(|ws|, i requires 0 <= i < |ws| => Assess(ws[i], overallPitch, overallHnr))
  }

  /** `analyze_words`: map, judge against the speaker's means (200 Hz and
      15 by default), count, and average over the words with a pitch. */
  function AnalyzeWords(words: seq<WordIn>, praat: PraatWordData): (r: WordAnalysisResult)
    ensures r.totalWords == |r.words| == |MapWordsToIntervals(words, praat.intervals.GetOr([]))|
    ensures r.goodCount + r.needsImprovementCount + r.poorCount <= r.totalWords
    ensures r.totalWords - (r.goodCount + r.needsImprovementCount + r.poorCount) == CountQuality(r.words, NoData)
    ensures forall i :: 0 <= i < |r.words| ==> Assessed(r.words[i])
    ensures r.averagePitch == 0.0 <==> ValidCount(r.words) == 0
    ensures ValidCount(r.words) == 0 ==> r.averageHnr == 0.0
    ensures r.words == AssessAll(MapWordsToIntervals(words, praat.intervals.GetOr([])),
                                 praat.overallPitchMean.GetOr(200.0), praat.overallHnrMean.GetOr(15.0))
    ensures r.goodCount == CountQuality(r.words, GoodWord)
         && r.needsImprovementCount == CountQuality(r.words, NeedsImprovement)
         && r.poorCount == CountQuality(r.words, PoorWord)
    ensures ValidCount(r.words) > 0 ==>
      r.averagePitch == PitchSum(r.words) / ValidCount(r.words) as real
      && r.averageHnr == HnrSum(r.words) / ValidCount(r.words) as real
  {
    var ws := MapWordsToIntervals(words, praat.intervals.GetOr([]));
    var overallPitch := praat.overallPitchMean.GetOr(200.0);
    var overallHnr := praat.overallHnrMean.GetOr(15.0);
    var judged := AssessAll(ws, overallPitch, overallHnr);
    CountsPartition(judged);
    var valid := ValidCount(judged);
    var pitch, hnr := PitchSum(judged), HnrSum(judged);
    var avgPitch, avgHnr := MeanOf(pitch, valid), MeanOf(hnr, valid);
    WordAnalysisResult(
      judged, |judged|,
      CountQuality(judged, GoodWord), CountQuality(judged, NeedsImprovement), CountQuality(judged, PoorWord),
      avgPitch, avgHnr)
  }

  /** Without intervals nothing is mapped, so every count and average is 0. */
  lemma NoIntervalsNoWords(words: seq<WordIn>, overallPitch: Option<real>, overallHnr: Option<real>)
    ensures AnalyzeWords(words, PraatWordData(None, overallPitch, overallHnr))
         == WordAnalysisResult([], 0, 0, 0, 0, 0.0, 0.0)
  {
  }
}
