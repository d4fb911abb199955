/** The speech-to-text fan-out: three transcribers run side by side and
    their texts come back in a fixed order (Whisper, FunASR, Gemini). Each
    transcriber turns a failure of its call into a bracketed error marker,
    so once every call has started the fan-out has three texts. FunASR can
    also return per-character timestamps, zipped from its raw output. */
module SpeechToText {
  import opened Wrappers
  import PraatRepository

  /** What a cloud transcriber (Whisper or Gemini) came back with. */
  datatype CallOutcome = Transcribed(text: string) | CallError(message: string)

  /** One timed character, times in seconds. */
  datatype TimedChar = TimedChar(ch: string, start: real, end: real)

  /** One entry of FunASR's `sentence_info[...]["words"]`; `None` is a missing key. */
  datatype SentenceWord = SentenceWord(word: Option<string>, startMs: Option<real>, endMs: Option<real>)

  /** The first element of FunASR's `generate` output. `timestamps` is the
      `timestamp` key (pairs of milliseconds), `sentences` the
      `sentence_info` key, each sentence being its optional `words` list. */
  datatype RawAsr = RawAsr(
    text: Option<string>,
    timestamps: Option<seq<(real, real)>>,
    sentences: Option<seq<Option<seq<SentenceWord>>>>)

  /** How a FunASR run ended. */
  datatype AsrOutcome =
    | ModelNotLoaded            // the model singleton failed to load
    | NoOutput                  // `generate` returned an empty list
    | Output(raw: RawAsr)
    | AsrCrashed(message: string)

  /** What FunASR hands back: its text and, on request, the timed characters. */
  datatype AsrResult = AsrResult(text: string, words: seq<TimedChar>)

  /** The fan-out's result: exactly three texts, and FunASR's timed characters. */
  datatype MultiSttResult = MultiSttResult(texts: seq<string>, funasrWords: seq<TimedChar>)

  /** `str.replace(" ", "")`. */
  function RemoveSpaces(s: string): (r: string)
    ensures |r| <= |s| && ' ' !in r
    ensures forall c :: c in r <==> c in s && c != ' '
  {
    if s == [] then []
    else (if s[0] == ' ' then [] else [s[0]]) + RemoveSpaces(s[1..])
  }

  /** `transcribe_with_whisper`: the text, or the Whisper error marker. */
  function Whisper(outcome: CallOutcome): string {
    match outcome
    case Transcribed(t) => t
    case CallError(e) => "[Whisper Error: " + e + "]"
  }

  /** `transcribe_with_gemini_stt`: the stripped text, or the Gemini error marker. */
  function Gemini(outcome: CallOutcome): string {
    match outcome
    case Transcribed(t) => PraatRepository.Strip(t)
    case CallError(e) => "[Gemini STT Error: " + e + "]"
  }

  /** Character `i` of the text paired with timestamp `i`, milliseconds
      turned into seconds, for as many pairs as both sides have. */
  function ZipTimestamps(chars: string, stamps: seq<(real, real)>): (words: seq<TimedChar>)
    ensures |words| == if |stamps| < |chars| then |stamps| else |chars|
    ensures forall i :: 0 <= i < |words| ==>
      words[i] == TimedChar([chars[i]], stamps[i].0 / 1000.0, stamps[i].1 / 1000.0)
  {
    if stamps == [] || chars == [] then []
    else [TimedChar([chars[0]], stamps[0].0 / 1000.0, stamps[0].1 / 1000.0)] + ZipTimestamps(chars[1..], stamps[1..])
  }

  function SentenceWordToChar(w: SentenceWord): TimedChar {
    TimedChar(w.word.GetOr(""), w.startMs.GetOr(0.0) / 1000.0, w.endMs.GetOr(0.0) / 1000.0)
  }

  /** The number of words over all sentences (a missing `words` key counts none). */
  function WordCount(sentences: seq<Option<seq<SentenceWord>>>): nat {
    if sentences == [] then 0 else |sentences[0].GetOr([])| + WordCount(sentences[1..])
  }

  /** The `sentence_info` fallback: every word of every sentence, in order. */
  function FlattenSentences(sentences: seq<Option<seq<SentenceWord>>>): (words: seq<TimedChar>)
    ensures |words| == WordCount(sentences)
  {
    if sentences == [] then []
    else
      var ws := sentences[0].GetOr([]);
      seq(|ws|, i requires 0 <= i < |ws| => SentenceWordToChar(ws[i])) + FlattenSentences(sentences[1..])
  }

  /** Sentences read one after another: flattening a concatenation is the
      concatenation of the flattenings. */
  lemma {:induction false} FlattenAppend(a: seq<Option<seq<SentenceWord>>>, b: seq<Option<seq<SentenceWord>>>)
    ensures FlattenSentences(a + b) == FlattenSentences(a) + FlattenSentences(b)
  {
    if a == [] {
      assert a + b == b;
    } else {
      assert (a + b)[1..] == a[1..] + b;
      FlattenAppend(a[1..], b);
    }
  }

  /** The word of sentence `s`, position `j`, lands at the offset of all
      earlier sentences' words plus `j`. */
  lemma {:induction false} FlattenPlacesWord(sentences: seq<Option<seq<SentenceWord>>>, s: nat, j: nat)
    requires s < |sentences| && j < |sentences[s].GetOr([])|
    ensures WordCount(sentences[..s]) + j < |FlattenSentences(sentences)|
    ensures FlattenSentences(sentences)[WordCount(sentences[..s]) + j] == SentenceWordToChar(sentences[s].GetOr([])[j])
  {
    if s == 0 {
      assert sentences[..0] == [];
    } else {
      assert sentences[1..][..s - 1] == sentences[..s][1..];
      FlattenPlacesWord(sentences[1..], s - 1, j);
    }
  }

  /** The timed characters of a raw output: zipped timestamps when the
      `timestamp` key is present, else the sentence words, else none. */
  function TimedChars(text: string, raw: RawAsr): (words: seq<TimedChar>)
    ensures raw.timestamps.Some? ==> |words| == var chars := RemoveSpaces(text);
      if |raw.timestamps.value| < |chars| then |raw.timestamps.value| else |chars|
    ensures raw.timestamps.None? && raw.sentences.Some? ==> |words| == WordCount(raw.sentences.value)
    ensures raw.timestamps.None? && raw.sentences.None? ==> words == []
  {
    match raw.timestamps
    case Some(stamps) => ZipTimestamps(RemoveSpaces(text), stamps)
    case None =>
      match raw.sentences
      case Some(sentences) => FlattenSentences(sentences)
      case None => []
  }

  /** `transcribe_with_funasr`: the space-free text and, when asked for, the
      timed characters; failures become the FunASR error marker with no words. */
  function FunAsr(outcome: AsrOutcome, includeTimestamps: bool): (r: AsrResult)
    ensures ' ' !in r.text || outcome.ModelNotLoaded? || outcome.AsrCrashed?
    ensures !includeTimestamps || !outcome.Output? ==> r.words == []
    ensures outcome.Output? && includeTimestamps ==>
      r.words == TimedChars(r.text, outcome.raw) && r.text == RemoveSpaces(outcome.raw.text.GetOr(""))
  {
    match outcome
    case ModelNotLoaded => AsrResult("[FunASR Error: Model not loaded]", [])
    case NoOutput => AsrResult("", [])
    case AsrCrashed(e) => AsrResult("[FunASR Error: " + e + "]", [])
    case Output(raw) =>
      var text := RemoveSpaces(raw.text.GetOr(""));
      AsrResult(text, if includeTimestamps then TimedChars(text, raw) else [])
  }

  /** `transcribe_with_funasr_timestamps`: the same parsing, always with
      timestamps, but every failure is an empty result rather than a marker. */
  function FunAsrTimestamps(outcome: AsrOutcome): (r: AsrResult)
    ensures outcome.Output? ==> r == FunAsr(outcome, true)
    ensures !outcome.Output? ==> r == AsrResult("", [])
  {
    match outcome
    case Output(raw) => FunAsr(outcome, true)
    case _ => AsrResult("", [])
  }

  /** `get_multi_model_stt`: the three texts in the order Whisper, FunASR,
      Gemini, and FunASR's timed characters. */
  function MultiModelStt(whisper: CallOutcome, funasr: AsrOutcome, gemini: CallOutcome, includeTimestamps: bool): (r: MultiSttResult)
    ensures |r.texts| == 3
    ensures r.texts[0] == Whisper(whisper)
    ensures r.texts[1] == FunAsr(funasr, includeTimestamps).text
    ensures r.texts[2] == Gemini(gemini)
    ensures r.funasrWords == FunAsr(funasr, includeTimestamps).words
  {
    var asr := FunAsr(funasr, includeTimestamps);
    MultiSttResult([Whisper(whisper), asr.text, Gemini(gemini)], asr.words)
  }

  /** Each slot depends on its own transcriber only: a failure of one never
      changes the other two texts. */
  lemma SlotsIndependent(w1: CallOutcome, w2: CallOutcome, f1: AsrOutcome, f2: AsrOutcome,
                         g1: CallOutcome, g2: CallOutcome, ts: bool)
    ensures MultiModelStt(w1, f1, g1, ts).texts[0] == MultiModelStt(w1, f2, g2, ts).texts[0]
    ensures MultiModelStt(w1, f1, g1, ts).texts[1] == MultiModelStt(w2, f1, g2, ts).texts[1]
    ensures MultiModelStt(w1, f1, g1, ts).texts[2] == MultiModelStt(w2, f2, g1, ts).texts[2]
  {
  }

  /** A text without spaces is left as it is. */
  lemma {:induction false} NoSpacesUnchanged(s: string)
    requires ' ' !in s
    ensures RemoveSpaces(s) == s
  {
    if s != [] {
      assert s[0] != ' ' && ' ' !in s[1..];
      NoSpacesUnchanged(s[1..]);
      assert [s[0]] + s[1..] == s;
    }
  }

  /** Removing spaces twice removes nothing more: FunASR's second
      `replace` on the already space-free text leaves it as it is. */
  lemma RemoveSpacesIdempotent(s: string)
    ensures RemoveSpaces(RemoveSpaces(s)) == RemoveSpaces(s)
  {
    NoSpacesUnchanged(RemoveSpaces(s));
  }

  /** Removing spaces keeps the other characters in their order: the text
      of a concatenation loses its spaces piece by piece. */
  lemma {:induction false} RemoveSpacesAppend(a: string, b: string)
    ensures RemoveSpaces(a + b) == RemoveSpaces(a) + RemoveSpaces(b)
  {
    if a == [] {
      assert a + b == b;
    } else {
      var head := if a[0] == ' ' then [] else [a[0]];
      assert (a + b)[0] == a[0] && (a + b)[1..] == a[1..] + b;
      assert RemoveSpaces(a + b) == head + RemoveSpaces(a[1..] + b);
      RemoveSpacesAppend(a[1..], b);
      assert RemoveSpaces(a) == head + RemoveSpaces(a[1..]);
    }
  }

  /** With timestamps for every character, the timed characters spell out
      the whole transcript, one character each, in order. */
  lemma TimestampsCoverText(outcome: AsrOutcome)
    requires outcome.Output? && outcome.raw.timestamps.Some?
    requires |outcome.raw.timestamps.value| >= |RemoveSpaces(outcome.raw.text.GetOr(""))|
    ensures var r := FunAsr(outcome, true);
      |r.words| == |r.text| && forall i :: 0 <= i < |r.words| ==> r.words[i].ch == [r.text[i]]
  {
    RemoveSpacesIdempotent(outcome.raw.text.GetOr(""));
  }

  /** A failing transcriber still fills its slot, with its own marker. */
  lemma FailuresFillTheirSlot(e1: string, e2: string, e3: string, ts: bool)
    ensures MultiModelStt(CallError(e1), AsrCrashed(e2), CallError(e3), ts)
         == MultiSttResult(["[Whisper Error: " + e1 + "]", "[FunASR Error: " + e2 + "]", "[Gemini STT Error: " + e3 + "]"], [])
  {
  }
}
