/** The MiniMax PCM streaming provider: the same event-stream loop, voice
    defaults and voice table as the MP3 variant, but the service is asked for
    raw 16-bit mono PCM at 24 kHz, so the duration is exact rather than
    estimated from a bit rate. */
module MiniMaxPcmStreaming {
  import opened Wrappers
  import opened Base
  import CostCalculator
  import MiniMaxStreaming

  const Config := ProviderConfig(
    "MiniMax PCM", 60.0,
    ["en", "zh", "ja", "ko", "es", "fr", "de", "pt", "it", "ru", "ar", "multilingual"],
    "Calm_Woman", "female-shaonv", 200000, true)

  /** The configured price is the one the cost table lists for this provider,
      and the voice defaults are those of the MP3 variant. */
  lemma ConfigMatchesTable()
    ensures Config.pricingPer1mChars == CostCalculator.PriceOf(Config.name)
    ensures Config.defaultVoiceEn == MiniMaxStreaming.Config.defaultVoiceEn
    ensures Config.defaultVoiceCn == MiniMaxStreaming.Config.defaultVoiceCn
  {
  }

  const SampleRate: int := 24000

  /** `len / (sample_rate * 2)` for non-empty audio, else 0: two bytes per
      sample. */
  function Duration(audio: Bytes): real {
    if audio != [] then |audio| as real / (SampleRate * 2) as real else 0.0
  }

  /** The duration is the number of 16-bit samples over the sample rate, so
      the duration of a stream is the sum of the durations of its parts, and
      a second of audio is 48000 bytes. */
  lemma DurationSpec(a: Bytes, b: Bytes)
    ensures Duration(a) * SampleRate as real == (|a| as real) / 2.0
    ensures Duration(a + b) == Duration(a) + Duration(b)
    ensures |a| == 2 * SampleRate ==> Duration(a) == 1.0
  {
  }

  /** `generate`. The request either raises (`response` is its error) or
      answers with `response`'s lines; the clock reads `start` on entry,
      `clock(k)` when line `k` is read and `end` on exit. */
  method Generate(text: string, voice: Option<string>, language: string,
                  response: Result<seq<string>, string>, parse: string -> MiniMaxStreaming.Record,
                  start: real, clock: nat -> real, end: real) returns (r: Result<TtsResult, string>)
    ensures r.Err? <==> response.Err?
    ensures r.Ok? ==>
      var ttfb := MiniMaxStreaming.TtfbOf(response.value, parse, clock, start);
      && r.value.audioData == Join(MiniMaxStreaming.Collected(response.value, parse))
      && r.value.sampleRate == SampleRate
      && r.value.durationSeconds * SampleRate as real == |r.value.audioData| as real / 2.0
      && r.value.ttfbMs == ttfb
      && r.value.latencyMs == ReportedLatency(ttfb, 1000.0 * (end - start))
      && r.value.characters == |text|
      && r.value.provider == "MiniMax PCM"
      && r.value.voice == MiniMaxStreaming.ChooseVoice(Config, voice, language)
      && r.value.language == language
  {
    var chosen := MiniMaxStreaming.ChooseVoice(Config, voice, language);
    if response.Err? {
      return Err(response.error);
    }
    var audio, ttfb, total := MiniMaxStreaming.TimedDecode(response.value, parse, start, clock, end);
    var duration := Duration(audio);
    DurationSpec(audio, []);
    r := Ok(TtsResult(audio, SampleRate, duration, ReportedLatency(ttfb, total), ttfb,
                      |text|, Config.name, chosen, language));
  }

  /** `VOICES` of this provider, in its dictionaries' order. */
  const Voices: seq<(string, seq<(string, string)>)> := [
    ("en", [("female", "Calm_Woman"), ("male", "presenter_male")]),
    ("zh", [("female", "female-shaonv"), ("male", "male-qn-qingse")])
  ]

  /** `list_voices`: the voices of every language whose code starts with
      `language`, or of every language when none is given. */
  method ListVoices(language: Option<string>) returns (voices: seq<MiniMaxStreaming.VoiceInfo>)
    ensures voices == MiniMaxStreaming.VoicesFor(Voices, language)
  {
    voices := MiniMaxStreaming.ListVoicesIn(Voices, language);
  }

  /** Both MiniMax variants offer the same voices under every filter, and the
      voice `generate` falls back to is one of them. */
  lemma SameVoicesAsMp3Variant(language: Option<string>, forLanguage: string)
    ensures MiniMaxStreaming.VoicesFor(Voices, language) == MiniMaxStreaming.VoicesFor(MiniMaxStreaming.Voices, language)
    ensures exists v :: (v in MiniMaxStreaming.VoicesFor(Voices, None)
                         && v.id == MiniMaxStreaming.ChooseVoice(Config, None, forLanguage))
  {
    MiniMaxStreaming.DefaultVoiceIsListed(forLanguage);
  }

  /** For the same bytes, the MP3 variant's bit-rate estimate is three times
      the PCM duration (16000 against 48000 bytes per second). */
  lemma Mp3EstimateIsThreePcmDurations(audio: Bytes)
    ensures MiniMaxStreaming.Duration(audio) == 3.0 * Duration(audio)
  {
    MiniMaxStreaming.DurationSpec(audio, []);
  }
}
