/** The provider interface shared by every text-to-speech adapter: the result
    of one synthesis call with its derived rates, the provider configuration,
    the default-voice and cost rules, the fallback streaming call, and the
    timing state that measures total time and time to first byte. */
module Base {
  import opened Wrappers
  import opened Text

  type Byte = bv8
  type Bytes = seq<Byte>

  /** `TTSResult`: one synthesised utterance and how long it took. */
  datatype TtsResult = TtsResult(
    audioData: Bytes,
    sampleRate: int,
    durationSeconds: real,
    latencyMs: real,
    ttfbMs: Option<real>,
    characters: int,
    provider: string,
    voice: string,
    language: string)
  {
    /** Seconds of audio per second of generation; 0 for a non-positive latency. */
    function RealtimeFactor(): (f: real)
      ensures latencyMs <= 0.0 ==> f == 0.0
      ensures latencyMs > 0.0 ==> f * (latencyMs / 1000.0) == durationSeconds
    {
      if latencyMs <= 0.0 then 0.0 else durationSeconds / (latencyMs / 1000.0)
    }

    /** Characters per second of generation; 0 for a non-positive latency. */
    function CharsPerSecond(): (c: real)
      ensures latencyMs <= 0.0 ==> c == 0.0
      ensures latencyMs > 0.0 ==> c * (latencyMs / 1000.0) == characters as real
    {
      if latencyMs <= 0.0 then 0.0 else characters as real / (latencyMs / 1000.0)
    }
  }

  /** Audio produced faster than it plays back has a realtime factor above 1. */
  lemma FasterThanRealtime(r: TtsResult)
    requires r.latencyMs > 0.0
    ensures r.RealtimeFactor() > 1.0 <==> r.durationSeconds > r.latencyMs / 1000.0
  {
    var secs := r.latencyMs / 1000.0;
    var f := r.RealtimeFactor();
    assert f * secs == r.durationSeconds;
    if f > 1.0 {
      assert (f - 1.0) * secs > 0.0;
    }
    if r.durationSeconds > secs {
      assert (f - 1.0) * secs > 0.0;
    }
  }

  /** One call of an adapter's `generate`: its result, or the error it raised. */
  type CallOutcome = Result<TtsResult, string>

  /** `ProviderConfig`. */
  datatype ProviderConfig = ProviderConfig(
    name: string,
    pricingPer1mChars: real,
    supportedLanguages: seq<string>,
    defaultVoiceEn: string,
    defaultVoiceCn: string,
    maxCharsPerRequest: int,
    supportsStreaming: bool)

  /** `get_default_voice`: the Chinese default for any language code that
      starts with "zh", the English default for every other code. */
  function DefaultVoice(config: ProviderConfig, language: string): (v: string)
    ensures StartsWith(language, "zh") ==> v == config.defaultVoiceCn
    ensures !StartsWith(language, "zh") ==> v == config.defaultVoiceEn
  {
    if StartsWith(language, "zh") then config.defaultVoiceCn else config.defaultVoiceEn
  }

  /** The default voice depends only on the first two characters of the code. */
  lemma DefaultVoiceByPrefix(config: ProviderConfig, a: string, b: string)
    requires |a| >= 2 && |b| >= 2 && a[..2] == b[..2]
    ensures DefaultVoice(config, a) == DefaultVoice(config, b)
  {
  }

  /** `TTSProvider.calculate_cost`: the configured price per million characters,
      prorated. */
  function ProviderCost(config: ProviderConfig, characters: int): real {
    (characters as real / 1000000.0) * config.pricingPer1mChars
  }

  /** Cost is linear in the number of characters. */
  lemma ProviderCostAdditive(config: ProviderConfig, a: int, b: int)
    ensures ProviderCost(config, a + b) == ProviderCost(config, a) + ProviderCost(config, b)
    ensures ProviderCost(config, 0) == 0.0
  {
  }

  /** The fallback `generate_stream`: whatever one `generate` call produced, as a
      single chunk; the error of that call if it raised. */
  function DefaultGenerateStream(generated: CallOutcome): (chunks: Result<seq<Bytes>, string>)
    ensures generated.Err? <==> chunks.Err?
    ensures chunks.Ok? ==> |chunks.value| == 1 && chunks.value[0] == generated.value.audioData
  {
    match generated
    case Ok(r) => Ok([r.audioData])
    case Err(e) => Err(e)
  }

  /** `b"".join(chunks)`: the chunks' bytes in order. */
  function Join(chunks: seq<Bytes>): (b: Bytes)
    ensures chunks == [] ==> b == []
    decreases |chunks|
  {
    if chunks == [] then [] else Join(chunks[..|chunks| - 1]) + chunks[|chunks| - 1]
  }

  /** Joining two runs of chunks joins their joins. */
  lemma {:induction false} JoinAppend(a: seq<Bytes>, b: seq<Bytes>)
    ensures Join(a + b) == Join(a) + Join(b)
    decreases |b|
  {
    if b == [] {
      assert a + b == a;
    } else {
      var b' := b[..|b| - 1];
      assert (a + b)[..|a + b| - 1] == a + b';
      JoinAppend(a, b');
    }
  }

  /** The joined length is the sum of the chunk lengths, so no byte is lost. */
  lemma {:induction false} JoinLength(chunks: seq<Bytes>, n: nat)
    requires forall i :: 0 <= i < |chunks| ==> |chunks[i]| == n
    ensures |Join(chunks)| == |chunks| * n
    decreases |chunks|
  {
    if chunks != [] {
      var init := chunks[..|chunks| - 1];
      assert forall i :: 0 <= i < |init| ==> init[i] == chunks[i];
      JoinLength(init, n);
      assert Join(chunks) == Join(init) + chunks[|chunks| - 1];
    }
  }

  /** `timing.ttfb_ms or timing.total_ms`: Python's `or` falls back to the total
      when the time to first byte is missing or exactly zero. */
  function ReportedLatency(ttfbMs: Option<real>, totalMs: real): (ms: real)
    ensures ttfbMs.Some? && ttfbMs.value != 0.0 ==> ms == ttfbMs.value
    ensures ttfbMs.None? || ttfbMs.value == 0.0 ==> ms == totalMs
  {
    if ttfbMs.Some? && ttfbMs.value != 0.0 then ttfbMs.value else totalMs
  }

  /** `TimingContext`: the clock readings of one measured call. The clock
      itself is outside the model, so every reading is passed in. */
  class TimingContext {
    var startTime: real
    var firstByteTime: Option<real>
    var endTime: real

    constructor ()
      ensures startTime == 0.0 && firstByteTime == None && endTime == 0.0
    {
      startTime := 0.0;
      firstByteTime := None;
      endTime := 0.0;
    }

    /** `__enter__` at clock reading `now`. */
    method Enter(now: real)
      modifies this
      ensures startTime == now
      ensures firstByteTime == old(firstByteTime) && endTime == old(endTime)
    {
      startTime := now;
    }

    /** `__exit__` at clock reading `now`. */
    method Exit(now: real)
      modifies this
      ensures endTime == now
      ensures startTime == old(startTime) && firstByteTime == old(firstByteTime)
    {
      endTime := now;
    }

    /** `mark_first_byte` at clock reading `now`: only the first call records. */
    method MarkFirstByte(now: real)
      modifies this
      ensures old(firstByteTime).None? ==> firstByteTime == Some(now)
      ensures old(firstByteTime).Some? ==> firstByteTime == old(firstByteTime)
      ensures startTime == old(startTime) && endTime == old(endTime)
    {
      if firstByteTime.None? {
        firstByteTime := Some(now);
      }
    }

    /** `total_ms`: milliseconds from entry to exit. */
    function TotalMs(): (ms: real)
      reads this
      ensures ms == 1000.0 * (endTime - startTime)
      ensures endTime >= startTime ==> ms >= 0.0
    {
      (endTime - startTime) * 1000.0
    }

    /** `ttfb_ms`: milliseconds from entry to the first byte, absent until one
        was marked. */
    function TtfbMs(): (ms: Option<real>)
      reads this
      ensures ms.None? <==> firstByteTime.None?
      ensures ms.Some? ==> ms.value == 1000.0 * (firstByteTime.value - startTime)
    {
      if firstByteTime.None? then None else Some((firstByteTime.value - startTime) * 1000.0)
    }
  }
}
