/** The MiniMax streaming provider. The response is a stream of Server-Sent
    Events lines; each `data:` line carries a JSON record whose audio field is
    hex-encoded. The loop over those lines collects the audio chunks and marks
    the first byte, and the result reports the time to first byte as its
    latency. The HTTP request is outside the model: the response lines (or the
    error the request raised) and the JSON parser are parameters. */
module MiniMaxStreaming {
  import opened Wrappers
  import opened Text
  import opened Base
  import CostCalculator

  /** `bytes.fromhex`'s value of one hexadecimal digit, either case. */
  function HexValue(c: char): (v: Option<nat>)
    ensures v.Some? ==> v.value < 16
  {
    if '0' <= c <= '9' then Some(c as nat - '0' as nat)
    else if 'a' <= c <= 'f' then Some(c as nat - 'a' as nat + 10)
    else if 'A' <= c <= 'F' then Some(c as nat - 'A' as nat + 10)
    else None
  }

  /** `bytes.fromhex(s)`: two digits per byte; ASCII whitespace is skipped
      between pairs (never inside one); any other character, or a lone digit
      at the end, fails. */
  function HexDecode(s: string): (b: Option<Bytes>)
    ensures b.Some? ==> 2 * |b.value| <= |s|
    decreases |s|
  {
    if s == [] then Some([])
    else if IsAsciiSpace(s[0]) then HexDecode(s[1..])
    else if |s| < 2 || HexValue(s[0]).None? || HexValue(s[1]).None? then None
    else
      var rest := HexDecode(s[2..]);
      if rest.None? then None
      else Some([(16 * HexValue(s[0]).value + HexValue(s[1]).value) as Byte] + rest.value)
  }

  /** The lower-case digit of a value below 16. */
  function HexChar(n: nat): (c: char)
    requires n < 16
    ensures HexValue(c) == Some(n)
  {
    if n < 10 then ('0' as nat + n) as char else ('a' as nat + n - 10) as char
  }

  /** `bytes.hex()`: two lower-case digits per byte, as the service encodes
      its audio. */
  function HexEncode(b: Bytes): (s: string)
    ensures |s| == 2 * |b|
  {
    if b == [] then []
    else [HexChar(b[0] as nat / 16), HexChar(b[0] as nat % 16)] + HexEncode(b[1..])
  }

  /** A byte is its two hex digits put back together. */
  lemma ByteDigits(x: Byte, hi: nat, lo: nat)
    requires hi == x as nat / 16 && lo == x as nat % 16
    ensures hi < 16 && lo < 16
    ensures (16 * hi + lo) as Byte == x
  {
    var n := x as nat;
    assert 16 * hi + lo == n;
  }

  /** Two digits decode to one byte, ahead of whatever follows. */
  lemma HexDecodePair(hi: nat, lo: nat, rest: string)
    requires hi < 16 && lo < 16
    ensures HexDecode([HexChar(hi), HexChar(lo)] + rest)
         == if HexDecode(rest).None? then None else Some([(16 * hi + lo) as Byte] + HexDecode(rest).value)
  {
    var s := [HexChar(hi), HexChar(lo)] + rest;
    assert s[2..] == rest;
    assert !IsAsciiSpace(s[0]) by {
      assert HexValue(s[0]).Some?;
    }
  }

  /** The two digits `bytes.hex()` writes for a byte decode to that byte. */
  lemma HexDecodeByte(x: Byte, rest: string)
    ensures HexDecode([HexChar(x as nat / 16), HexChar(x as nat % 16)] + rest)
         == if HexDecode(rest).None? then None else Some([x] + HexDecode(rest).value)
  {
    var hi, lo := x as nat / 16, x as nat % 16;
    ByteDigits(x, hi, lo);
    HexDecodePair(hi, lo, rest);
  }

  /** Decoding undoes encoding. */
  lemma {:induction false} HexRoundTrip(b: Bytes)
    ensures HexDecode(HexEncode(b)) == Some(b)
  {
    if b != [] {
      HexRoundTrip(b[1..]);
      HexDecodeByte(b[0], HexEncode(b[1..]));
      assert [b[0]] + b[1..] == b;
    }
  }

  /** Leading ASCII whitespace never changes what a payload decodes to. */
  lemma {:induction false} HexDecodeSkipsSpace(w: string, s: string)
    requires forall i :: 0 <= i < |w| ==> IsAsciiSpace(w[i])
    ensures HexDecode(w + s) == HexDecode(s)
    decreases |w|
  {
    if w != [] {
      assert (w + s)[0] == w[0];
      assert IsAsciiSpace((w + s)[0]);
      assert (w + s)[1..] == w[1..] + s;
      assert forall i :: 0 <= i < |w[1..]| ==> w[1..][i] == w[i + 1];
      HexDecodeSkipsSpace(w[1..], s);
    } else {
      assert w + s == s;
    }
  }

  /** A payload whose first non-blank character is not a hex digit fails. */
  lemma HexDecodeRejects(s: string)
    requires s != [] && !IsAsciiSpace(s[0]) && HexValue(s[0]).None?
    ensures HexDecode(s) == None
  {
  }

  /** What `json.loads` makes of one data payload, as far as the loop looks at
      it: a decoding error, a record without a `data` object holding an
      `audio` field, or such a record with its optional `status` and its
      audio string. */
  datatype Record =
    | Malformed
    | NoAudio
    | AudioRecord(status: Option<int>, audio: string)

  /** What one response line does to the collected audio: nothing, only
      marking the first byte (the hex then failed), or adding a chunk. */
  datatype LineEffect = Ignored | MarkOnly | AudioChunk(bytes: Bytes)

  /** The payload of a line the loop parses: `line[5:].strip()` of a `data:`
      line, unless it is empty or `[DONE]`. Blank lines, `event:` lines and
      every other line have none. */
  function DataPayload(line: string): (p: Option<string>)
    ensures line == "" || StartsWith(line, "event:") || !StartsWith(line, "data:") ==> p.None?
    ensures p.Some? ==> p.value != "" && p.value != "[DONE]"
  {
    if line == "" || StartsWith(line, "event:") || !StartsWith(line, "data:") then None
    else
      var payload := Strip(line[5..]);
      if payload == "" || payload == "[DONE]" then None else Some(payload)
  }

  /** What a parsed record does: a record with non-empty audio that is not
      the final (`status == 2`) record marks the first byte, and adds its
      bytes when they decode. A missing status counts as 1. */
  function RecordEffect(record: Record): (e: LineEffect)
    ensures e != Ignored <==> record.AudioRecord? && record.status != Some(2) && record.audio != ""
    ensures e.AudioChunk? <==> e != Ignored && HexDecode(record.audio).Some?
    ensures e.AudioChunk? ==> Some(e.bytes) == HexDecode(record.audio)
  {
    match record
    case AudioRecord(status, audio) =>
      if status.GetOr(1) == 2 || audio == "" then Ignored
      else (match HexDecode(audio)
        case None => MarkOnly
        case Some(b) => AudioChunk(b))
    case _ => Ignored
  }

  /** The body of the response loop for one line, as a value. */
  function Classify(line: string, parse: string -> Record): LineEffect {
    match DataPayload(line)
    case None => Ignored
    case Some(payload) => RecordEffect(parse(payload))
  }

  /** The effect of each line of a response, in order. */
  function Effects(lines: seq<string>, parse: string -> Record): (es: seq<LineEffect>)
    ensures |es| == |lines|
    decreases |lines|
  {
    if lines == [] then [] else Effects(lines[..|lines| - 1], parse) + [Classify(lines[|lines| - 1], parse)]
  }

  /** Effect `i` is the effect of line `i`. */
  lemma {:induction false} EffectsAt(lines: seq<string>, parse: string -> Record, i: nat)
    requires i < |lines|
    ensures Effects(lines, parse)[i] == Classify(lines[i], parse)
    decreases |lines|
  {
    if i < |lines| - 1 {
      EffectsAt(lines[..|lines| - 1], parse, i);
    }
  }

  /** The chunks a run of effects adds, in order. */
  function AudioOf(es: seq<LineEffect>): (chunks: seq<Bytes>)
    ensures |chunks| <= |es|
    decreases |es|
  {
    if es == [] then []
    else
      var init := AudioOf(es[..|es| - 1]);
      match es[|es| - 1]
      case AudioChunk(b) => init + [b]
      case _ => init
  }

  /** The index of the first effect that marks the first byte. */
  function FirstMarkOf(es: seq<LineEffect>): (k: Option<nat>)
    ensures k.Some? ==> k.value < |es|
    decreases |es|
  {
    if es == [] then None
    else
      var f := FirstMarkOf(es[..|es| - 1]);
      if f.Some? then f
      else if es[|es| - 1] != Ignored then Some(|es| - 1)
      else None
  }

  /** The first mark is the first effect that is not ignored, and there is
      none exactly when every effect is ignored. */
  lemma {:induction false} FirstMarkOfSpec(es: seq<LineEffect>)
    ensures var k := FirstMarkOf(es);
      && (k.Some? ==> es[k.value] != Ignored && forall j :: 0 <= j < k.value ==> es[j] == Ignored)
      && (k.None? ==> forall j :: 0 <= j < |es| ==> es[j] == Ignored)
    decreases |es|
  {
    if es != [] {
      var init := es[..|es| - 1];
      FirstMarkOfSpec(init);
      assert forall j :: 0 <= j < |init| ==> init[j] == es[j];
    }
  }

  /** The clock reading at the first mark, when effect `k` happens at
      `clock(k)`. */
  function MarkTimeOf(es: seq<LineEffect>, clock: nat -> real): Option<real> {
    match FirstMarkOf(es)
    case Some(k) => Some(clock(k))
    case None => None
  }

  /** The chunks the loop collects from `lines`, in order. */
  function Collected(lines: seq<string>, parse: string -> Record): seq<Bytes> {
    AudioOf(Effects(lines, parse))
  }

  /** The time to first byte of a response whose line `k` is read at
      `clock(k)`, for a call started at `start`. */
  function TtfbOf(lines: seq<string>, parse: string -> Record, clock: nat -> real, start: real): Option<real> {
    SinceStart(MarkTimeOf(Effects(lines, parse), clock), start)
  }

  /** Milliseconds from `start` to a clock reading, if there is one. */
  function SinceStart(mark: Option<real>, start: real): Option<real> {
    match mark
    case Some(t) => Some(1000.0 * (t - start))
    case None => None
  }

  /** What `TimingContext.ttfb_ms` reports is the time from the start to the
      first mark. */
  lemma ReportedTtfb(timing: TimingContext)
    ensures timing.TtfbMs() == SinceStart(timing.firstByteTime, timing.startTime)
  {
  }

  /** The loop body for one line read at clock reading `now`: a line with
      non-empty audio marks the first byte (if none was marked) before its
      hex is decoded, and adds the decoded chunk when decoding succeeds. */
  method DecodeLine(line: string, parse: string -> Record, timing: TimingContext, now: real)
    returns (chunk: seq<Bytes>)
    modifies timing
    ensures chunk == AudioOf([Classify(line, parse)])
    ensures timing.startTime == old(timing.startTime) && timing.endTime == old(timing.endTime)
    ensures old(timing.firstByteTime).None? && Classify(line, parse) != Ignored ==>
      timing.firstByteTime == Some(now)
    ensures old(timing.firstByteTime).Some? || Classify(line, parse) == Ignored ==>
      timing.firstByteTime == old(timing.firstByteTime)
  {
    assert [Classify(line, parse)][..0] == [];
    chunk := [];
    if line == "" || StartsWith(line, "event:") || !StartsWith(line, "data:") {
      return;
    }
    var payload := Strip(line[5..]);
    if payload == "" || payload == "[DONE]" {
      return;
    }
    var record := parse(payload);
    if !record.AudioRecord? || record.status.GetOr(1) == 2 || record.audio == "" {
      return;
    }
    if timing.firstByteTime.None? {
      timing.MarkFirstByte(now);
    }
    var decoded := HexDecode(record.audio);
    if decoded.Some? {
      chunk := [decoded.value];
    }
  }

  /** One step of the loop keeps the collected audio and the first-byte
      time in line with the effects read so far. */
  lemma MarkStep(es: seq<LineEffect>, e: LineEffect, clock: nat -> real, before: Option<real>, after: Option<real>)
    requires before.None? && e != Ignored ==> after == Some(clock(|es|))
    requires before.Some? || e == Ignored ==> after == before
    ensures AudioOf(es + [e]) == AudioOf(es) + AudioOf([e])
    ensures before == MarkTimeOf(es, clock) ==> after == MarkTimeOf(es + [e], clock)
  {
    EffectSnoc(es, e);
  }

  /** The response loop. Line `k` is read at clock reading `clock(k)`; the
      first non-empty audio field marks the first byte before it is decoded,
      and a payload that does not parse or decode drops only its own line. */
  method DecodeEventStream(lines: seq<string>, parse: string -> Record, timing: TimingContext, clock: nat -> real)
    returns (audioChunks: seq<Bytes>)
    modifies timing
    ensures audioChunks == Collected(lines, parse)
    ensures timing.startTime == old(timing.startTime) && timing.endTime == old(timing.endTime)
    ensures old(timing.firstByteTime).None? ==> timing.firstByteTime == MarkTimeOf(Effects(lines, parse), clock)
    ensures old(timing.firstByteTime).Some? ==> timing.firstByteTime == old(timing.firstByteTime)
  {
    audioChunks := [];
    for k := 0 to |lines|
      invariant audioChunks == AudioOf(Effects(lines[..k], parse))
      invariant timing.startTime == old(timing.startTime) && timing.endTime == old(timing.endTime)
      invariant old(timing.firstByteTime).None? ==> timing.firstByteTime == MarkTimeOf(Effects(lines[..k], parse), clock)
      invariant old(timing.firstByteTime).Some? ==> timing.firstByteTime == old(timing.firstByteTime)
    {
      assert lines[..k + 1][..k] == lines[..k];
      ghost var es := Effects(lines[..k], parse);
      assert Effects(lines[..k + 1], parse) == es + [Classify(lines[k], parse)];
      ghost var before := timing.firstByteTime;
      var chunk := DecodeLine(lines[k], parse, timing, clock(k));
      audioChunks := audioChunks + chunk;
      MarkStep(es, Classify(lines[k], parse), clock, before, timing.firstByteTime);
    }
    assert lines[..|lines|] == lines;
  }

  /** The chunks of two runs of effects are the chunks of the first run
      followed by the chunks of the second. */
  lemma {:induction false} AudioOfAppend(a: seq<LineEffect>, b: seq<LineEffect>)
    ensures AudioOf(a + b) == AudioOf(a) + AudioOf(b)
    decreases |b|
  {
    if b == [] {
      assert a + b == a;
    } else {
      var b' := b[..|b| - 1];
      assert (a + b)[..|a + b| - 1] == a + b';
      assert (a + b)[|a + b| - 1] == b[|b| - 1];
      AudioOfAppend(a, b');
    }
  }

  /** The effects of two runs of lines are the effects of each run. */
  lemma {:induction false} EffectsAppend(a: seq<string>, b: seq<string>, parse: string -> Record)
    ensures Effects(a + b, parse) == Effects(a, parse) + Effects(b, parse)
    decreases |b|
  {
    if b == [] {
      assert a + b == a;
    } else {
      var b' := b[..|b| - 1];
      assert (a + b)[..|a + b| - 1] == a + b';
      assert (a + b)[|a + b| - 1] == b[|b| - 1];
      EffectsAppend(a, b', parse);
    }
  }

  /** The collected audio of two runs of lines is the audio of the first run
      followed by the audio of the second. */
  lemma CollectedAppend(a: seq<string>, b: seq<string>, parse: string -> Record)
    ensures Collected(a + b, parse) == Collected(a, parse) + Collected(b, parse)
  {
    EffectsAppend(a, b, parse);
    AudioOfAppend(Effects(a, parse), Effects(b, parse));
  }

  /** A line that the loop skips (a blank line, an event line, `[DONE]`, a
      record without audio, the final `status == 2` record repeating the whole
      audio, an empty audio field) may appear anywhere without changing the
      audio. */
  lemma SkippedLineAddsNothing(a: seq<string>, line: string, b: seq<string>, parse: string -> Record)
    requires Classify(line, parse) == Ignored
    ensures Collected(a + [line] + b, parse) == Collected(a + b, parse)
  {
    CollectedAppend(a + [line], b, parse);
    CollectedAppend(a, [line], parse);
    CollectedAppend(a, b, parse);
    assert Effects([line], parse) == [Ignored];
    assert AudioOf([Ignored]) == AudioOf([Ignored][..0]);
  }

  /** A line that carries data: its payload is the stripped text after
      `data:`. */
  lemma DataLinePayload(payload: string)
    requires payload == Strip(payload) && payload != "" && payload != "[DONE]"
    ensures DataPayload("data:" + payload) == Some(payload)
  {
    assert StartsWith("data:" + payload, "data:");
    assert ("data:" + payload)[0] == 'd';
    assert ("data:" + payload)[5..] == payload;
  }

  /** The final record of a stream (status 2) is skipped even though it holds
      audio. */
  lemma FinalRecordSkipped(payload: string, audio: string, parse: string -> Record)
    requires payload == Strip(payload) && payload != "" && payload != "[DONE]"
    requires parse(payload) == AudioRecord(Some(2), audio)
    ensures Classify("data:" + payload, parse) == Ignored
  {
    DataLinePayload(payload);
  }

  /** Appending one effect: it adds its chunk, and it is the first mark when
      nothing marked before. */
  lemma EffectSnoc(es: seq<LineEffect>, e: LineEffect)
    ensures AudioOf(es + [e]) == AudioOf(es) + AudioOf([e])
    ensures AudioOf([e]) == (if e.AudioChunk? then [e.bytes] else [])
    ensures FirstMarkOf(es).None? && e != Ignored ==> FirstMarkOf(es + [e]) == Some(|es|)
    ensures FirstMarkOf(es).Some? || e == Ignored ==> FirstMarkOf(es + [e]) == FirstMarkOf(es)
  {
    var s := es + [e];
    assert s[..|s| - 1] == es && s[|s| - 1] == e;
    assert AudioOf([e]) == (if e.AudioChunk? then [e.bytes] else []) by {
      assert [e][..0] == [];
    }
  }

  /** A data line carrying the hex encoding of non-empty `bytes` adds exactly
      those bytes, and marks the first byte if nothing did before. */
  lemma AudioLineAddsItsBytes(a: seq<string>, payload: string, status: Option<int>, bytes: Bytes,
                              parse: string -> Record)
    requires payload == Strip(payload) && payload != "" && payload != "[DONE]"
    requires status != Some(2) && bytes != []
    requires parse(payload) == AudioRecord(status, HexEncode(bytes))
    ensures Collected(a + ["data:" + payload], parse) == Collected(a, parse) + [bytes]
    ensures FirstMarkOf(Effects(a, parse)).None? ==>
      FirstMarkOf(Effects(a + ["data:" + payload], parse)) == Some(|a|)
  {
    var line := "data:" + payload;
    DataLinePayload(payload);
    HexRoundTrip(bytes);
    assert Classify(line, parse) == AudioChunk(bytes);
    EffectsAppend(a, [line], parse);
    assert Effects([line], parse) == [AudioChunk(bytes)];
    EffectSnoc(Effects(a, parse), AudioChunk(bytes));
  }

  /** A data line whose audio is not valid hex adds nothing, but still marks
      the first byte if nothing did before. */
  lemma BadHexMarksButAddsNothing(a: seq<string>, payload: string, status: Option<int>, audio: string,
                                  parse: string -> Record)
    requires payload == Strip(payload) && payload != "" && payload != "[DONE]"
    requires status != Some(2) && audio != "" && HexDecode(audio) == None
    requires parse(payload) == AudioRecord(status, audio)
    ensures Collected(a + ["data:" + payload], parse) == Collected(a, parse)
    ensures FirstMarkOf(Effects(a, parse)).None? ==>
      FirstMarkOf(Effects(a + ["data:" + payload], parse)) == Some(|a|)
  {
    var line := "data:" + payload;
    DataLinePayload(payload);
    assert Classify(line, parse) == MarkOnly;
    EffectsAppend(a, [line], parse);
    assert Effects([line], parse) == [MarkOnly];
    EffectSnoc(Effects(a, parse), MarkOnly);
  }

  /** The timed part of `generate` once the request has answered: the
      context is entered at `start`, the lines are decoded (line `k` read at
      `clock(k)`) and the context is left at `end`. */
  method TimedDecode(lines: seq<string>, parse: string -> Record, start: real, clock: nat -> real, end: real)
    returns (audio: Bytes, ttfbMs: Option<real>, totalMs: real)
    ensures audio == Join(Collected(lines, parse))
    ensures ttfbMs == TtfbOf(lines, parse, clock, start)
    ensures totalMs == 1000.0 * (end - start)
  {
    var timing := new TimingContext();
    timing.Enter(start);
    var chunks := DecodeEventStream(lines, parse, timing, clock);
    ReportedTtfb(timing);
    ttfbMs := timing.TtfbMs();
    timing.Exit(end);
    totalMs := timing.TotalMs();
    audio := Join(chunks);
  }

  const Config := ProviderConfig(
    "MiniMax Streaming", 60.0,
    ["en", "zh", "ja", "ko", "es", "fr", "de", "pt", "it", "ru", "ar", "multilingual"],
    "Calm_Woman", "female-shaonv", 200000, true)

  /** The configured price is the one the cost table lists for this provider. */
  lemma ConfigPriceMatchesTable()
    ensures Config.pricingPer1mChars == CostCalculator.PriceOf(Config.name)
  {
  }

  /** `voice or default`: a missing or empty voice falls back to
      "female-shaonv" for mixed-language text and to the provider's default
      for the language otherwise. */
  function ChooseVoice(config: ProviderConfig, voice: Option<string>, language: string): string {
    if voice.Some? && voice.value != "" then voice.value
    else if language == "multilingual" then "female-shaonv"
    else DefaultVoice(config, language)
  }

  /** A voice the caller names is always used; naming the empty voice is the
      same as naming none; without one, mixed-language and Chinese text get
      the Chinese default and every other language the English one. */
  lemma ChooseVoiceSpec(voice: Option<string>, language: string)
    ensures voice.Some? && voice.value != "" ==> ChooseVoice(Config, voice, language) == voice.value
    ensures ChooseVoice(Config, Some(""), language) == ChooseVoice(Config, None, language)
    ensures language == "multilingual" || StartsWith(language, "zh") ==>
      ChooseVoice(Config, None, language) == Config.defaultVoiceCn
    ensures language != "multilingual" && !StartsWith(language, "zh") ==>
      ChooseVoice(Config, None, language) == Config.defaultVoiceEn
  {
  }

  /** `VOICES`, in its dictionaries' order: language, then gender to voice id. */
  const Voices: seq<(string, seq<(string, string)>)> := [
    ("en", [("female", "Calm_Woman"), ("male", "presenter_male")]),
    ("zh", [("female", "female-shaonv"), ("male", "male-qn-qingse")])
  ]

  /** One entry of `list_voices`. */
  datatype VoiceInfo = VoiceInfo(id: string, name: string, language: string, gender: string)

  /** The entry for the voice `id` of `gender` in `lang`, labelled like
      "EN Female". */
  function VoiceEntry(lang: string, gender: string, id: string): VoiceInfo {
    VoiceInfo(id, Upper(lang) + " " + Title(gender), lang, gender)
  }

  /** The entries of one language, in gender order. */
  function LanguageVoices(lang: string, voices: seq<(string, string)>): (vs: seq<VoiceInfo>)
    ensures |vs| == |voices|
    ensures forall i :: 0 <= i < |voices| ==> vs[i] == VoiceEntry(lang, voices[i].0, voices[i].1)
  {
    seq(|voices|, i requires 0 <= i < |voices| => VoiceEntry(lang, voices[i].0, voices[i].1))
  }

  /** Whether `list_voices(language)` keeps the voices of `lang`. */
  predicate Selected(lang: string, language: Option<string>) {
    language.None? || StartsWith(lang, language.value)
  }

  /** The entries `list_voices` lists for a table, in table order. */
  function VoicesFor(table: seq<(string, seq<(string, string)>)>, language: Option<string>): seq<VoiceInfo>
    decreases |table|
  {
    if table == [] then []
    else
      var last := table[|table| - 1];
      VoicesFor(table[..|table| - 1], language)
      + (if Selected(last.0, language) then LanguageVoices(last.0, last.1) else [])
  }

  /** The nested loop of `list_voices` over a voice table: the languages in
      table order, and within a kept language its voices in gender order. */
  method ListVoicesIn(table: seq<(string, seq<(string, string)>)>, language: Option<string>)
    returns (voices: seq<VoiceInfo>)
    ensures voices == VoicesFor(table, language)
  {
    voices := [];
    for i := 0 to |table|
      invariant voices == VoicesFor(table[..i], language)
    {
      assert table[..i + 1][..i] == table[..i];
      var (lang, langVoices) := table[i];
      if language.None? || StartsWith(lang, language.value) {
        ghost var before := voices;
        for j := 0 to |langVoices|
          invariant voices == before + LanguageVoices(lang, langVoices[..j])
        {
          var (gender, id) := langVoices[j];
          voices := voices + [VoiceInfo(id, Upper(lang) + " " + Title(gender), lang, gender)];
        }
        assert langVoices[..|langVoices|] == langVoices;
      }
    }
    assert table[..|table|] == table;
  }

  /** `list_voices`: the voices of every language whose code starts with
      `language`, or of every language when none is given. */
  method ListVoices(language: Option<string>) returns (voices: seq<VoiceInfo>)
    ensures voices == VoicesFor(Voices, language)
  {
    voices := ListVoicesIn(Voices, language);
  }

  /** The voice `j` of language `i` is in the table and its language is kept. */
  predicate ListedAt(table: seq<(string, seq<(string, string)>)>, language: Option<string>, i: int, j: int) {
    0 <= i < |table| && 0 <= j < |table[i].1| && Selected(table[i].0, language)
  }

  /** Every listed voice belongs to a language of the table that the filter
      keeps. */
  lemma {:induction false} ListedVoicesAreSelected(table: seq<(string, seq<(string, string)>)>, language: Option<string>)
    ensures forall v :: v in VoicesFor(table, language) ==>
      exists i, j :: ListedAt(table, language, i, j) && v == VoiceEntry(table[i].0, table[i].1[j].0, table[i].1[j].1)
    decreases |table|
  {
    if table != [] {
      var init := table[..|table| - 1];
      var last := table[|table| - 1];
      ListedVoicesAreSelected(init, language);
      forall v | v in VoicesFor(table, language)
        ensures exists i, j :: ListedAt(table, language, i, j) && v == VoiceEntry(table[i].0, table[i].1[j].0, table[i].1[j].1)
      {
        if v in VoicesFor(init, language) {
          var i, j :| ListedAt(init, language, i, j) && v == VoiceEntry(init[i].0, init[i].1[j].0, init[i].1[j].1);
          assert table[i] == init[i];
          assert ListedAt(table, language, i, j);
        } else {
          var j :| 0 <= j < |last.1| && LanguageVoices(last.0, last.1)[j] == v;
          assert ListedAt(table, language, |table| - 1, j);
        }
      }
    }
  }

  /** Every voice of a language the filter keeps is listed. */
  lemma {:induction false} SelectedVoicesAreListed(table: seq<(string, seq<(string, string)>)>, language: Option<string>)
    ensures forall i, j :: ListedAt(table, language, i, j) ==>
      VoiceEntry(table[i].0, table[i].1[j].0, table[i].1[j].1) in VoicesFor(table, language)
    decreases |table|
  {
    if table != [] {
      var init := table[..|table| - 1];
      var last := table[|table| - 1];
      SelectedVoicesAreListed(init, language);
      forall i, j | ListedAt(table, language, i, j)
        ensures VoiceEntry(table[i].0, table[i].1[j].0, table[i].1[j].1) in VoicesFor(table, language)
      {
        if i < |init| {
          assert table[i] == init[i];
          assert ListedAt(init, language, i, j);
        } else {
          assert LanguageVoices(last.0, last.1)[j] in LanguageVoices(last.0, last.1);
        }
      }
    }
  }

  /** An empty filter is a prefix of every code, so it lists everything. */
  lemma {:induction false} EmptyFilterListsAll(table: seq<(string, seq<(string, string)>)>)
    ensures VoicesFor(table, Some("")) == VoicesFor(table, None)
    decreases |table|
  {
    if table != [] {
      EmptyFilterListsAll(table[..|table| - 1]);
      assert StartsWith(table[|table| - 1].0, "");
    }
  }

  /** The voice `generate` falls back to is one that `list_voices` offers. */
  lemma DefaultVoiceIsListed(language: string)
    ensures exists v :: v in VoicesFor(Voices, None) && v.id == ChooseVoice(Config, None, language)
  {
    SelectedVoicesAreListed(Voices, None);
    var i := if language == "multilingual" || StartsWith(language, "zh") then 1 else 0;
    assert Voices[i].1[0].1 == ChooseVoice(Config, None, language);
    assert ListedAt(Voices, None, i, 0);
  }

  const SampleRate: int := 32000

  /** The MP3 duration estimate at 128 kbit/s: `len * 8 / 128000`, or 0 for no
      audio. */
  function Duration(audio: Bytes): real {
    if audio != [] then (|audio| * 8) as real / 128000.0 else 0.0
  }

  /** Every 16000 bytes are one second, so the duration of a stream is the sum
      of the durations of its parts. */
  lemma DurationSpec(a: Bytes, b: Bytes)
    ensures Duration(a) == |a| as real / 16000.0
    ensures Duration(a + b) == Duration(a) + Duration(b)
  {
  }

  /** `generate`. The request either raises (`response` is its error) or
      answers with `response`'s lines; the clock reads `start` on entry,
      `clock(k)` when line `k` is read and `end` on exit. */
  method Generate(text: string, voice: Option<string>, language: string,
                  response: Result<seq<string>, string>, parse: string -> Record,
                  start: real, clock: nat -> real, end: real) returns (r: Result<TtsResult, string>)
    ensures r.Err? <==> response.Err?
    ensures r.Ok? ==>
      var ttfb := TtfbOf(response.value, parse, clock, start);
      && r.value.audioData == Join(Collected(response.value, parse))
      && r.value.sampleRate == SampleRate
      && r.value.durationSeconds == |r.value.audioData| as real / 16000.0
      && r.value.ttfbMs == ttfb
      && r.value.latencyMs == ReportedLatency(ttfb, 1000.0 * (end - start))
      && r.value.characters == |text|
      && r.value.provider == "MiniMax Streaming"
      && r.value.voice == ChooseVoice(Config, voice, language)
      && r.value.language == language
  {
    var chosen := ChooseVoice(Config, voice, language);
    if response.Err? {
      return Err(response.error);
    }
    var audio, ttfb, total := TimedDecode(response.value, parse, start, clock, end);
    var duration := Duration(audio);
    DurationSpec(audio, []);
    r := Ok(TtsResult(audio, SampleRate, duration, ReportedLatency(ttfb, total), ttfb,
                      |text|, Config.name, chosen, language));
  }
}
