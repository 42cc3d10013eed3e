# Text-to-speech benchmark harness, modelled in Dafny

The repository measures text-to-speech vendors. It calls each vendor's
`generate` repeatedly on a set of text samples and summarises the latencies,
including time to first byte for streaming vendors. It prices each request
from a static table. It merges each run's per-provider results into the
previously saved results, and it renders a comparison dashboard. This
project models the decision logic of that harness and proves what it
promises:

- `benchmark_runner.py` (modules `BenchmarkModel` and `BenchmarkRunner`):
  - the latency sampler, with its warm-up runs, tolerated failures,
    statistics and last successful result;
  - the orchestrator, with its language filter, skip-if-complete test,
    per-sample failure tolerance and aggregates;
  - the merge of the run's providers into the loaded snapshot.

  `BenchmarkRunner` is imperative: `ProviderBenchmark` and `BenchmarkRunner`
  are classes whose methods change their fields. Each method is proved
  against specification functions in `BenchmarkModel`, and lemmas state the
  properties of those functions.
- `cost_calculator.py` (module `CostCalculator`): the price and note tables,
  linear cost, volume projections and the Markdown table.
- `base.py` (module `Base`):
  - the derived rates of a synthesis result and their divide-by-zero guards;
  - the default-voice rule and the provider's own cost;
  - the fallback streaming call;
  - `TimingContext`, a class whose clock readings are passed in.
- `luxtts_streaming.py` (module `LuxTtsStreaming`): the split of the text at
  sentence or phrase ends, the merge of fragments into chunks of at least 40
  characters, the language guard, and the timed collection of the stream.
- `minimax_streaming.py` and `minimax_pcm_streaming.py` (modules
  `MiniMaxStreaming` and `MiniMaxPcmStreaming`):
  - the loop over Server-Sent Events lines (the event-stream format of the
    WHATWG HTML Living Standard, section 9.2, read in the simplified way the
    code reads it), with hex decoding of the audio and marking of the first
    byte;
  - the duration formulas, voice defaulting and `list_voices`.
- `dashboard.py` (module `Dashboard`): the traffic-light ratings, the rows of
  the comparison table, the grouping of results by sample and provider, the
  mode labels, the audio sections and the cost-table filter.

Helper modules: `Wrappers` (Option and Result), `Text` (the Python string
operations used: prefix and substring tests, `strip`, `" ".join` and ASCII
case mapping) and `Stats` (`statistics.mean` and `median`, `min`, `max` and
`sorted`, over exact reals).

Dictionaries whose iteration order matters (the providers, the dashboard's
groupings and the voice tables) are sequences of key/value pairs. The saved
snapshot's provider map and the price tables are Dafny maps, with the price
table's key order kept as a separate list. A provider is an oracle:
`generate(text, language, i)` gives the outcome (`Ok` result or `Err`) of the
`i`-th call made while one sample is benchmarked. The audio files on disk are
a set of paths. The `generate` calls made are recorded in a list so that the
number of calls and the skipping of providers can be stated.

## Model

| member | source | states |
|---|---|---|
| `Base.TtsResult.RealtimeFactor` | src/providers/base.py:23-28 | 0 when latency is not positive; otherwise the factor times the latency in seconds is the audio duration |
| `Base.TtsResult.CharsPerSecond` | src/providers/base.py:30-35 | 0 when latency is not positive; otherwise the rate times the latency in seconds is the character count |
| `Base.FasterThanRealtime` | src/providers/base.py:23-28 | the realtime factor exceeds 1 exactly when the audio lasts longer than its generation took |
| `Base.DefaultVoice` | src/providers/base.py:108-112 | the Chinese default exactly for codes starting with "zh", the English default otherwise |
| `Base.DefaultVoiceByPrefix` | src/providers/base.py:108-112 | codes that share their first two characters get the same default voice |
| `Base.ProviderCostAdditive` | src/providers/base.py:114-116 | a provider's own cost is additive in the character count and 0 for no characters |
| `Base.DefaultGenerateStream` | src/providers/base.py:88-101 | the fallback stream fails exactly when `generate` raised, and otherwise is one chunk equal to the generated audio |
| `Base.ReportedLatency` | src/providers/minimax_streaming.py:160 | `ttfb or total`: the time to first byte when it is present and non-zero, the total otherwise |
| `Base.TimingContext.constructor` | src/providers/base.py:152-155 | start and end are 0 and no first byte is marked |
| `Base.TimingContext.Enter` | src/providers/base.py:157-159 | records the start reading and changes nothing else |
| `Base.TimingContext.Exit` | src/providers/base.py:161-162 | records the end reading and changes nothing else |
| `Base.TimingContext.MarkFirstByte` | src/providers/base.py:164-167 | the first call records the reading and later calls leave it unchanged |
| `Base.TimingContext.TotalMs` | src/providers/base.py:169-172 | milliseconds from entry to exit, non-negative when the clock did not go back |
| `Base.TimingContext.TtfbMs` | src/providers/base.py:174-179 | absent exactly when no first byte was marked, otherwise milliseconds from entry to the first byte |
| `CostCalculator.TablesWellFormed` | src/evaluation/cost_calculator.py:22-46 | the key order lists each price entry once, the notes have the same keys, and every price is non-negative |
| `CostCalculator.PriceOf` | src/evaluation/cost_calculator.py:51 | an unknown provider prices at 0, and no price is negative |
| `CostCalculator.NoteOf` | src/evaluation/cost_calculator.py:65 | an unknown provider gets the empty note |
| `CostCalculator.CostLinear` | src/evaluation/cost_calculator.py:49-52 | cost is additive in the characters, 0 for none, and doubles when the text doubles |
| `CostCalculator.UnknownProviderIsFree` | src/evaluation/cost_calculator.py:49-65 | a provider outside the table costs 0 and has the empty note |
| `CostCalculator.CostMonotone` | src/evaluation/cost_calculator.py:49-52 | more characters never cost less |
| `CostCalculator.ProviderCostAgrees` | src/providers/base.py:114-116 | a provider configured with the table's price computes the same cost as the estimator |
| `CostCalculator.GetProjection` | src/evaluation/cost_calculator.py:55-66 | the projections are the linear cost at 1 thousand, 100 thousand, 500 thousand and 1 million characters, ordered `0 <= 100k <= 500k <= 1m`, with the provider's note |
| `CostCalculator.GetAllProjections` | src/evaluation/cost_calculator.py:68-74 | exactly the price-table keys, each mapped to its own projection |
| `CostCalculator.FormatComparisonTable` | src/evaluation/cost_calculator.py:76-93 | two header lines, then exactly one row per price entry in table order |
| `Stats.P95Index` | src/evaluation/benchmark_runner.py:206 | the 95th-percentile index of n values is below n |
| `BenchmarkModel.ComputeStatsSpec` | src/evaluation/benchmark_runner.py:200-209 | min and max are those of the latencies; mean, median and p95 lie between them; p95 is the sorted list at index `95n/100` when n > 1 and the single value when n = 1; the standard deviation is 0 for n = 1; the mean time to first byte is absent exactly when none was collected |
| `BenchmarkModel.MeasuredSlotsBound` | src/evaluation/benchmark_runner.py:181-189 | of the `iterations + warmup_runs` calls, at most `iterations` are measured |
| `BenchmarkModel.Outcomes` | src/evaluation/benchmark_runner.py:182-184 | there is one outcome per call, and outcome `i` is that of the `i`-th `generate` call |
| `BenchmarkModel.MeasuredLatencies` | src/evaluation/benchmark_runner.py:186-191 | no more latencies than measured slots, and some latency only if a call at or after the warm-up succeeded |
| `BenchmarkModel.MeasuredTtfbs` | src/evaluation/benchmark_runner.py:190-191 | no more times to first byte than latencies |
| `BenchmarkModel.MeasuredLatenciesSpec` | src/evaluation/benchmark_runner.py:180-191 | a failed call is tolerated. The k-th latency is the latency of the k-th measured call that succeeded, taken in call order (`MeasuredOkIndices` is increasing and holds exactly those calls). So the list has one entry per such call; it is non-empty exactly when some call at or after the warm-up succeeded; every such call's latency is in it; and every latency in it comes from such a call |
| `BenchmarkModel.MeasuredTtfbsSpec` | src/evaluation/benchmark_runner.py:186-191 | the k-th time to first byte is the one reported by the k-th measured success that reported one, in call order (`MeasuredTtfbIndices` is increasing and holds exactly those calls). So it is empty exactly when no measured success reported one, every reported one is kept, and every kept one was reported by a measured success |
| `BenchmarkModel.LastSuccessSpec` | src/evaluation/benchmark_runner.py:185 | absent exactly when every call failed; otherwise the result of a successful call after which every call failed |
| `BenchmarkModel.AudioDirName` | src/evaluation/benchmark_runner.py:212 | the audio directory name has no spaces and no hyphens |
| `BenchmarkModel.SampleOutcomeSpec` | src/evaluation/benchmark_runner.py:160-238 | raises `UnsupportedLanguage` exactly for a code starting with "zh" when the provider lists neither that code nor "zh"; otherwise succeeds exactly when some call at or after the warm-up succeeded (failed calls are tolerated), with `iterations` equal to the number of such successful calls and `0 < iterations <= self.iterations`, and with the sample's identity, audio path and cost |
| `BenchmarkModel.SampleCalls` | src/evaluation/benchmark_runner.py:171-184 | no call when the language guard raises, otherwise exactly `iterations + warmup_runs` calls |
| `BenchmarkModel.EffectiveLanguages` | src/evaluation/benchmark_runner.py:247 | the language list is never empty |
| `BenchmarkModel.FilterByLanguage` | src/evaluation/benchmark_runner.py:248 | keeps exactly the samples whose language is requested |
| `BenchmarkModel.ResultsComeFromSupportedSamples` | src/evaluation/benchmark_runner.py:269-286 | every result a provider keeps is the successful benchmark of a sample whose language it supports |
| `BenchmarkModel.SucceededSampleIsKept` | src/evaluation/benchmark_runner.py:269-286 | every supported sample whose benchmark succeeds leaves its result, so one failing sample does not stop the others |
| `BenchmarkModel.SkippedProvidersAreNotCalled` | src/evaluation/benchmark_runner.py:253-260 | every `generate` call of a run is made on a provider that was not skipped |
| `BenchmarkModel.CompleteMonotone` | src/evaluation/benchmark_runner.py:121-149 | writing more audio files never makes complete results incomplete |
| `BenchmarkModel.MissingAudioForcesRerun` | src/evaluation/benchmark_runner.py:143-147 | removing one required audio file makes the provider's results incomplete |
| `BenchmarkModel.Merge` | src/evaluation/benchmark_runner.py:304-324 | the merged providers are the loaded ones and the run's; a provider of the run replaces its old entry, and any other loaded provider is carried unchanged |
| `BenchmarkModel.MergeIdempotent` | src/evaluation/benchmark_runner.py:312-324 | saving the same run twice gives the same providers |
| `BenchmarkModel.TotalCostIsCostOfAllCharacters` | src/evaluation/benchmark_runner.py:80 | the summed cost of a provider's results is the cost of all their characters at once |
| `BenchmarkModel.Distinct` | src/evaluation/benchmark_runner.py:84 | `list(set(...))`: the same languages, each once |
| `BenchmarkModel.SucceededSampleHasResult` | src/evaluation/benchmark_runner.py:128-140 | a supported sample that succeeds leaves a result under its id |
| `BenchmarkModel.SucceededSampleHasAudio` | src/evaluation/benchmark_runner.py:211-217 | a supported sample that succeeds leaves its audio file at the path the completeness test looks for |
| `BenchmarkModel.CompletedRunIsSkippedNextTime` | src/evaluation/benchmark_runner.py:121-149 | once a provider's run succeeded on every supported sample and was saved, its results are complete |
| `BenchmarkRunner.ProviderBenchmark.constructor` | src/evaluation/benchmark_runner.py:62-70 | no results and every aggregate at its default |
| `BenchmarkRunner.ProviderBenchmark.ComputeAggregates` | src/evaluation/benchmark_runner.py:72-84 | with no results nothing changes; otherwise the mean of the per-sample mean latencies, the summed cost, the mean realtime factor and the distinct languages |
| `BenchmarkRunner.ProviderBenchmark.Entry` | src/evaluation/benchmark_runner.py:318-324 | the saved entry carries the provider's results |
| `BenchmarkRunner.Entries` | src/evaluation/benchmark_runner.py:317-324 | one saved entry per provider of the run, under its key |
| `BenchmarkRunner.BenchmarkRunner.constructor` | src/evaluation/benchmark_runner.py:90-107 | the loaded snapshot's providers, or none when nothing could be loaded; no results and no calls yet |
| `BenchmarkRunner.BenchmarkRunner.ProviderHasCompleteResults` | src/evaluation/benchmark_runner.py:121-149 | the early-exit loop answers exactly `HasCompleteResults`: a saved entry exists, and every requested and supported sample has a saved result and an audio file |
| `BenchmarkRunner.BenchmarkRunner.MeasureCalls` | src/evaluation/benchmark_runner.py:176-195 | the loop makes `iterations + warmup_runs` calls, failed ones included, and collects the measured latencies, the times to first byte and the last success |
| `BenchmarkRunner.BenchmarkRunner.BenchmarkSample` | src/evaluation/benchmark_runner.py:160-238 | returns the specified sample outcome, makes exactly its calls and writes exactly its audio file |
| `BenchmarkRunner.BenchmarkRunner.ProcessSample` | src/evaluation/benchmark_runner.py:269-286 | appends the sample's result only when the provider supports the sample and its benchmark succeeded, and adds exactly that sample's calls and audio file; the aggregates are untouched |
| `BenchmarkRunner.BenchmarkRunner.RunProvider` | src/evaluation/benchmark_runner.py:267-289 | a fresh record holding the results of the filtered, supported, successful samples in input order, with its aggregates computed |
| `BenchmarkRunner.BenchmarkRunner.VisitProvider` | src/evaluation/benchmark_runner.py:253-289 | the provider is skipped exactly when skipping is on and its results are complete; a skipped provider makes no call and adds no entry |
| `BenchmarkRunner.BenchmarkRunner.RunBenchmark` | src/evaluation/benchmark_runner.py:240-297 | every provider is either run or skipped; skipped ones were complete; each run provider has one fresh entry under its key holding its results; other entries are unchanged; the calls and files are exactly those of the run providers |
| `BenchmarkRunner.BenchmarkRunner.SaveResults` | src/evaluation/benchmark_runner.py:299-324 | the snapshot holds the run's iteration count and the loaded providers overwritten key by key by this run's |
| `LuxTtsStreaming.Delimiters` | src/providers/luxtts_streaming.py:70-76 | every mode splits at least at sentence ends |
| `LuxTtsStreaming.SplitPartsSpec` | src/providers/luxtts_streaming.py:70-76 | `re.split` on whitespace after a delimiter: the parts with the dropped whitespace runs put back are the text; every part but the last ends with a delimiter; no later part starts with whitespace, so each run is dropped whole; no part still holds a delimiter followed by whitespace |
| `LuxTtsStreaming.ChunkFoldInvariant` | src/providers/luxtts_streaming.py:79-97 | the merge loop emits only chunks of at least 40 characters, keeps a stripped buffer, and its chunks and buffer joined with spaces are the non-blank parts joined with spaces |
| `LuxTtsStreaming.ChunkFinishSpec` | src/providers/luxtts_streaming.py:99-104 | the remainder step keeps the joined text, and only a lone remainder can be shorter than 40 characters |
| `LuxTtsStreaming.ChunksNonEmpty` | src/providers/luxtts_streaming.py:106 | the chunk list is never empty |
| `LuxTtsStreaming.ChunksOfBlankParts` | src/providers/luxtts_streaming.py:106 | without a non-blank part the result is `[text]` |
| `LuxTtsStreaming.ChunkSizes` | src/providers/luxtts_streaming.py:89-104 | a chunk shorter than 40 characters is the only chunk |
| `LuxTtsStreaming.ChunksPreserveText` | src/providers/luxtts_streaming.py:79-104 | the chunks joined with single spaces equal the non-blank stripped parts joined with single spaces |
| `LuxTtsStreaming.ChunksCarryText` | src/providers/luxtts_streaming.py:70-106 | for a non-blank text, the stripped text is the split parts with whitespace runs between them, and the chunks joined with single spaces are the same parts with one space in place of each run |
| `LuxTtsStreaming.SplitIntoChunks` | src/providers/luxtts_streaming.py:59-106 | splitting the stripped text at the mode's delimiters and merging the parts computes `Chunks(text, mode)` |
| `LuxTtsStreaming.MergeParts` | src/providers/luxtts_streaming.py:78-106 | the merge loop, which overwrites the last chunk in place, computes `ChunksOf(parts, text)`, the fold of `ChunkStep` over the parts finished by `ChunkFinish` |
| `LuxTtsStreaming.SplitSentences` | src/providers/luxtts_streaming.py:108-110 | sentence-mode chunking, where only a sole chunk may be short |
| `LuxTtsStreaming.SynthAll` | src/providers/luxtts_streaming.py:133-151 | one audio block per chunk, in chunk order |
| `LuxTtsStreaming.GenerateStream` | src/providers/luxtts_streaming.py:112-151 | fails exactly for a language other than "en"; otherwise yields the synthesis of each chunk, with sentence mode by default |
| `LuxTtsStreaming.StreamNonEmpty` | src/providers/luxtts_streaming.py:131-151 | a stream that does not fail has at least one block |
| `LuxTtsStreaming.CollectStream` | src/providers/luxtts_streaming.py:167-171 | all blocks are collected in order, and the first arrival marks the first byte unless one was marked |
| `LuxTtsStreaming.TimedCollect` | src/providers/luxtts_streaming.py:164-186 | audio is the joined blocks; duration is `(len // 2) / 48000`; latency is the time to first byte unless that is zero |
| `LuxTtsStreaming.Generate` | src/providers/luxtts_streaming.py:153-186 | fails exactly for a language other than "en", and otherwise yields the timed result of the stream |
| `MiniMaxStreaming.HexRoundTrip` | src/providers/minimax_streaming.py:145 | decoding the hex of any bytes gives those bytes back |
| `MiniMaxStreaming.HexDecodeSkipsSpace` | src/providers/minimax_streaming.py:145 | leading ASCII whitespace does not change what a payload decodes to |
| `MiniMaxStreaming.HexDecodeRejects` | src/providers/minimax_streaming.py:145-148 | a payload whose first non-blank character is not a hex digit fails to decode |
| `MiniMaxStreaming.DataPayload` | src/providers/minimax_streaming.py:112-126 | blank lines, `event:` lines and lines that are not `data:` lines have no payload; a payload is never empty or `[DONE]` |
| `MiniMaxStreaming.RecordEffect` | src/providers/minimax_streaming.py:128-148 | a record acts exactly when it has non-empty audio and its status is not 2 (a missing status counts as 1); it adds a chunk exactly when its hex decodes, and the chunk is the decoded bytes |
| `MiniMaxStreaming.EffectsAt` | src/providers/minimax_streaming.py:112-148 | the effect of line `i` depends only on line `i` |
| `MiniMaxStreaming.FirstMarkOfSpec` | src/providers/minimax_streaming.py:141-143 | the first byte is marked at the first line that acts, and no line before it acts |
| `MiniMaxStreaming.DecodeLine` | src/providers/minimax_streaming.py:112-148 | one line adds its chunk, if any, and marks the first byte before decoding when it acts and none was marked |
| `MiniMaxStreaming.DecodeEventStream` | src/providers/minimax_streaming.py:112-148 | the loop collects exactly the chunks of the accepted lines in order, and records the reading of the first acting line |
| `MiniMaxStreaming.CollectedAppend` | src/providers/minimax_streaming.py:146-150 | the audio of two runs of lines is the first run's audio followed by the second's |
| `MiniMaxStreaming.SkippedLineAddsNothing` | src/providers/minimax_streaming.py:112-140 | a skipped line can be inserted anywhere without changing the audio |
| `MiniMaxStreaming.DataLinePayload` | src/providers/minimax_streaming.py:123-124 | the payload of a `data:` line is the stripped text after the prefix |
| `MiniMaxStreaming.FinalRecordSkipped` | src/providers/minimax_streaming.py:134-138 | a status-2 record is skipped even though it holds audio |
| `MiniMaxStreaming.AudioLineAddsItsBytes` | src/providers/minimax_streaming.py:139-146 | a data line with the hex of some bytes adds exactly those bytes and may be the first mark |
| `MiniMaxStreaming.BadHexMarksButAddsNothing` | src/providers/minimax_streaming.py:141-148 | a data line with bad hex adds nothing but still marks the first byte |
| `MiniMaxStreaming.TimedDecode` | src/providers/minimax_streaming.py:101-150 | audio is the joined collected chunks; the time to first byte and the total are measured from the start reading |
| `MiniMaxStreaming.ConfigPriceMatchesTable` | src/providers/minimax_streaming.py:32-40 | the configured price is the cost table's |
| `MiniMaxStreaming.ChooseVoiceSpec` | src/providers/minimax_streaming.py:68-72 | a named voice is used; an empty name counts as none; otherwise "multilingual" and "zh" codes get "female-shaonv" and other codes the English default |
| `MiniMaxStreaming.LanguageVoices` | src/providers/minimax_streaming.py:174-180 | one entry per voice of the language, in order |
| `MiniMaxStreaming.ListVoicesIn` | src/providers/minimax_streaming.py:168-182 | the nested loop lists exactly `VoicesFor(table, language)` |
| `MiniMaxStreaming.ListVoices` | src/providers/minimax_streaming.py:168-182 | the listing of this provider's voice table |
| `MiniMaxStreaming.ListedVoicesAreSelected` | src/providers/minimax_streaming.py:172-180 | every listed voice belongs to a language the filter keeps |
| `MiniMaxStreaming.SelectedVoicesAreListed` | src/providers/minimax_streaming.py:172-180 | every voice of a kept language is listed |
| `MiniMaxStreaming.EmptyFilterListsAll` | src/providers/minimax_streaming.py:173 | the empty filter lists every language |
| `MiniMaxStreaming.DefaultVoiceIsListed` | src/providers/minimax_streaming.py:68-72 | the fallback voice of `generate` is one that `list_voices` offers |
| `MiniMaxStreaming.DurationSpec` | src/providers/minimax_streaming.py:154 | `len * 8 / 128000` is 16000 bytes per second, and it is additive |
| `MiniMaxStreaming.Generate` | src/providers/minimax_streaming.py:57-166 | fails exactly when the request raised; otherwise the decoded audio, the MP3 duration, the time to first byte, latency `ttfb or total` and the chosen voice |
| `MiniMaxPcmStreaming.ConfigMatchesTable` | src/providers/minimax_pcm_streaming.py:29-41 | the configured price is the cost table's, and the voice defaults are those of the MP3 variant |
| `MiniMaxPcmStreaming.DurationSpec` | src/providers/minimax_pcm_streaming.py:148 | duration times 24000 is the number of 16-bit samples; it is additive; 48000 bytes are one second |
| `MiniMaxPcmStreaming.Generate` | src/providers/minimax_pcm_streaming.py:55-160 | fails exactly when the request raised; otherwise the decoded audio, the PCM duration, the time to first byte, latency `ttfb or total` and the chosen voice |
| `MiniMaxPcmStreaming.ListVoices` | src/providers/minimax_pcm_streaming.py:162-176 | the listing of this provider's voice table |
| `MiniMaxPcmStreaming.SameVoicesAsMp3Variant` | src/providers/minimax_pcm_streaming.py:18-27 | both variants list the same voices under every filter, and the fallback voice is among them |
| `MiniMaxPcmStreaming.Mp3EstimateIsThreePcmDurations` | src/providers/minimax_pcm_streaming.py:148 | for the same bytes the MP3 estimate is three times the PCM duration |
| `Dashboard.RatingMonotone` | src/presentation/dashboard.py:70-84 | with `low <= high`, a better value never gets a worse rating: smaller is better when reversed, larger otherwise |
| `Dashboard.ReverseIsNegation` | src/presentation/dashboard.py:70-84 | the reversed rating is the plain rating of the negated value against the negated, swapped thresholds |
| `Dashboard.LanguageRatingIsRating` | src/presentation/dashboard.py:102-103 | the language rating is the plain rating with thresholds 5 and 20 |
| `Dashboard.DisplayName` | src/presentation/dashboard.py:95 | an unknown key is displayed as itself |
| `Dashboard.LanguageCount` | src/presentation/dashboard.py:102 | an unknown display name counts 0 languages |
| `Dashboard.LanguageCountsCoverKeys` | src/presentation/dashboard.py:31-58 | every known key's display name has a count, and an unknown name is rated red |
| `Dashboard.GenerateComparisonTable` | src/presentation/dashboard.py:86-114 | the loop builds the rows of the present keys, or the "No data available" placeholder |
| `Dashboard.RowsForSpec` | src/presentation/dashboard.py:90-114 | every row is that of a requested key present in the results, every such key has a row, and there are no rows exactly when no requested key is present |
| `Dashboard.RowsInKeyOrder` | src/presentation/dashboard.py:91-112 | when every key is present, row `i` is the row of key `i` |
| `Dashboard.PreviewSpec` | src/presentation/dashboard.py:131 | a text of at most 100 characters is shown whole; a longer one as its first 100 characters and "..." |
| `Dashboard.ResultPairs` | src/presentation/dashboard.py:122-123 | the results of a provider are visited in order under its key |
| `Dashboard.GroupAllSpec` | src/presentation/dashboard.py:121-132 | the grouping keeps, per sample and provider, that provider's last result for the sample, and lists exactly the sample ids that occur |
| `Dashboard.GroupAllDistinct` | src/presentation/dashboard.py:121-132 | no sample id and no provider key within a sample is listed twice |
| `Dashboard.AddResult` | src/presentation/dashboard.py:124-132 | one grouping step: a new sample gets an empty entry, then the provider's entry is set |
| `Dashboard.GroupBySample` | src/presentation/dashboard.py:121-132 | the nested loop builds the specified grouping |
| `Dashboard.AddProviderResults` | src/presentation/dashboard.py:123-132 | the inner loop adds one provider's results to the grouping in their order, extending the grouping of the pairs seen so far |
| `Dashboard.AvailableInSpec` | src/presentation/dashboard.py:147 | a key is available exactly when the group names it and the sample has an entry for it, so none is available exactly when no named key has an entry |
| `Dashboard.CardsOf` | src/presentation/dashboard.py:151-176 | one card per available provider, in order |
| `Dashboard.GroupRowsOf` | src/presentation/dashboard.py:145-185 | the loop over the groups builds the specified group rows |
| `Dashboard.BuildCards` | src/presentation/dashboard.py:150-177 | the card loop yields one card per available provider, in order |
| `Dashboard.GenerateAudioSection` | src/presentation/dashboard.py:116-198 | the loop builds the specified sections, or the "No audio samples available" placeholder |
| `Dashboard.GroupRowsSound` | src/presentation/dashboard.py:146-185 | every group row has a card, and every card is a provider of its group that has an entry for the sample |
| `Dashboard.GroupRowsEmpty` | src/presentation/dashboard.py:146-149 | a sample has no group row exactly when no grouped provider has an entry for it |
| `Dashboard.SectionsSpec` | src/presentation/dashboard.py:141-196 | every section is that of a sample with a group row, and every such sample has its section |
| `Dashboard.UnmarkedKeyIsNonStreaming` | src/presentation/dashboard.py:157-165 | a key in which none of "pcm", "streaming" and "turbo" can begin (the word's first letter occurs at no position where the word would fit) is labelled non-streaming |
| `Dashboard.MarkedKeyIsStreaming` | src/presentation/dashboard.py:157-162 | a key holding "streaming" or "turbo", in which "pcm" cannot begin, is labelled streaming |
| `Dashboard.ListedProviderModes` | src/presentation/dashboard.py:157-165 | the labels of all eleven listed providers: "azure", "elevenlabs", "minimax", "qwen3" and "luxtts" are non-streaming; their "_streaming" and "_turbo" variants are streaming; "minimax_pcm" is PCM streaming |
| `Dashboard.UnmarkedListedKeys` | src/presentation/dashboard.py:157-165 | the five plain listed keys ("azure", "elevenlabs", "minimax", "qwen3", "luxtts") are each labelled non-streaming |
| `Dashboard.CostRowsOf` | src/presentation/dashboard.py:211-223 | one cost row per kept name, in order, from that name's projection |
| `Dashboard.CostRowsLoop` | src/presentation/dashboard.py:211-223 | the loop over the projections builds the rows of the kept names in table order |
| `Dashboard.GenerateCostTable` | src/presentation/dashboard.py:200-225 | the loop over the projections builds the function's cost table for the given provider type |
| `Dashboard.KeptSpec` | src/presentation/dashboard.py:204-214 | no filter keeps every name; a filter that lists every name keeps them all; a non-empty filter that lists none of them keeps none |
| `Dashboard.FiltersPartitionTable` | src/presentation/dashboard.py:204-207 | the commercial names followed by the open-source names are exactly the price table, and the two lists are disjoint |
| `Dashboard.CommercialTable` | src/presentation/dashboard.py:204-205 | the commercial table lists the seven commercial names in table order |
| `Dashboard.OpensourceTable` | src/presentation/dashboard.py:206-207 | the open-source table lists the three open-source names in table order |
| `Dashboard.OtherTypeListsAll` | src/presentation/dashboard.py:208-214 | any other type lists every price entry in table order |

## Left out

- BenchmarkModel.ComputeStatsSpec: states the standard deviation only for a single measurement (0). For more measurements it is a `sqrt` parameter applied to the sample variance, because `statistics.stdev` takes a floating-point square root.
- The 95th-percentile index `int(len * 0.95)` is computed in exact arithmetic as `(95 * n) / 100`. All latency arithmetic is exact `real` arithmetic. Float rounding and number formatting (`:.2f`, `:.4f`) are not modelled. The table-row formatting functions are parameters.
- Vendor calls are outside the model: the HTTP request and its `iter_lines`, the Azure, ElevenLabs and DashScope SDKs, and the LuxTTS model. A provider is an oracle of call outcomes. The MiniMax response is its list of lines, or the error the request raised. LuxTTS synthesis is a function from chunk text to bytes.
- `json.loads` is a parameter that gives each payload as an already-parsed record: malformed, without audio, or with a status and an audio string. JSON values of other shapes are not modelled, such as a `data` field that is not an object; in the source such values can raise errors the loop does not catch.
- Response lines are decoded strings. The source's `line.decode('utf-8')` runs outside the `try`, so a line that is not UTF-8 would abort the request; that case is not modelled.
- `re.split` is modelled as the split function `SplitParts`.
- `bytes.fromhex` is modelled as `HexDecode`: two digits per byte, ASCII whitespace skipped between pairs.
- The numpy normalisation and int16 conversion of the LuxTTS audio are not modelled.
- Provider initialisation is not modelled: environment variables, credentials and model loading. The CLI that builds the providers is also left out.
- The file system is reduced to two inputs:
  - Reading the results file (`_load_existing_results`) becomes the loaded snapshot, passed to the constructor as an optional map; absent means nothing could be loaded.
  - The audio files on disk are a set of paths; writing an audio file adds its path.
  - Not modelled: the YAML test-text loading, `json.dump`, `mkdir`, `save_audio` and its encoding.
  - In the model, writing an audio file always succeeds. In the source, a failing `mkdir` or `save_audio` raises inside `benchmark_sample` (src/evaluation/benchmark_runner.py:213-217), and the per-sample `except` at line 285 then drops that sample. `SucceededSampleIsKept`, `SucceededSampleHasResult`, `SucceededSampleHasAudio` and `CompletedRunIsSkippedNextTime` therefore hold only when every audio write succeeds.
- Saved entries hold the result values themselves, not their `to_dict` JSON form.
- The clock (`time.perf_counter`, `datetime.now`) is not modelled; readings and the timestamp are parameters.
- The dashboard's HTML and CSS text, its results-file load, its reading and base64 embedding of audio files, and its CSS class names are left out. The provider groups it iterates are a parameter.
- `list_voices` of the LuxTTS streaming provider is not modelled.
- BenchmarkModel.Distinct: `list(set(...))` has no specified order (it follows string hashing, which Python randomises per process). The model fixes one order, first occurrence; callers may rely only on the order-free facts (each language once, exactly the languages of the results).
- BenchmarkRunner.ProviderBenchmark.ComputeAggregates: its `languagesTested` takes the first-occurrence order of `Distinct`, an order of the model's choosing.
- Text.Lower: `str.lower()`, `str.upper()` and `str.title()` are modelled on ASCII letters only (`Lower`, `Upper`, `Title`); other Unicode letters are left unchanged. The provider names, language codes and genders they are applied to are ASCII.
- Console output (`print`) is not modelled.
