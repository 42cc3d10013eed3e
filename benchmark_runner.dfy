/** The benchmark engine's mutable objects: a provider's aggregate record and
    the runner that samples every provider, skips those whose results are
    already complete, and merges its results into the loaded snapshot. The
    audio files on disk and the provider calls made are fields, so each
    method states what it wrote and what it called. */
module BenchmarkRunner {
  import opened Wrappers
  import opened Text
  import opened Stats
  import opened Base
  import opened BenchmarkModel
  import CostCalculator

  /** `ProviderBenchmark`: one provider's results and their aggregates. */
  class ProviderBenchmark {
    const provider: string
    var results: seq<BenchmarkResult>
    var totalLatencyMeanMs: real
    var totalCostUsd: real
    var avgRealtimeFactor: real
    var languagesTested: seq<string>

    constructor (provider: string)
      ensures this.provider == provider && results == []
      ensures Aggregated()
    {
      this.provider := provider;
      results := [];
      totalLatencyMeanMs := 0.0;
      totalCostUsd := 0.0;
      avgRealtimeFactor := 0.0;
      languagesTested := [];
    }

    /** The aggregates agree with the results: the defaults while there are
        none, otherwise the mean of the per-sample mean latencies, the summed
        cost, the mean realtime factor and the distinct languages. */
    predicate Aggregated()
      reads this
    {
      if results == [] then
        totalLatencyMeanMs == 0.0 && totalCostUsd == 0.0 && avgRealtimeFactor == 0.0 && languagesTested == []
      else
        totalLatencyMeanMs == Mean(MeanLatencies(results))
        && totalCostUsd == Sum(Costs(results))
        && avgRealtimeFactor == Mean(RealtimeFactors(results))
        && languagesTested == Distinct(Languages(results))
    }

    /** `compute_aggregates`: nothing changes when there are no results. */
    method ComputeAggregates()
      modifies this
      ensures results == old(results)
      ensures old(results) == [] ==>
        totalLatencyMeanMs == old(totalLatencyMeanMs) && totalCostUsd == old(totalCostUsd)
        && avgRealtimeFactor == old(avgRealtimeFactor) && languagesTested == old(languagesTested)
      ensures results != [] ==> Aggregated()
      ensures results != [] ==>
        (forall l :: l in languagesTested <==> l in Languages(results))
        && forall i, j :: 0 <= i < j < |languagesTested| ==> languagesTested[i] != languagesTested[j]
    {
      if results == [] {
        return;
      }
      totalLatencyMeanMs := Mean(MeanLatencies(results));
      totalCostUsd := Sum(Costs(results));
      avgRealtimeFactor := Mean(RealtimeFactors(results));
      languagesTested := Distinct(Languages(results));
    }

    /** This record is `name`'s, holds exactly `rs` and its aggregates agree. */
    predicate Holds(name: string, rs: seq<BenchmarkResult>)
      reads this
    {
      provider == name && results == rs && Aggregated()
    }

    /** The entry `save_results` writes for this provider. */
    function Entry(): (e: ProviderEntry)
      reads this
      ensures e.results == results
    {
      ProviderEntry(totalLatencyMeanMs, totalCostUsd, avgRealtimeFactor, languagesTested, results)
    }
  }

  /** The entries of this run's providers, under their keys. */
  function Entries(rs: map<string, ProviderBenchmark>): (m: map<string, ProviderEntry>)
    reads rs.Values
    ensures m.Keys == rs.Keys
    ensures forall k :: k in rs ==> m[k].results == rs[k].results
  {
    map k | k in rs :: rs[k].Entry()
  }

  /** What visiting a provider is specified to do, as functions of the
      provider: the results its run keeps, the calls it makes, the audio files
      it writes, and whether the saved results of the provider under a key are
      complete given the audio files on disk. */
  datatype Expected = Expected(
    results: Provider -> seq<BenchmarkResult>,
    calls: Provider -> seq<GenerateCall>,
    files: Provider -> set<string>,
    complete: (string, Provider, set<string>) -> bool)

  predicate DistinctKeys(providers: seq<(string, Provider)>) {
    forall i, j :: 0 <= i < j < |providers| ==> providers[i].0 != providers[j].0
  }

  /** Deciding provider `i` puts its key in exactly one of the two lists and
      leaves the membership of every other provider as it was. */
  lemma DecisionStep(providers: seq<(string, Provider)>, i: nat, ran: seq<string>, skipped: seq<string>,
                     ran': seq<string>, skipped': seq<string>, run: bool)
    requires DistinctKeys(providers) && i < |providers|
    requires |ran| + |skipped| == i
    requires forall j :: i <= j < |providers| ==> providers[j].0 !in ran && providers[j].0 !in skipped
    requires forall j :: 0 <= j < i ==> (providers[j].0 in ran <==> providers[j].0 !in skipped)
    requires ran' == if run then ran + [providers[i].0] else ran
    requires skipped' == if run then skipped else skipped + [providers[i].0]
    ensures |ran'| + |skipped'| == i + 1
    ensures forall j :: i + 1 <= j < |providers| ==> providers[j].0 !in ran' && providers[j].0 !in skipped'
    ensures forall j :: 0 <= j < i + 1 ==> (providers[j].0 in ran' <==> providers[j].0 !in skipped')
    ensures forall j :: 0 <= j < i ==> (providers[j].0 in ran' <==> providers[j].0 in ran)
    ensures forall j :: 0 <= j < i ==> (providers[j].0 in skipped' <==> providers[j].0 in skipped)
    ensures providers[i].0 in ran' <==> run
  {
  }

  /** A map whose keys are those of `m0` and the keys in `ran`. */
  lemma KeysAfterRun<V>(m: map<string, V>, m0: map<string, V>, ran: seq<string>)
    requires forall k :: k in m <==> k in m0 || k in ran
    ensures m.Keys == m0.Keys + set k | k in ran
  {
  }

  lemma AppendAssoc<T>(a: seq<T>, b: seq<T>, c: seq<T>)
    ensures (a + b) + c == a + (b + c)
  {
  }

  /** `BenchmarkRunner`. The loaded snapshot's providers are `existing` (empty
      when no snapshot could be loaded), `audioFiles` are the audio files that
      exist on disk, and `calls` records every `generate` call made. */
  class BenchmarkRunner {
    const providers: seq<(string, Provider)>
    const cfg: RunConfig
    const skipExisting: bool
    const existing: map<string, ProviderEntry>
    const sqrt: real -> real
    var results: map<string, ProviderBenchmark>
    var audioFiles: set<string>
    var calls: seq<GenerateCall>

    /** The constructor, with the snapshot load's outcome and the files already
        on disk passed in; provider keys are distinct, as in a dictionary. */
    constructor (providers: seq<(string, Provider)>, outputDir: string, iterations: int, warmupRuns: int,
                 skipExisting: bool, loaded: Option<map<string, ProviderEntry>>, files: set<string>,
                 sqrt: real -> real)
      requires DistinctKeys(providers)
      ensures this.providers == providers && cfg == RunConfig(outputDir, iterations, warmupRuns)
      ensures this.skipExisting == skipExisting && existing == loaded.GetOr(map[])
      ensures this.sqrt == sqrt && results == map[] && audioFiles == files && calls == []
      ensures Valid()
    {
      this.providers := providers;
      cfg := RunConfig(outputDir, iterations, warmupRuns);
      this.skipExisting := skipExisting;
      existing := loaded.GetOr(map[]);
      this.sqrt := sqrt;
      results := map[];
      audioFiles := files;
      calls := [];
    }

    predicate Valid() {
      DistinctKeys(providers)
    }

    /** `_provider_has_complete_results`, an early-exit scan. */
    method ProviderHasCompleteResults(key: string, p: Provider, samples: seq<TextSample>, langs: seq<string>)
      returns (complete: bool)
      ensures complete == HasCompleteResults(existing, audioFiles, cfg.outputDir, key, p, samples, langs)
    {
      if key !in existing {
        return false;
      }
      var ids := ResultIds(existing[key].results);
      for i := 0 to |samples|
        invariant forall j :: 0 <= j < i && samples[j].language in langs && Supports(p, samples[j]) ==>
          samples[j].id in ids && AudioPath(cfg.outputDir, p.config.name, samples[j].id) in audioFiles
      {
        var s := samples[i];
        if s.language !in langs || !Supports(p, s) {
          continue;
        }
        if s.id !in ids {
          return false;
        }
        if AudioPath(cfg.outputDir, p.config.name, s.id) !in audioFiles {
          return false;
        }
      }
      return true;
    }

    /** The measuring loop of `benchmark_sample`: `iterations + warmup_runs`
        calls, each of which may fail without stopping the loop. */
    method MeasureCalls(p: Provider, s: TextSample)
      returns (latencies: seq<real>, ttfbs: seq<real>, last: Option<TtsResult>)
      modifies this`calls
      ensures latencies == MeasuredLatencies(Outcomes(p, s, TotalRuns(cfg)), cfg.warmupRuns)
      ensures ttfbs == MeasuredTtfbs(Outcomes(p, s, TotalRuns(cfg)), cfg.warmupRuns)
      ensures last == LastSuccess(Outcomes(p, s, TotalRuns(cfg)))
      ensures calls == old(calls) + Repeat(GenerateCall(p.config.name, s.id), TotalRuns(cfg))
    {
      latencies, ttfbs, last := [], [], None;
      var total := TotalRuns(cfg);
      ghost var outs := Outcomes(p, s, total);
      ghost var call := GenerateCall(p.config.name, s.id);
      for i := 0 to total
        invariant latencies == MeasuredLatencies(outs[..i], cfg.warmupRuns)
        invariant ttfbs == MeasuredTtfbs(outs[..i], cfg.warmupRuns)
        invariant last == LastSuccess(outs[..i])
        invariant calls == old(calls) + Repeat(call, i)
      {
        MeasureStep(outs, i, cfg.warmupRuns);
        assert Repeat(call, i + 1) == Repeat(call, i) + [call];
        var outcome := p.generate(s.text, s.language, i);
        assert outcome == outs[i];
        calls := calls + [GenerateCall(p.config.name, s.id)];
        if outcome.Ok? {
          last := Some(outcome.value);
          if i >= cfg.warmupRuns {
            latencies := latencies + [outcome.value.latencyMs];
            if outcome.value.ttfbMs.Some? {
              ttfbs := ttfbs + [outcome.value.ttfbMs.value];
            }
          }
        }
      }
      assert outs[..total] == outs;
    }

    /** `benchmark_sample`: the language guard, the measuring loop, the
        statistics, and the audio of the last successful call written. */
    method BenchmarkSample(p: Provider, s: TextSample) returns (r: Result<BenchmarkResult, SampleError>)
      modifies this`audioFiles, this`calls
      ensures r == SampleOutcome(p, s, cfg, sqrt)
      ensures calls == old(calls) + SampleCalls(p, s, cfg)
      ensures audioFiles == old(audioFiles) + SampleFiles(p, s, cfg, sqrt)
    {
      if s.language !in p.config.supportedLanguages {
        if StartsWith(s.language, "zh") && "zh" !in p.config.supportedLanguages {
          return Err(UnsupportedLanguage(p.config.name, s.language));
        }
      }
      var latencies, ttfbs, last := MeasureCalls(p, s);
      if latencies == [] {
        SampleFailed(p, s, cfg, sqrt);
        return Err(AllIterationsFailed(p.config.name, s.id));
      }
      SampleSucceeded(p, s, cfg, sqrt);
      var audioPath := AudioPath(cfg.outputDir, p.config.name, s.id);
      if last.Some? {
        audioFiles := audioFiles + {audioPath};
      }
      r := Ok(SampleResult(p, s, cfg, latencies, ttfbs, last, sqrt));
    }

    /** One pass of the sample loop in `run_benchmark`: an unsupported sample
        is skipped, and a sample whose benchmark raised adds no result. */
    method ProcessSample(p: Provider, s: TextSample, pb: ProviderBenchmark)
      modifies pb, this`audioFiles, this`calls
      ensures pb.results == old(pb.results) + SampleResults(p, s, cfg, sqrt)
      ensures calls == old(calls) + StepCalls(p, s, cfg)
      ensures audioFiles == old(audioFiles) + StepFiles(p, s, cfg, sqrt)
      ensures pb.totalLatencyMeanMs == old(pb.totalLatencyMeanMs)
      ensures pb.totalCostUsd == old(pb.totalCostUsd) && pb.avgRealtimeFactor == old(pb.avgRealtimeFactor)
      ensures pb.languagesTested == old(pb.languagesTested)
    {
      if !Supports(p, s) {
        return;
      }
      var r := BenchmarkSample(p, s);
      if r.Ok? {
        pb.results := pb.results + [r.value];
      }
    }

    /** `ProcessSample` on the sample after the first `i`: the results, calls
        and files of those `i` samples become those of the first `i + 1`. */
    method ProcessNext(p: Provider, filtered: seq<TextSample>, i: nat, pb: ProviderBenchmark,
                       ghost calls0: seq<GenerateCall>, ghost files0: set<string>)
      requires i < |filtered|
      requires pb.results == ProviderResults(p, filtered[..i], cfg, sqrt)
      requires calls == calls0 + ProviderCalls(p, filtered[..i], cfg)
      requires audioFiles == files0 + ProviderFiles(p, filtered[..i], cfg, sqrt)
      modifies pb, this`audioFiles, this`calls
      ensures pb.results == ProviderResults(p, filtered[..i + 1], cfg, sqrt)
      ensures calls == calls0 + ProviderCalls(p, filtered[..i + 1], cfg)
      ensures audioFiles == files0 + ProviderFiles(p, filtered[..i + 1], cfg, sqrt)
      ensures pb.totalLatencyMeanMs == old(pb.totalLatencyMeanMs)
      ensures pb.totalCostUsd == old(pb.totalCostUsd) && pb.avgRealtimeFactor == old(pb.avgRealtimeFactor)
      ensures pb.languagesTested == old(pb.languagesTested)
    {
      ProviderStep(p, filtered, i, cfg, sqrt);
      ProcessSample(p, filtered[i], pb);
      AppendAssoc(calls0, ProviderCalls(p, filtered[..i], cfg), StepCalls(p, filtered[i], cfg));
    }

    /** The body of `run_benchmark`'s loop for a provider that is not skipped:
        every filtered sample the provider supports is benchmarked, a failing
        sample is dropped without stopping the others, and the aggregates are
        computed. */
    method RunProvider(p: Provider, filtered: seq<TextSample>) returns (pb: ProviderBenchmark)
      modifies this`audioFiles, this`calls
      ensures fresh(pb)
      ensures pb.provider == p.config.name
      ensures pb.results == ProviderResults(p, filtered, cfg, sqrt) && pb.Aggregated()
      ensures calls == old(calls) + ProviderCalls(p, filtered, cfg)
      ensures audioFiles == old(audioFiles) + ProviderFiles(p, filtered, cfg, sqrt)
    {
      pb := new ProviderBenchmark(p.config.name);
      for i := 0 to |filtered|
        invariant pb.provider == p.config.name
        invariant pb.totalLatencyMeanMs == 0.0 && pb.totalCostUsd == 0.0
        invariant pb.avgRealtimeFactor == 0.0 && pb.languagesTested == []
        invariant pb.results == ProviderResults(p, filtered[..i], cfg, sqrt)
        invariant calls == old(calls) + ProviderCalls(p, filtered[..i], cfg)
        invariant audioFiles == old(audioFiles) + ProviderFiles(p, filtered[..i], cfg, sqrt)
      {
        ProcessNext(p, filtered, i, pb, old(calls), old(audioFiles));
      }
      assert filtered[..|filtered|] == filtered;
      pb.ComputeAggregates();
    }

    /** One pass of `run_benchmark`'s provider loop: the provider is skipped
        when skipping is on and its results are complete, and otherwise run
        afresh and recorded under its key. */
    method VisitProvider(key: string, p: Provider, samples: seq<TextSample>, langs: seq<string>,
                         filtered: seq<TextSample>, ghost e: Expected) returns (run: bool)
      requires Expects(e, samples, langs, filtered)
      modifies this`results, this`audioFiles, this`calls
      ensures run <==> !(skipExisting && e.complete(key, p, old(audioFiles)))
      ensures !run ==> results == old(results)
      ensures run ==> key in results && results == old(results)[key := results[key]]
      ensures run ==> fresh(results[key]) && results[key].provider == p.config.name && results[key].Aggregated()
                      && results[key].results == e.results(p)
      ensures calls == old(calls) + (if run then e.calls(p) else [])
      ensures audioFiles == old(audioFiles) + (if run then e.files(p) else {})
    {
      var complete := false;
      if skipExisting {
        complete := ProviderHasCompleteResults(key, p, samples, langs);
      }
      if complete {
        return false;
      }
      var pb := RunProvider(p, filtered);
      results := results[key := pb];
      return true;
    }

    /** `e` gives what visiting a provider is specified to do, for the
        samples `samples`, the languages `langs` and the filtered samples
        `filtered`. */
    ghost predicate Expects(e: Expected, samples: seq<TextSample>, langs: seq<string>, filtered: seq<TextSample>) {
      && (forall q {:trigger ProviderResults(q, filtered, cfg, sqrt)} ::
            e.results(q) == ProviderResults(q, filtered, cfg, sqrt))
      && (forall q {:trigger ProviderCalls(q, filtered, cfg)} :: e.calls(q) == ProviderCalls(q, filtered, cfg))
      && (forall q {:trigger ProviderFiles(q, filtered, cfg, sqrt)} ::
            e.files(q) == ProviderFiles(q, filtered, cfg, sqrt))
      && (forall key, q, files {:trigger HasCompleteResults(existing, files, cfg.outputDir, key, q, samples, langs)} ::
            e.complete(key, q, files) == HasCompleteResults(existing, files, cfg.outputDir, key, q, samples, langs))
    }

    /** The decisions of `run_benchmark`'s provider loop after its first `i`
        providers, with `files` the audio files now on disk: every key decided
        exactly once, the skipped ones complete, the run ones incomplete when
        the loop started. */
    ghost predicate Decided(files: set<string>, i: nat, ran: seq<string>, skipped: seq<string>,
                            samples: seq<TextSample>, langs: seq<string>, files0: set<string>)
      requires i <= |providers|
    {
      && |ran| + |skipped| == i
      && (forall j :: i <= j < |providers| ==> providers[j].0 !in ran && providers[j].0 !in skipped)
      && (forall j :: 0 <= j < i ==> (providers[j].0 in ran <==> providers[j].0 !in skipped))
      && (forall j :: 0 <= j < i && providers[j].0 in skipped ==>
            skipExisting && HasCompleteResults(existing, files, cfg.outputDir, providers[j].0, providers[j].1, samples, langs))
      && (forall j :: 0 <= j < i && providers[j].0 in ran ==>
            !skipExisting || !HasCompleteResults(existing, files0, cfg.outputDir, providers[j].0, providers[j].1, samples, langs))
      && files0 <= files
    }

    /** The calls made and the files written by the loop's first `i` providers. */
    ghost predicate Effected(calls': seq<GenerateCall>, files: set<string>, i: nat, ran: seq<string>,
                             filtered: seq<TextSample>, files0: set<string>, calls0: seq<GenerateCall>)
      requires i <= |providers|
    {
      && calls' == calls0 + RunCalls(providers[..i], ran, filtered, cfg)
      && files == files0 + RunFiles(providers[..i], ran, filtered, cfg, sqrt)
    }

    /** Provider `p`'s aggregated results `want(p)` are recorded under `key`. */
    ghost predicate RecordedAs(key: string, p: Provider, want: Provider -> seq<BenchmarkResult>)
      reads this, results.Values
    {
      key in results && results[key].Holds(p.config.name, want(p))
    }

    /** The results the loop's first `i` providers recorded, `want(p)` being
        what a run of provider `p` yields. */
    ghost predicate Recorded(i: nat, ran: seq<string>, want: Provider -> seq<BenchmarkResult>,
                             results0: map<string, ProviderBenchmark>)
      requires i <= |providers|
      reads this, results.Values
    {
      && (forall k :: k in results <==> k in results0 || k in ran)
      && (forall j :: 0 <= j < i && providers[j].0 in ran ==> RecordedAs(providers[j].0, providers[j].1, want))
      && (forall k :: k in results0 && k !in ran ==> results[k] == results0[k])
    }

    /** What the provider loop of `run_benchmark` has established after its
        first `i` providers, relative to the files, calls and results it
        started from. */
    ghost predicate Progress(i: nat, ran: seq<string>, skipped: seq<string>, samples: seq<TextSample>,
                             langs: seq<string>, filtered: seq<TextSample>, want: Provider -> seq<BenchmarkResult>,
                             files0: set<string>, calls0: seq<GenerateCall>, results0: map<string, ProviderBenchmark>)
      requires i <= |providers|
      reads this, results.Values
    {
      Decided(audioFiles, i, ran, skipped, samples, langs, files0)
      && Effected(calls, audioFiles, i, ran, filtered, files0, calls0)
      && Recorded(i, ran, want, results0)
    }

    /** Visiting provider `i` keeps the decisions consistent: its key joins
        exactly one list, and the files it writes cannot undo the completeness
        of a provider skipped before it. */
    lemma DecidedStep(before: set<string>, after: set<string>, i: nat, ran0: seq<string>, skipped0: seq<string>,
                      ran: seq<string>, skipped: seq<string>, run: bool,
                      samples: seq<TextSample>, langs: seq<string>, files0: set<string>)
      requires Valid() && i < |providers|
      requires Decided(before, i, ran0, skipped0, samples, langs, files0)
      requires run <==> !(skipExisting && HasCompleteResults(existing, before, cfg.outputDir, providers[i].0, providers[i].1, samples, langs))
      requires before <= after && (!run ==> after == before)
      requires ran == if run then ran0 + [providers[i].0] else ran0
      requires skipped == if run then skipped0 else skipped0 + [providers[i].0]
      ensures Decided(after, i + 1, ran, skipped, samples, langs, files0)
    {
      var (key, p) := providers[i];
      DecisionStep(providers, i, ran0, skipped0, ran, skipped, run);
      forall j | 0 <= j < i + 1 && providers[j].0 in skipped
        ensures skipExisting
        ensures HasCompleteResults(existing, after, cfg.outputDir, providers[j].0, providers[j].1, samples, langs)
      {
        if j < i {
          CompleteMonotone(existing, before, after, cfg.outputDir, providers[j].0, providers[j].1, samples, langs);
        }
      }
      forall j | 0 <= j < i + 1 && providers[j].0 in ran
        ensures !skipExisting
          || !HasCompleteResults(existing, files0, cfg.outputDir, providers[j].0, providers[j].1, samples, langs)
      {
        if j == i && skipExisting
           && HasCompleteResults(existing, files0, cfg.outputDir, key, p, samples, langs) {
          CompleteMonotone(existing, files0, before, cfg.outputDir, key, p, samples, langs);
        }
      }
    }

    /** Visiting provider `i` adds its calls and files, when it runs, at the end. */
    lemma EffectedStep(callsBefore: seq<GenerateCall>, callsAfter: seq<GenerateCall>,
                       before: set<string>, after: set<string>, i: nat, ran0: seq<string>, ran: seq<string>,
                       run: bool, filtered: seq<TextSample>, files0: set<string>, calls0: seq<GenerateCall>)
      requires Valid() && i < |providers|
      requires Effected(callsBefore, before, i, ran0, filtered, files0, calls0)
      requires forall j :: i <= j < |providers| ==> providers[j].0 !in ran0
      requires ran == if run then ran0 + [providers[i].0] else ran0
      requires callsAfter == callsBefore + (if run then ProviderCalls(providers[i].1, filtered, cfg) else [])
      requires after == before + (if run then ProviderFiles(providers[i].1, filtered, cfg, sqrt) else {})
      ensures Effected(callsAfter, after, i + 1, ran, filtered, files0, calls0)
    {
      forall j | 0 <= j < i
        ensures providers[j].0 in ran <==> providers[j].0 in ran0
      {
        assert providers[j].0 != providers[i].0;
      }
      RunStep(providers, i, ran0, ran, filtered, cfg, sqrt);
      ghost var stepCalls := if run then ProviderCalls(providers[i].1, filtered, cfg) else [];
      AppendAssoc(calls0, RunCalls(providers[..i], ran0, filtered, cfg), stepCalls);
    }

    /** Visits provider `i` and keeps the record of results consistent: its
        fresh results join under its key when it runs, and no earlier
        provider's record changes. */
    method VisitAndRecord(i: nat, samples: seq<TextSample>, langs: seq<string>, filtered: seq<TextSample>,
                          ran0: seq<string>, ghost e: Expected, ghost results0: map<string, ProviderBenchmark>)
      returns (run: bool, ran: seq<string>)
      requires Valid() && i < |providers|
      requires Expects(e, samples, langs, filtered)
      requires Recorded(i, ran0, e.results, results0)
      requires forall j :: i <= j < |providers| ==> providers[j].0 !in ran0
      modifies this`results, this`audioFiles, this`calls
      ensures ran == if run then ran0 + [providers[i].0] else ran0
      ensures Recorded(i + 1, ran, e.results, results0)
      ensures run <==> !(skipExisting && e.complete(providers[i].0, providers[i].1, old(audioFiles)))
      ensures !run ==> results == old(results)
      ensures run ==> results == old(results)[providers[i].0 := results[providers[i].0]]
                      && fresh(results[providers[i].0])
      ensures calls == old(calls) + (if run then e.calls(providers[i].1) else [])
      ensures audioFiles == old(audioFiles) + (if run then e.files(providers[i].1) else {})
    {
      var (key, p) := providers[i];
      ghost var resultsBefore := results;
      run := VisitProvider(key, p, samples, langs, filtered, e);
      ran := if run then ran0 + [key] else ran0;
      forall k | k in results0 && k !in ran
        ensures results[k] == results0[k]
      {
        assert k != key || !run;
        assert k !in ran0;
      }
      forall j | 0 <= j < i + 1 && providers[j].0 in ran
        ensures RecordedAs(providers[j].0, providers[j].1, e.results)
      {
        if j < i {
          assert providers[j].0 != key;
          assert providers[j].0 in ran0;
          var pb := results[providers[j].0];
          assert pb == resultsBefore[providers[j].0];
          assert old(pb.Holds(providers[j].1.config.name, e.results(providers[j].1)));
        } else {
          assert providers[i].0 !in ran0;
          assert run && providers[j] == (key, p);
        }
      }
    }

    /** One turn of `run_benchmark`'s provider loop: provider `i` is visited
        and its key recorded as run or skipped. */
    method Advance(i: nat, samples: seq<TextSample>, langs: seq<string>, filtered: seq<TextSample>,
                   ran0: seq<string>, skipped0: seq<string>, ghost files0: set<string>,
                   ghost e: Expected, ghost calls0: seq<GenerateCall>, ghost results0: map<string, ProviderBenchmark>)
      returns (ran: seq<string>, skipped: seq<string>)
      requires Valid() && i < |providers|
      requires Expects(e, samples, langs, filtered)
      requires Progress(i, ran0, skipped0, samples, langs, filtered, e.results, files0, calls0, results0)
      modifies this`results, this`audioFiles, this`calls
      ensures Progress(i + 1, ran, skipped, samples, langs, filtered, e.results, files0, calls0, results0)
      ensures ran == ran0 || ran == ran0 + [providers[i].0]
      ensures ran == ran0 ==> results == old(results)
      ensures ran != ran0 ==> results == old(results)[providers[i].0 := results[providers[i].0]]
                              && fresh(results[providers[i].0])
    {
      ghost var before := audioFiles;
      ghost var callsBefore := calls;
      var run;
      run, ran := VisitAndRecord(i, samples, langs, filtered, ran0, e, results0);
      skipped := if run then skipped0 else skipped0 + [providers[i].0];
      DecidedStep(before, audioFiles, i, ran0, skipped0, ran, skipped, run, samples, langs, files0);
      EffectedStep(callsBefore, calls, before, audioFiles, i, ran0, ran, run, filtered, files0, calls0);
    }

    /** `run_benchmark`: the providers in order, each either skipped (when
        skipping is on and its results are complete) or run afresh under its
        key. Returns the keys of the providers run and of those skipped. */
    method RunBenchmark(samples: seq<TextSample>, languages: Option<seq<string>>)
      returns (ran: seq<string>, skipped: seq<string>)
      requires Valid()
      modifies this`results, this`audioFiles, this`calls
      ensures |ran| + |skipped| == |providers|
      ensures forall i :: 0 <= i < |providers| ==> (providers[i].0 in ran <==> providers[i].0 !in skipped)
      ensures forall i :: 0 <= i < |providers| && providers[i].0 in skipped ==>
        skipExisting && HasCompleteResults(existing, audioFiles, cfg.outputDir, providers[i].0, providers[i].1,
                                           samples, EffectiveLanguages(languages))
      ensures forall i :: 0 <= i < |providers| && providers[i].0 in ran ==>
        !skipExisting || !HasCompleteResults(existing, old(audioFiles), cfg.outputDir, providers[i].0,
                                             providers[i].1, samples, EffectiveLanguages(languages))
      ensures results.Keys == old(results).Keys + set k | k in ran
      ensures forall i :: 0 <= i < |providers| && providers[i].0 in ran ==>
        var pb := results[providers[i].0];
        fresh(pb) && pb.provider == providers[i].1.config.name && pb.Aggregated()
        && pb.results == ProviderResults(providers[i].1, FilterByLanguage(samples, EffectiveLanguages(languages)), cfg, sqrt)
      ensures forall k :: k in old(results) && k !in ran ==> results[k] == old(results)[k]
      ensures calls == old(calls) + RunCalls(providers, ran, FilterByLanguage(samples, EffectiveLanguages(languages)), cfg)
      ensures audioFiles == old(audioFiles)
        + RunFiles(providers, ran, FilterByLanguage(samples, EffectiveLanguages(languages)), cfg, sqrt)
    {
      var langs := EffectiveLanguages(languages);
      var filtered := FilterByLanguage(samples, langs);
      ghost var files0, calls0, results0 := audioFiles, calls, results;
      ghost var e := Expected(
        q => ProviderResults(q, filtered, cfg, sqrt),
        q => ProviderCalls(q, filtered, cfg),
        q => ProviderFiles(q, filtered, cfg, sqrt),
        (key, q, files) => HasCompleteResults(existing, files, cfg.outputDir, key, q, samples, langs));
      ran, skipped := [], [];
      assert providers[..0] == [];
      for i := 0 to |providers|
        invariant Progress(i, ran, skipped, samples, langs, filtered, e.results, files0, calls0, results0)
        invariant forall j :: 0 <= j < i && providers[j].0 in ran ==> fresh(results[providers[j].0])
      {
        var ran', skipped' := Advance(i, samples, langs, filtered, ran, skipped, files0, e, calls0, results0);
        forall j | 0 <= j < i + 1 && providers[j].0 in ran'
          ensures fresh(results[providers[j].0])
        {
          if j < i {
            assert providers[j].0 != providers[i].0;
            assert providers[j].0 in ran;
          }
        }
        ran, skipped := ran', skipped';
      }
      assert providers[..|providers|] == providers;
      KeysAfterRun(results, results0, ran);
    }

    /** `save_results`: the loaded providers, then this run's providers written
        over them key by key. */
    method SaveResults(timestamp: string) returns (snapshot: Snapshot)
      ensures snapshot.timestamp == timestamp && snapshot.iterations == cfg.iterations
      ensures snapshot.providers == Merge(existing, Entries(results))
    {
      var out: map<string, ProviderEntry> := map[];
      var pending := existing.Keys;
      while pending != {}
        invariant pending <= existing.Keys
        invariant forall k :: k in out <==> k in existing && k !in pending
        invariant forall k :: k in out ==> out[k] == existing[k]
        decreases pending
      {
        var k :| k in pending;
        out := out[k := existing[k]];
        pending := pending - {k};
      }
      var entries := Entries(results);
      var todo := results.Keys;
      while todo != {}
        invariant todo <= results.Keys
        invariant forall k :: k in out <==> k in existing || (k in results && k !in todo)
        invariant forall k :: k in results && k !in todo ==> out[k] == entries[k]
        invariant forall k :: k in existing && (k !in results || k in todo) ==> out[k] == existing[k]
        decreases todo
      {
        var k :| k in todo;
        out := out[k := results[k].Entry()];
        todo := todo - {k};
      }
      assert out.Keys == Merge(existing, entries).Keys;
      snapshot := Snapshot(timestamp, cfg.iterations, out);
    }
  }
}
