/** The values of the benchmark engine and the functions that specify it: the
    latency summary of one sample, what benchmarking one sample yields, what a
    provider's run yields, the completeness test used to skip a provider, and
    the persisted snapshot. The runner's methods are proved against these. */
module BenchmarkModel {
  import opened Wrappers
  import opened Text
  import opened Stats
  import opened Base
  import CostCalculator

  /** One entry of the test-text configuration. */
  datatype TextSample = TextSample(id: string, text: string, language: string, category: Option<string>)

  /** A provider adapter as the runner uses it: its configuration, and the
      outcome of the `n`-th `generate(text, language=language)` call made while
      one sample is benchmarked. What the vendor does is outside the model. */
  datatype Provider = Provider(config: ProviderConfig, generate: (string, string, nat) -> CallOutcome)

  /** The run parameters the runner is constructed with. */
  datatype RunConfig = RunConfig(outputDir: string, iterations: int, warmupRuns: int)

  /** `LatencyStats`. */
  datatype LatencyStats = LatencyStats(
    meanMs: real,
    medianMs: real,
    minMs: real,
    maxMs: real,
    p95Ms: real,
    stdDevMs: real,
    ttfbMeanMs: Option<real>)

  /** `BenchmarkResult`. */
  datatype BenchmarkResult = BenchmarkResult(
    provider: string,
    sampleId: string,
    text: string,
    language: string,
    category: string,
    latencyStats: LatencyStats,
    iterations: int,
    durationSeconds: real,
    sampleRate: int,
    characters: int,
    realtimeFactor: real,
    charsPerSecond: real,
    costUsd: real,
    audioFile: string)

  /** Why benchmarking one sample raised. */
  datatype SampleError =
    | UnsupportedLanguage(provider: string, language: string)
    | AllIterationsFailed(provider: string, sampleId: string)

  /** One `generate` call as the runner issues it. */
  datatype GenerateCall = GenerateCall(provider: string, sampleId: string)

  /** The latency summary of the measured calls. `sqrt` stands for the square
      root inside `statistics.stdev`, which is floating-point library code. */
  function ComputeStats(latencies: seq<real>, ttfbs: seq<real>, sqrt: real -> real): LatencyStats
    requires |latencies| > 0
  {
    var n := |latencies|;
    SortedElementIn(latencies, P95Index(n));
    LatencyStats(
      Mean(latencies),
      Median(latencies),
      Min(latencies),
      Max(latencies),
      if n > 1 then SortAsc(latencies)[P95Index(n)] else latencies[0],
      if n > 1 then sqrt(SampleVariance(latencies)) else 0.0,
      if ttfbs != [] then Some(Mean(ttfbs)) else None)
  }

  /** The latency summary: minimum and maximum of the measured latencies, with
      the mean, the median and the 95th percentile between them; the
      percentile is read from the sorted latencies, and a single measurement
      has no spread; the mean time to first byte is absent exactly when no
      measured call reported one. */
  lemma ComputeStatsSpec(latencies: seq<real>, ttfbs: seq<real>, sqrt: real -> real)
    requires |latencies| > 0
    ensures var st := ComputeStats(latencies, ttfbs, sqrt);
      && st.minMs == Min(latencies) && st.maxMs == Max(latencies)
      && st.minMs <= st.meanMs <= st.maxMs
      && st.minMs <= st.medianMs <= st.maxMs
      && st.minMs <= st.p95Ms <= st.maxMs
      && (|latencies| > 1 ==>
            |SortAsc(latencies)| == |latencies| && st.p95Ms == SortAsc(latencies)[P95Index(|latencies|)])
      && (|latencies| == 1 ==> st.p95Ms == latencies[0] && st.stdDevMs == 0.0)
      && (st.ttfbMeanMs.None? <==> ttfbs == [])
  {
    SortedElementIn(latencies, P95Index(|latencies|));
    MeanBounds(latencies);
    MedianBounds(latencies);
  }

  /** `iterations + warmup_runs`, as many calls as `range` makes of it. */
  function TotalRuns(cfg: RunConfig): nat {
    if cfg.iterations + cfg.warmupRuns > 0 then cfg.iterations + cfg.warmupRuns else 0
  }

  /** How many of `n` calls have an index at or above `warmupRuns`. */
  function MeasuredSlots(n: nat, warmupRuns: int): nat {
    if warmupRuns <= 0 then n else if warmupRuns >= n then 0 else n - warmupRuns
  }

  /** Whatever the warm-up count, the measured slots of a run never exceed the
      configured iterations. */
  lemma MeasuredSlotsBound(cfg: RunConfig)
    ensures MeasuredSlots(TotalRuns(cfg), cfg.warmupRuns) <= if cfg.iterations > 0 then cfg.iterations else 0
  {
  }

  /** The outcomes of the calls made for one sample, in call order. */
  function Outcomes(p: Provider, s: TextSample, n: nat): (outs: seq<CallOutcome>)
    ensures |outs| == n
    ensures forall i :: 0 <= i < n ==> outs[i] == p.generate(s.text, s.language, i)
  {
    seq(n, i requires 0 <= i < n => p.generate(s.text, s.language, i))
  }

  /** The latencies kept: one per successful call at or after the warm-up. */
  function MeasuredLatencies(outs: seq<CallOutcome>, warmupRuns: int): (ls: seq<real>)
    ensures |ls| <= MeasuredSlots(|outs|, warmupRuns)
    ensures ls != [] ==> exists i :: 0 <= i < |outs| && i >= warmupRuns && outs[i].Ok?
    decreases |outs|
  {
    if outs == [] then []
    else
      var i := |outs| - 1;
      var init := MeasuredLatencies(outs[..i], warmupRuns);
      assert forall j :: 0 <= j < i ==> outs[..i][j] == outs[j];
      init + (if i >= warmupRuns && outs[i].Ok? then [outs[i].value.latencyMs] else [])
  }

  /** The times to first byte kept: one per successful measured call that
      reported one. */
  function MeasuredTtfbs(outs: seq<CallOutcome>, warmupRuns: int): (ts: seq<real>)
    ensures |ts| <= |MeasuredLatencies(outs, warmupRuns)|
    decreases |outs|
  {
    if outs == [] then []
    else
      var i := |outs| - 1;
      MeasuredTtfbs(outs[..i], warmupRuns)
      + (if i >= warmupRuns && outs[i].Ok? && outs[i].value.ttfbMs.Some? then [outs[i].value.ttfbMs.value] else [])
  }

  /** Call `i` is measured (at or after the warm-up) and succeeded. */
  predicate MeasuredOk(outs: seq<CallOutcome>, warmupRuns: int, i: int) {
    0 <= i < |outs| && i >= warmupRuns && outs[i].Ok?
  }

  /** The measured calls that succeeded. */
  function MeasuredOkCalls(outs: seq<CallOutcome>, warmupRuns: int): set<int> {
    set i | 0 <= i < |outs| && MeasuredOk(outs, warmupRuns, i)
  }

  /** The measured calls that succeeded and reported a time to first byte. */
  function MeasuredTtfbCalls(outs: seq<CallOutcome>, warmupRuns: int): set<int> {
    set i | 0 <= i < |outs| && MeasuredTtfb(outs, warmupRuns, i)
  }

  lemma MeasuredCallsSnoc(outs: seq<CallOutcome>, warmupRuns: int)
    requires outs != []
    ensures var i := |outs| - 1;
      && MeasuredOkCalls(outs, warmupRuns)
         == MeasuredOkCalls(outs[..i], warmupRuns) + (if MeasuredOk(outs, warmupRuns, i) then {i} else {})
      && MeasuredTtfbCalls(outs, warmupRuns)
         == MeasuredTtfbCalls(outs[..i], warmupRuns)
            + (if MeasuredTtfb(outs, warmupRuns, i) then {i} else {})
      && i !in MeasuredOkCalls(outs[..i], warmupRuns) && i !in MeasuredTtfbCalls(outs[..i], warmupRuns)
  {
    var i := |outs| - 1;
    assert forall j :: 0 <= j < i ==> outs[..i][j] == outs[j];
  }

  lemma {:induction false} MeasuredLatenciesCount(outs: seq<CallOutcome>, warmupRuns: int)
    ensures |MeasuredLatencies(outs, warmupRuns)| == |MeasuredOkCalls(outs, warmupRuns)|
    decreases |outs|
  {
    if outs != [] {
      MeasuredLatenciesCount(outs[..|outs| - 1], warmupRuns);
      MeasuredCallsSnoc(outs, warmupRuns);
    }
  }

  lemma {:induction false} MeasuredLatenciesHave(outs: seq<CallOutcome>, warmupRuns: int, i: int)
    requires MeasuredOk(outs, warmupRuns, i)
    ensures outs[i].value.latencyMs in MeasuredLatencies(outs, warmupRuns)
    decreases |outs|
  {
    var n := |outs| - 1;
    var init := MeasuredLatencies(outs[..n], warmupRuns);
    var last := if n >= warmupRuns && outs[n].Ok? then [outs[n].value.latencyMs] else [];
    assert MeasuredLatencies(outs, warmupRuns) == init + last;
    if i < n {
      assert outs[..n][i] == outs[i];
      MeasuredLatenciesHave(outs[..n], warmupRuns, i);
    } else {
      assert last == [outs[i].value.latencyMs];
    }
  }

  /** The indices of the measured successful calls, in call order. */
  function MeasuredOkIndices(outs: seq<CallOutcome>, warmupRuns: int): seq<int>
    decreases |outs|
  {
    if outs == [] then []
    else
      var n := |outs| - 1;
      MeasuredOkIndices(outs[..n], warmupRuns) + (if MeasuredOk(outs, warmupRuns, n) then [n] else [])
  }

  /** The indices of the measured successes that reported a time to first
      byte, in call order. */
  function MeasuredTtfbIndices(outs: seq<CallOutcome>, warmupRuns: int): seq<int>
    decreases |outs|
  {
    if outs == [] then []
    else
      var n := |outs| - 1;
      MeasuredTtfbIndices(outs[..n], warmupRuns) + (if MeasuredTtfb(outs, warmupRuns, n) then [n] else [])
  }

  predicate Increasing(c: seq<int>) {
    forall k, l :: 0 <= k < l < |c| ==> c[k] < c[l]
  }

  /** `ls[k]` is the latency of call `c[k]`, a measured success. */
  predicate LatenciesFrom(outs: seq<CallOutcome>, warmupRuns: int, c: seq<int>, ls: seq<real>) {
    |ls| == |c|
    && forall k :: 0 <= k < |c| ==> MeasuredOk(outs, warmupRuns, c[k]) && ls[k] == outs[c[k]].value.latencyMs
  }

  /** `ts[k]` is the time to first byte reported by call `c[k]`, a measured
      success. */
  predicate TtfbsFrom(outs: seq<CallOutcome>, warmupRuns: int, c: seq<int>, ts: seq<real>) {
    |ts| == |c|
    && forall k :: 0 <= k < |c| ==> MeasuredTtfb(outs, warmupRuns, c[k]) && ts[k] == outs[c[k]].value.ttfbMs.value
  }

  /** A call measured in a prefix is measured, with the same outcome, in the
      whole run. */
  lemma MeasuredInPrefix(outs: seq<CallOutcome>, warmupRuns: int, n: int)
    requires 0 <= n <= |outs|
    ensures forall i :: MeasuredOk(outs[..n], warmupRuns, i) <==> 0 <= i < n && MeasuredOk(outs, warmupRuns, i)
    ensures forall i :: MeasuredTtfb(outs[..n], warmupRuns, i) <==> 0 <= i < n && MeasuredTtfb(outs, warmupRuns, i)
    ensures forall i :: 0 <= i < n ==> outs[..n][i] == outs[i]
  {
  }

  lemma {:induction false} MeasuredOkIndicesIncreasing(outs: seq<CallOutcome>, warmupRuns: int)
    ensures Increasing(MeasuredOkIndices(outs, warmupRuns))
    ensures forall k :: 0 <= k < |MeasuredOkIndices(outs, warmupRuns)| ==> MeasuredOkIndices(outs, warmupRuns)[k] < |outs|
    decreases |outs|
  {
    if outs != [] {
      var n := |outs| - 1;
      MeasuredOkIndicesIncreasing(outs[..n], warmupRuns);
    }
  }

  lemma {:induction false} MeasuredOkIndicesSound(outs: seq<CallOutcome>, warmupRuns: int)
    ensures LatenciesFrom(outs, warmupRuns, MeasuredOkIndices(outs, warmupRuns), MeasuredLatencies(outs, warmupRuns))
    decreases |outs|
  {
    if outs != [] {
      var n := |outs| - 1;
      var c := MeasuredOkIndices(outs[..n], warmupRuns);
      var ls := MeasuredLatencies(outs[..n], warmupRuns);
      var last := if MeasuredOk(outs, warmupRuns, n) then [outs[n].value.latencyMs] else [];
      MeasuredOkIndicesSound(outs[..n], warmupRuns);
      var c2 := MeasuredOkIndices(outs, warmupRuns);
      var ls2 := MeasuredLatencies(outs, warmupRuns);
      assert c2 == c + (if MeasuredOk(outs, warmupRuns, n) then [n] else []);
      assert ls2 == ls + last;
      forall k | 0 <= k < |c2|
        ensures MeasuredOk(outs, warmupRuns, c2[k]) && ls2[k] == outs[c2[k]].value.latencyMs
      {
        if k < |c| {
          assert c2[k] == c[k] && ls2[k] == ls[k];
          assert MeasuredOk(outs[..n], warmupRuns, c[k]);
          assert outs[..n][c[k]] == outs[c[k]];
        } else {
          assert c2[k] == n;
        }
      }
    }
  }

  lemma {:induction false} MeasuredOkIndicesComplete(outs: seq<CallOutcome>, warmupRuns: int, i: int)
    requires MeasuredOk(outs, warmupRuns, i)
    ensures i in MeasuredOkIndices(outs, warmupRuns)
    decreases |outs|
  {
    var n := |outs| - 1;
    if i < n {
      MeasuredInPrefix(outs, warmupRuns, n);
      MeasuredOkIndicesComplete(outs[..n], warmupRuns, i);
    }
  }

  lemma {:induction false} MeasuredTtfbIndicesIncreasing(outs: seq<CallOutcome>, warmupRuns: int)
    ensures Increasing(MeasuredTtfbIndices(outs, warmupRuns))
    ensures forall k :: 0 <= k < |MeasuredTtfbIndices(outs, warmupRuns)| ==> MeasuredTtfbIndices(outs, warmupRuns)[k] < |outs|
    decreases |outs|
  {
    if outs != [] {
      var n := |outs| - 1;
      MeasuredTtfbIndicesIncreasing(outs[..n], warmupRuns);
    }
  }

  lemma {:induction false} MeasuredTtfbIndicesSound(outs: seq<CallOutcome>, warmupRuns: int)
    ensures TtfbsFrom(outs, warmupRuns, MeasuredTtfbIndices(outs, warmupRuns), MeasuredTtfbs(outs, warmupRuns))
    decreases |outs|
  {
    if outs != [] {
      var n := |outs| - 1;
      var c := MeasuredTtfbIndices(outs[..n], warmupRuns);
      var ts := MeasuredTtfbs(outs[..n], warmupRuns);
      var last := if MeasuredTtfb(outs, warmupRuns, n) then [outs[n].value.ttfbMs.value] else [];
      MeasuredTtfbIndicesSound(outs[..n], warmupRuns);
      var c2 := MeasuredTtfbIndices(outs, warmupRuns);
      var ts2 := MeasuredTtfbs(outs, warmupRuns);
      assert c2 == c + (if MeasuredTtfb(outs, warmupRuns, n) then [n] else []);
      assert ts2 == ts + last;
      forall k | 0 <= k < |c2|
        ensures MeasuredTtfb(outs, warmupRuns, c2[k]) && ts2[k] == outs[c2[k]].value.ttfbMs.value
      {
        if k < |c| {
          assert c2[k] == c[k] && ts2[k] == ts[k];
          assert MeasuredTtfb(outs[..n], warmupRuns, c[k]);
          assert outs[..n][c[k]] == outs[c[k]];
        } else {
          assert c2[k] == n;
        }
      }
    }
  }

  lemma {:induction false} MeasuredTtfbIndicesComplete(outs: seq<CallOutcome>, warmupRuns: int, i: int)
    requires MeasuredTtfb(outs, warmupRuns, i)
    ensures i in MeasuredTtfbIndices(outs, warmupRuns)
    decreases |outs|
  {
    var n := |outs| - 1;
    if i < n {
      MeasuredInPrefix(outs, warmupRuns, n);
      MeasuredTtfbIndicesComplete(outs[..n], warmupRuns, i);
    }
  }

  /** A failed call is tolerated: the k-th latency is that of the k-th
      measured success in call order, so there is one latency per measured
      success, the sample has a latency exactly when some measured call
      succeeded, and the latencies are exactly those the measured successes
      reported. */
  lemma MeasuredLatenciesSpec(outs: seq<CallOutcome>, warmupRuns: int)
    ensures |MeasuredLatencies(outs, warmupRuns)| == |MeasuredOkCalls(outs, warmupRuns)|
    ensures MeasuredLatencies(outs, warmupRuns) != [] <==> exists i :: MeasuredOk(outs, warmupRuns, i)
    ensures forall i :: MeasuredOk(outs, warmupRuns, i) ==>
      outs[i].value.latencyMs in MeasuredLatencies(outs, warmupRuns)
    ensures forall x :: x in MeasuredLatencies(outs, warmupRuns) ==>
      exists i :: MeasuredOk(outs, warmupRuns, i) && outs[i].value.latencyMs == x
    ensures var c := MeasuredOkIndices(outs, warmupRuns);
      && Increasing(c)
      && (forall i :: i in c <==> MeasuredOk(outs, warmupRuns, i))
      && LatenciesFrom(outs, warmupRuns, c, MeasuredLatencies(outs, warmupRuns))
  {
    var c := MeasuredOkIndices(outs, warmupRuns);
    var ls := MeasuredLatencies(outs, warmupRuns);
    MeasuredOkIndicesIncreasing(outs, warmupRuns);
    MeasuredOkIndicesSound(outs, warmupRuns);
    forall i | MeasuredOk(outs, warmupRuns, i) ensures i in c {
      MeasuredOkIndicesComplete(outs, warmupRuns, i);
    }
    forall x | x in ls ensures exists i :: MeasuredOk(outs, warmupRuns, i) && outs[i].value.latencyMs == x {
      var k :| 0 <= k < |ls| && ls[k] == x;
      assert MeasuredOk(outs, warmupRuns, c[k]);
    }
    MeasuredLatenciesCount(outs, warmupRuns);
    forall i | MeasuredOk(outs, warmupRuns, i)
      ensures outs[i].value.latencyMs in MeasuredLatencies(outs, warmupRuns)
    {
      MeasuredLatenciesHave(outs, warmupRuns, i);
    }
  }

  /** A measured success that reported a time to first byte. */
  predicate MeasuredTtfb(outs: seq<CallOutcome>, warmupRuns: int, i: int) {
    MeasuredOk(outs, warmupRuns, i) && outs[i].value.ttfbMs.Some?
  }

  lemma {:induction false} MeasuredTtfbsCount(outs: seq<CallOutcome>, warmupRuns: int)
    ensures |MeasuredTtfbs(outs, warmupRuns)| == |MeasuredTtfbCalls(outs, warmupRuns)|
    decreases |outs|
  {
    if outs != [] {
      MeasuredTtfbsCount(outs[..|outs| - 1], warmupRuns);
      MeasuredCallsSnoc(outs, warmupRuns);
    }
  }

  lemma {:induction false} MeasuredTtfbsHave(outs: seq<CallOutcome>, warmupRuns: int, i: int)
    requires MeasuredTtfb(outs, warmupRuns, i)
    ensures outs[i].value.ttfbMs.value in MeasuredTtfbs(outs, warmupRuns)
    decreases |outs|
  {
    var n := |outs| - 1;
    if i < n {
      assert outs[..n][i] == outs[i];
      MeasuredTtfbsHave(outs[..n], warmupRuns, i);
    }
  }

  /** The times to first byte: the k-th is the one reported by the k-th
      measured success that reported one, in call order, so there are none
      exactly when no measured success reported one, and the kept ones are
      exactly those reported. */
  lemma MeasuredTtfbsSpec(outs: seq<CallOutcome>, warmupRuns: int)
    ensures |MeasuredTtfbs(outs, warmupRuns)| == |MeasuredTtfbCalls(outs, warmupRuns)|
    ensures MeasuredTtfbs(outs, warmupRuns) == [] <==> forall i :: !MeasuredTtfb(outs, warmupRuns, i)
    ensures forall i :: MeasuredTtfb(outs, warmupRuns, i) ==>
      outs[i].value.ttfbMs.value in MeasuredTtfbs(outs, warmupRuns)
    ensures forall x :: x in MeasuredTtfbs(outs, warmupRuns) ==>
      exists i :: MeasuredTtfb(outs, warmupRuns, i) && outs[i].value.ttfbMs.value == x
    ensures var c := MeasuredTtfbIndices(outs, warmupRuns);
      && Increasing(c)
      && (forall i :: i in c <==> MeasuredTtfb(outs, warmupRuns, i))
      && TtfbsFrom(outs, warmupRuns, c, MeasuredTtfbs(outs, warmupRuns))
  {
    var c := MeasuredTtfbIndices(outs, warmupRuns);
    var ts := MeasuredTtfbs(outs, warmupRuns);
    MeasuredTtfbIndicesIncreasing(outs, warmupRuns);
    MeasuredTtfbIndicesSound(outs, warmupRuns);
    forall i | MeasuredTtfb(outs, warmupRuns, i) ensures i in c {
      MeasuredTtfbIndicesComplete(outs, warmupRuns, i);
    }
    forall x | x in ts ensures exists i :: MeasuredTtfb(outs, warmupRuns, i) && outs[i].value.ttfbMs.value == x {
      var k :| 0 <= k < |ts| && ts[k] == x;
      assert MeasuredTtfb(outs, warmupRuns, c[k]);
    }
    MeasuredTtfbsCount(outs, warmupRuns);
    if forall i :: !MeasuredTtfb(outs, warmupRuns, i) {
      assert MeasuredTtfbCalls(outs, warmupRuns) == {};
    }
    forall i | MeasuredTtfb(outs, warmupRuns, i)
      ensures outs[i].value.ttfbMs.value in MeasuredTtfbs(outs, warmupRuns)
    {
      MeasuredTtfbsHave(outs, warmupRuns, i);
    }
  }

  /** Call `i` succeeded and every later call failed. */
  predicate LastOkAt(outs: seq<CallOutcome>, i: int) {
    0 <= i < |outs| && outs[i].Ok? && forall j :: i < j < |outs| ==> outs[j].Err?
  }

  /** The result of the last successful call, warm-up included. */
  function LastSuccess(outs: seq<CallOutcome>): Option<TtsResult>
    decreases |outs|
  {
    if outs == [] then None
    else if outs[|outs| - 1].Ok? then Some(outs[|outs| - 1].value)
    else LastSuccess(outs[..|outs| - 1])
  }

  /** There is no last success exactly when every call failed; otherwise it
      is the result of a successful call after which every call failed. */
  lemma {:induction false} LastSuccessSpec(outs: seq<CallOutcome>)
    ensures LastSuccess(outs).None? <==> forall i :: 0 <= i < |outs| ==> outs[i].Err?
    ensures LastSuccess(outs).Some? ==> exists i :: LastOkAt(outs, i) && outs[i].value == LastSuccess(outs).value
    decreases |outs|
  {
    if outs != [] {
      var n := |outs| - 1;
      if outs[n].Ok? {
        assert LastOkAt(outs, n);
      } else {
        var init := outs[..n];
        assert LastSuccess(outs) == LastSuccess(init);
        LastSuccessSpec(init);
        assert forall i :: 0 <= i < |init| ==> init[i] == outs[i];
        if LastSuccess(init).Some? {
          var i :| LastOkAt(init, i) && init[i].value == LastSuccess(init).value;
          assert LastOkAt(outs, i);
        }
      }
    }
  }

  /** One more call: how the measurements of a run of calls grow by call `i`. */
  lemma MeasureStep(outs: seq<CallOutcome>, i: nat, warmupRuns: int)
    requires i < |outs|
    ensures MeasuredLatencies(outs[..i + 1], warmupRuns)
         == MeasuredLatencies(outs[..i], warmupRuns)
            + (if i >= warmupRuns && outs[i].Ok? then [outs[i].value.latencyMs] else [])
    ensures MeasuredTtfbs(outs[..i + 1], warmupRuns)
         == MeasuredTtfbs(outs[..i], warmupRuns)
            + (if i >= warmupRuns && outs[i].Ok? && outs[i].value.ttfbMs.Some? then [outs[i].value.ttfbMs.value] else [])
    ensures LastSuccess(outs[..i + 1]) == if outs[i].Ok? then Some(outs[i].value) else LastSuccess(outs[..i])
  {
    var pre := outs[..i + 1];
    assert pre[..i] == outs[..i] && pre[i] == outs[i];
  }

  /** The test in `benchmark_sample` that raises before any call: an unsupported
      language is refused only when it is a Chinese code and "zh" itself is
      unsupported; every other unsupported language is still sampled. */
  predicate LanguageRejected(config: ProviderConfig, language: string) {
    language !in config.supportedLanguages
    && StartsWith(language, "zh") && "zh" !in config.supportedLanguages
  }

  function ReplaceSpaces(s: string): (r: string)
    ensures |r| == |s| && ' ' !in r
    ensures forall i :: 0 <= i < |s| ==> r[i] == if s[i] == ' ' then '_' else s[i]
  {
    seq(|s|, i requires 0 <= i < |s| => if s[i] == ' ' then '_' else s[i])
  }

  function DropHyphens(s: string): (r: string)
    ensures '-' !in r
    ensures forall c :: c in r ==> c in s
    ensures |r| <= |s|
    decreases |s|
  {
    if s == [] then []
    else
      var rest := DropHyphens(s[1..]);
      if s[0] == '-' then rest else [s[0]] + rest
  }

  /** `name.lower().replace(" ", "_").replace("-", "")`: the provider's audio
      directory name, with no spaces and no hyphens. */
  function AudioDirName(name: string): (d: string)
    ensures ' ' !in d && '-' !in d
  {
    DropHyphens(ReplaceSpaces(Lower(name)))
  }

  /** `output_dir / "audio" / <dir> / f"{sample_id}.wav"`, the one place both the
      sampler and the completeness test take the audio path from. */
  function AudioPath(outputDir: string, providerName: string, sampleId: string): string {
    outputDir + "/audio/" + AudioDirName(providerName) + "/" + sampleId + ".wav"
  }

  /** `benchmark_sample`: the language guard, `TotalRuns` calls, statistics over
      the measured successes, and the representative values of the last
      successful call. */
  function SampleOutcome(p: Provider, s: TextSample, cfg: RunConfig, sqrt: real -> real)
    : Result<BenchmarkResult, SampleError>
  {
    if LanguageRejected(p.config, s.language) then Err(UnsupportedLanguage(p.config.name, s.language))
    else
      var outs := Outcomes(p, s, TotalRuns(cfg));
      var latencies := MeasuredLatencies(outs, cfg.warmupRuns);
      if latencies == [] then Err(AllIterationsFailed(p.config.name, s.id))
      else
        Ok(SampleResult(p, s, cfg, latencies, MeasuredTtfbs(outs, cfg.warmupRuns), LastSuccess(outs), sqrt))
  }

  /** The result `benchmark_sample` builds from the measured latencies, the
      measured times to first byte and the last successful call. */
  function SampleResult(p: Provider, s: TextSample, cfg: RunConfig, latencies: seq<real>, ttfbs: seq<real>,
                        last: Option<TtsResult>, sqrt: real -> real): BenchmarkResult
    requires |latencies| > 0
  {
    BenchmarkResult(
      provider := p.config.name,
      sampleId := s.id,
      text := s.text,
      language := s.language,
      category := s.category.GetOr("general"),
      latencyStats := ComputeStats(latencies, ttfbs, sqrt),
      iterations := |latencies|,
      durationSeconds := if last.Some? then last.value.durationSeconds else 0.0,
      sampleRate := if last.Some? then last.value.sampleRate else 0,
      characters := |s.text|,
      realtimeFactor := if last.Some? then last.value.RealtimeFactor() else 0.0,
      charsPerSecond := if last.Some? then last.value.CharsPerSecond() else 0.0,
      costUsd := CostCalculator.CalculateCost(p.config.name, |s.text|),
      audioFile := AudioPath(cfg.outputDir, p.config.name, s.id))
  }

  /** What benchmarking one sample yields: the language guard raises exactly
      for a rejected language; otherwise the sample succeeds exactly when some
      measured call succeeded (failed calls are tolerated), and then its
      `iterations` is the number of measured calls that succeeded (at least
      one, at most the configured iterations), with its own identity, audio
      path and cost. */
  lemma SampleOutcomeSpec(p: Provider, s: TextSample, cfg: RunConfig, sqrt: real -> real)
    ensures var r := SampleOutcome(p, s, cfg, sqrt);
      && (r.Err? && r.error.UnsupportedLanguage? <==> LanguageRejected(p.config, s.language))
      && (!LanguageRejected(p.config, s.language) ==>
            (r.Ok? <==> exists i :: MeasuredOk(Outcomes(p, s, TotalRuns(cfg)), cfg.warmupRuns, i)))
      && (r.Ok? ==> 0 < r.value.iterations <= cfg.iterations
                    && r.value.iterations == |MeasuredOkCalls(Outcomes(p, s, TotalRuns(cfg)), cfg.warmupRuns)|)
      && (r.Ok? ==> r.value.sampleId == s.id && r.value.language == s.language
                    && r.value.provider == p.config.name
                    && r.value.audioFile == AudioPath(cfg.outputDir, p.config.name, s.id)
                    && r.value.characters == |s.text|
                    && r.value.costUsd == CostCalculator.CalculateCost(p.config.name, |s.text|)
                    && r.value.category == s.category.GetOr("general"))
  {
    MeasuredSlotsBound(cfg);
    MeasuredLatenciesSpec(Outcomes(p, s, TotalRuns(cfg)), cfg.warmupRuns);
  }

  /** The calls `benchmark_sample` issues: none when the language guard raises,
      otherwise exactly `TotalRuns` of them, failed ones included. */
  function SampleCalls(p: Provider, s: TextSample, cfg: RunConfig): (calls: seq<GenerateCall>)
    ensures |calls| == if LanguageRejected(p.config, s.language) then 0 else TotalRuns(cfg)
  {
    if LanguageRejected(p.config, s.language) then []
    else Repeat(GenerateCall(p.config.name, s.id), TotalRuns(cfg))
  }

  /** A sample whose language passes the guard but whose measured calls all
      failed raises and writes no audio. */
  lemma SampleFailed(p: Provider, s: TextSample, cfg: RunConfig, sqrt: real -> real)
    requires !LanguageRejected(p.config, s.language)
    requires MeasuredLatencies(Outcomes(p, s, TotalRuns(cfg)), cfg.warmupRuns) == []
    ensures SampleOutcome(p, s, cfg, sqrt) == Err(AllIterationsFailed(p.config.name, s.id))
    ensures SampleFiles(p, s, cfg, sqrt) == {}
  {
  }

  /** A sample with a measured success reports the result built from its
      measurements, and the audio of its last success is written. */
  lemma SampleSucceeded(p: Provider, s: TextSample, cfg: RunConfig, sqrt: real -> real)
    requires !LanguageRejected(p.config, s.language)
    requires MeasuredLatencies(Outcomes(p, s, TotalRuns(cfg)), cfg.warmupRuns) != []
    ensures var outs := Outcomes(p, s, TotalRuns(cfg));
      && LastSuccess(outs).Some?
      && SampleOutcome(p, s, cfg, sqrt)
         == Ok(SampleResult(p, s, cfg, MeasuredLatencies(outs, cfg.warmupRuns),
                            MeasuredTtfbs(outs, cfg.warmupRuns), LastSuccess(outs), sqrt))
      && SampleFiles(p, s, cfg, sqrt) == {AudioPath(cfg.outputDir, p.config.name, s.id)}
  {
    var outs := Outcomes(p, s, TotalRuns(cfg));
    var i :| 0 <= i < |outs| && i >= cfg.warmupRuns && outs[i].Ok?;
    LastSuccessSpec(outs);
  }

  /** `n` copies of `c`. */
  function Repeat(c: GenerateCall, n: nat): (cs: seq<GenerateCall>)
    ensures |cs| == n && forall i :: 0 <= i < n ==> cs[i] == c
  {
    seq(n, _ => c)
  }

  /** The audio file `benchmark_sample` writes: the last successful call's, when
      the sample succeeded. */
  function SampleFiles(p: Provider, s: TextSample, cfg: RunConfig, sqrt: real -> real): set<string> {
    if SampleOutcome(p, s, cfg, sqrt).Ok? then {AudioPath(cfg.outputDir, p.config.name, s.id)} else {}
  }

  /** `languages or ["en", "zh", "multilingual"]`. */
  function EffectiveLanguages(languages: Option<seq<string>>): (langs: seq<string>)
    ensures langs != []
  {
    if languages.Some? && languages.value != [] then languages.value else ["en", "zh", "multilingual"]
  }

  /** `[s for s in test_texts if s["language"] in languages]`. */
  function FilterByLanguage(samples: seq<TextSample>, langs: seq<string>): (r: seq<TextSample>)
    ensures forall s :: s in r ==> s in samples && s.language in langs
    ensures forall s :: s in samples && s.language in langs ==> s in r
    decreases |samples|
  {
    if samples == [] then []
    else
      var init := samples[..|samples| - 1];
      var last := samples[|samples| - 1];
      assert forall s :: s in samples ==> s in init || s == last;
      FilterByLanguage(init, langs) + (if last.language in langs then [last] else [])
  }

  predicate Supports(p: Provider, s: TextSample) {
    s.language in p.config.supportedLanguages
  }

  /** What one sample adds to a provider's results: its benchmark result when
      the provider supports its language and the benchmark succeeded, nothing
      otherwise. */
  function SampleResults(p: Provider, s: TextSample, cfg: RunConfig, sqrt: real -> real): seq<BenchmarkResult> {
    if Supports(p, s) && SampleOutcome(p, s, cfg, sqrt).Ok? then [SampleOutcome(p, s, cfg, sqrt).value] else []
  }

  /** The results a provider's run keeps: one per supported sample whose
      benchmark succeeded, in sample order. */
  function ProviderResults(p: Provider, samples: seq<TextSample>, cfg: RunConfig, sqrt: real -> real)
    : seq<BenchmarkResult>
  {
    ConcatMap(s => SampleResults(p, s, cfg, sqrt), samples)
  }

  /** Every kept result is the successful outcome of a supported sample. */
  lemma ResultsComeFromSupportedSamples(
    p: Provider, samples: seq<TextSample>, cfg: RunConfig, sqrt: real -> real, r: BenchmarkResult)
    requires r in ProviderResults(p, samples, cfg, sqrt)
    ensures exists s :: s in samples && Supports(p, s) && SampleOutcome(p, s, cfg, sqrt) == Ok(r)
  {
    var f := s => SampleResults(p, s, cfg, sqrt);
    ConcatMapMember(f, samples, r);
    var i :| 0 <= i < |samples| && r in f(samples[i]);
    assert r in SampleResults(p, samples[i], cfg, sqrt);
  }

  /** Every supported sample that succeeds leaves its result. */
  lemma SucceededSampleIsKept(
    p: Provider, samples: seq<TextSample>, cfg: RunConfig, sqrt: real -> real, s: TextSample)
    requires s in samples && Supports(p, s) && SampleOutcome(p, s, cfg, sqrt).Ok?
    ensures SampleOutcome(p, s, cfg, sqrt).value in ProviderResults(p, samples, cfg, sqrt)
  {
    var f := s => SampleResults(p, s, cfg, sqrt);
    var r := SampleOutcome(p, s, cfg, sqrt).value;
    assert r in f(s);
    var k :| 0 <= k < |samples| && samples[k] == s;
    ConcatMapMember(f, samples, r);
  }

  /** `f` applied to every element of `xs`, the results concatenated in order. */
  function ConcatMap<S, T>(f: S -> seq<T>, xs: seq<S>): seq<T>
    decreases |xs|
  {
    if xs == [] then [] else ConcatMap(f, xs[..|xs| - 1]) + f(xs[|xs| - 1])
  }

  lemma ConcatMapStep<S, T>(f: S -> seq<T>, xs: seq<S>, i: nat)
    requires i < |xs|
    ensures ConcatMap(f, xs[..i + 1]) == ConcatMap(f, xs[..i]) + f(xs[i])
  {
    assert xs[..i + 1][..i] == xs[..i];
  }

  /** An element is in the concatenation exactly when it is in the image of
      some element. */
  lemma {:induction false} ConcatMapMember<S, T>(f: S -> seq<T>, xs: seq<S>, x: T)
    ensures x in ConcatMap(f, xs) <==> exists i :: 0 <= i < |xs| && x in f(xs[i])
    decreases |xs|
  {
    if xs != [] {
      var init := xs[..|xs| - 1];
      ConcatMapMember(f, init, x);
      assert forall i :: 0 <= i < |init| ==> init[i] == xs[i];
      if x !in ConcatMap(f, xs) {
        assert forall i :: 0 <= i < |xs| ==> x !in f(xs[i]) by {
          forall i | 0 <= i < |xs| ensures x !in f(xs[i]) {
            if i < |init| { assert init[i] == xs[i]; }
          }
        }
      }
    }
  }

  /** The union of the images of the elements of `xs` under `f`. */
  function UnionMap<S, T>(f: S -> set<T>, xs: seq<S>): set<T>
    decreases |xs|
  {
    if xs == [] then {} else UnionMap(f, xs[..|xs| - 1]) + f(xs[|xs| - 1])
  }

  lemma UnionMapStep<S, T>(f: S -> set<T>, xs: seq<S>, i: nat)
    requires i < |xs|
    ensures UnionMap(f, xs[..i + 1]) == UnionMap(f, xs[..i]) + f(xs[i])
  {
    assert xs[..i + 1][..i] == xs[..i];
  }

  lemma {:induction false} UnionMapMember<S, T>(f: S -> set<T>, xs: seq<S>, i: nat, x: T)
    requires i < |xs| && x in f(xs[i])
    ensures x in UnionMap(f, xs)
    decreases |xs|
  {
    if i < |xs| - 1 {
      var init := xs[..|xs| - 1];
      assert init[i] == xs[i];
      UnionMapMember(f, init, i, x);
    }
  }

  /** Maps that agree on every element concatenate to the same sequence. */
  lemma {:induction false} ConcatMapAgree<S, T>(f: S -> seq<T>, g: S -> seq<T>, xs: seq<S>)
    requires forall i :: 0 <= i < |xs| ==> f(xs[i]) == g(xs[i])
    ensures ConcatMap(f, xs) == ConcatMap(g, xs)
    decreases |xs|
  {
    if xs != [] {
      var init := xs[..|xs| - 1];
      assert forall i :: 0 <= i < |init| ==> init[i] == xs[i];
      ConcatMapAgree(f, g, init);
    }
  }

  /** Maps that agree on every element have the same union. */
  lemma {:induction false} UnionMapAgree<S, T>(f: S -> set<T>, g: S -> set<T>, xs: seq<S>)
    requires forall i :: 0 <= i < |xs| ==> f(xs[i]) == g(xs[i])
    ensures UnionMap(f, xs) == UnionMap(g, xs)
    decreases |xs|
  {
    if xs != [] {
      var init := xs[..|xs| - 1];
      assert forall i :: 0 <= i < |init| ==> init[i] == xs[i];
      UnionMapAgree(f, g, init);
    }
  }

  /** The calls one sample costs a provider: none for an unsupported language. */
  function StepCalls(p: Provider, s: TextSample, cfg: RunConfig): seq<GenerateCall> {
    if Supports(p, s) then SampleCalls(p, s, cfg) else []
  }

  /** The audio files one sample leaves for a provider: none for an
      unsupported language. */
  function StepFiles(p: Provider, s: TextSample, cfg: RunConfig, sqrt: real -> real): set<string> {
    if Supports(p, s) then SampleFiles(p, s, cfg, sqrt) else {}
  }

  /** The calls a provider's run issues, sample by sample. */
  function ProviderCalls(p: Provider, samples: seq<TextSample>, cfg: RunConfig): seq<GenerateCall> {
    ConcatMap(s => StepCalls(p, s, cfg), samples)
  }

  /** The audio files a provider's run writes. */
  function ProviderFiles(p: Provider, samples: seq<TextSample>, cfg: RunConfig, sqrt: real -> real): set<string> {
    UnionMap(s => StepFiles(p, s, cfg, sqrt), samples)
  }

  /** One more sample adds its own results, calls and files to those before it. */
  lemma ProviderStep(p: Provider, samples: seq<TextSample>, i: nat, cfg: RunConfig, sqrt: real -> real)
    requires i < |samples|
    ensures ProviderResults(p, samples[..i + 1], cfg, sqrt)
         == ProviderResults(p, samples[..i], cfg, sqrt) + SampleResults(p, samples[i], cfg, sqrt)
    ensures ProviderCalls(p, samples[..i + 1], cfg) == ProviderCalls(p, samples[..i], cfg) + StepCalls(p, samples[i], cfg)
    ensures ProviderFiles(p, samples[..i + 1], cfg, sqrt)
         == ProviderFiles(p, samples[..i], cfg, sqrt) + StepFiles(p, samples[i], cfg, sqrt)
  {
    ConcatMapStep(s => SampleResults(p, s, cfg, sqrt), samples, i);
    ConcatMapStep(s => StepCalls(p, s, cfg), samples, i);
    UnionMapStep(s => StepFiles(p, s, cfg, sqrt), samples, i);
  }

  /** Every call a provider's run makes is made under that provider's name. */
  lemma ProviderCallsAreOwn(p: Provider, samples: seq<TextSample>, cfg: RunConfig, c: GenerateCall)
    requires c in ProviderCalls(p, samples, cfg)
    ensures c.provider == p.config.name
  {
    var f := s => StepCalls(p, s, cfg);
    ConcatMapMember(f, samples, c);
    var i :| 0 <= i < |samples| && c in f(samples[i]);
    assert c in StepCalls(p, samples[i], cfg);
  }

  /** The calls of a whole run: those of each provider that was not skipped, in
      provider order. */
  function RunCalls(providers: seq<(string, Provider)>, ran: seq<string>, samples: seq<TextSample>, cfg: RunConfig)
    : seq<GenerateCall>
  {
    ConcatMap(q => RunCallsOf(q, ran, samples, cfg), providers)
  }

  /** The calls one provider adds to a run: its own, unless it was skipped. */
  function RunCallsOf(q: (string, Provider), ran: seq<string>, samples: seq<TextSample>, cfg: RunConfig)
    : seq<GenerateCall>
  {
    if q.0 in ran then ProviderCalls(q.1, samples, cfg) else []
  }

  /** The audio files of a whole run. */
  function RunFiles(providers: seq<(string, Provider)>, ran: seq<string>, samples: seq<TextSample>,
                    cfg: RunConfig, sqrt: real -> real): set<string>
  {
    UnionMap(q => RunFilesOf(q, ran, samples, cfg, sqrt), providers)
  }

  function RunFilesOf(q: (string, Provider), ran: seq<string>, samples: seq<TextSample>,
                      cfg: RunConfig, sqrt: real -> real): set<string>
  {
    if q.0 in ran then ProviderFiles(q.1, samples, cfg, sqrt) else {}
  }

  /** A run calls only providers it did not skip. */
  lemma SkippedProvidersAreNotCalled(
    providers: seq<(string, Provider)>, ran: seq<string>, samples: seq<TextSample>, cfg: RunConfig, c: GenerateCall)
    requires c in RunCalls(providers, ran, samples, cfg)
    ensures exists i :: 0 <= i < |providers| && providers[i].0 in ran && c.provider == providers[i].1.config.name
  {
    var f := q => RunCallsOf(q, ran, samples, cfg);
    ConcatMapMember(f, providers, c);
    var i :| 0 <= i < |providers| && c in f(providers[i]);
    assert c in RunCallsOf(providers[i], ran, samples, cfg);
    ProviderCallsAreOwn(providers[i].1, samples, cfg, c);
  }

  /** One more provider adds its own calls and files, if it ran, to those before
      it; and what a run prefix did depends only on which of its own providers
      ran. */
  lemma RunStep(providers: seq<(string, Provider)>, i: nat, ran1: seq<string>, ran2: seq<string>,
                samples: seq<TextSample>, cfg: RunConfig, sqrt: real -> real)
    requires i < |providers|
    requires forall j :: 0 <= j < i ==> (providers[j].0 in ran1 <==> providers[j].0 in ran2)
    ensures RunCalls(providers[..i + 1], ran2, samples, cfg)
         == RunCalls(providers[..i], ran1, samples, cfg)
            + (if providers[i].0 in ran2 then ProviderCalls(providers[i].1, samples, cfg) else [])
    ensures RunFiles(providers[..i + 1], ran2, samples, cfg, sqrt)
         == RunFiles(providers[..i], ran1, samples, cfg, sqrt)
            + (if providers[i].0 in ran2 then ProviderFiles(providers[i].1, samples, cfg, sqrt) else {})
  {
    var prev := providers[..i];
    var c1, c2 := q => RunCallsOf(q, ran1, samples, cfg), q => RunCallsOf(q, ran2, samples, cfg);
    var f1, f2 := q => RunFilesOf(q, ran1, samples, cfg, sqrt), q => RunFilesOf(q, ran2, samples, cfg, sqrt);
    forall j | 0 <= j < |prev| ensures c1(prev[j]) == c2(prev[j]) && f1(prev[j]) == f2(prev[j]) {
      assert prev[j] == providers[j];
    }
    ConcatMapAgree(c1, c2, prev);
    UnionMapAgree(f1, f2, prev);
    ConcatMapStep(c2, providers, i);
    UnionMapStep(f2, providers, i);
  }


  datatype ProviderEntry = ProviderEntry(
    totalLatencyMeanMs: real,
    totalCostUsd: real,
    avgRealtimeFactor: real,
    languagesTested: seq<string>,
    results: seq<BenchmarkResult>)

  /** The persisted results file. */
  datatype Snapshot = Snapshot(timestamp: string, iterations: int, providers: map<string, ProviderEntry>)

  function ResultIds(results: seq<BenchmarkResult>): set<string> {
    set r | r in results :: r.sampleId
  }

  /** `_provider_has_complete_results`: the provider has an entry, and every
      sample in the requested languages that it supports has a persisted result
      and an audio file. Vacuously true when no sample qualifies. */
  predicate HasCompleteResults(existing: map<string, ProviderEntry>, files: set<string>, outputDir: string,
                               key: string, p: Provider, samples: seq<TextSample>, langs: seq<string>)
  {
    key in existing
    && forall i :: 0 <= i < |samples| && samples[i].language in langs && Supports(p, samples[i]) ==>
         samples[i].id in ResultIds(existing[key].results)
         && AudioPath(outputDir, p.config.name, samples[i].id) in files
  }

  /** Writing more audio files never makes a complete provider incomplete. */
  lemma CompleteMonotone(existing: map<string, ProviderEntry>, files: set<string>, more: set<string>,
                         outputDir: string, key: string, p: Provider, samples: seq<TextSample>, langs: seq<string>)
    requires files <= more
    requires HasCompleteResults(existing, files, outputDir, key, p, samples, langs)
    ensures HasCompleteResults(existing, more, outputDir, key, p, samples, langs)
  {
  }

  /** Removing one required audio file makes the provider incomplete. */
  lemma MissingAudioForcesRerun(existing: map<string, ProviderEntry>, files: set<string>, outputDir: string,
                                key: string, p: Provider, samples: seq<TextSample>, langs: seq<string>, i: nat)
    requires i < |samples| && samples[i].language in langs && Supports(p, samples[i])
    ensures !HasCompleteResults(existing, files - {AudioPath(outputDir, p.config.name, samples[i].id)},
                                outputDir, key, p, samples, langs)
  {
  }

  /** `save_results`: the loaded providers, overwritten key by key by this run's. */
  function Merge(loaded: map<string, ProviderEntry>, latest: map<string, ProviderEntry>): (m: map<string, ProviderEntry>)
    ensures m.Keys == loaded.Keys + latest.Keys
    ensures forall k :: k in latest ==> m[k] == latest[k]
    ensures forall k :: k in loaded && k !in latest ==> m[k] == loaded[k]
  {
    loaded + latest
  }

  /** Saving the same run twice yields the same providers. */
  lemma MergeIdempotent(loaded: map<string, ProviderEntry>, latest: map<string, ProviderEntry>)
    ensures Merge(Merge(loaded, latest), latest) == Merge(loaded, latest)
  {
  }

  function MeanLatencies(rs: seq<BenchmarkResult>): (ms: seq<real>)
    ensures |ms| == |rs|
  {
    seq(|rs|, i requires 0 <= i < |rs| => rs[i].latencyStats.meanMs)
  }

  function Costs(rs: seq<BenchmarkResult>): (cs: seq<real>)
    ensures |cs| == |rs|
  {
    seq(|rs|, i requires 0 <= i < |rs| => rs[i].costUsd)
  }

  function RealtimeFactors(rs: seq<BenchmarkResult>): (fs: seq<real>)
    ensures |fs| == |rs|
  {
    seq(|rs|, i requires 0 <= i < |rs| => rs[i].realtimeFactor)
  }

  function TotalCharacters(rs: seq<BenchmarkResult>): int
    decreases |rs|
  {
    if rs == [] then 0 else TotalCharacters(rs[..|rs| - 1]) + rs[|rs| - 1].characters
  }

  /** The results of one provider were all priced by the same table entry, so
      their summed cost is the cost of all their characters at once. */
  lemma {:induction false} TotalCostIsCostOfAllCharacters(name: string, rs: seq<BenchmarkResult>)
    requires forall r :: r in rs ==> r.costUsd == CostCalculator.CalculateCost(name, r.characters)
    ensures Sum(Costs(rs)) == CostCalculator.CalculateCost(name, TotalCharacters(rs))
    decreases |rs|
  {
    if rs != [] {
      var init := rs[..|rs| - 1];
      var last := rs[|rs| - 1];
      assert forall r :: r in init ==> r in rs;
      TotalCostIsCostOfAllCharacters(name, init);
      assert Costs(rs)[..|rs| - 1] == Costs(init);
      CostCalculator.CostLinear(name, TotalCharacters(init), last.characters);
    }
  }

  /** The distinct elements of a list, each once (`list(set(...))`). */
  function Distinct(xs: seq<string>): (ds: seq<string>)
    ensures forall x :: x in ds <==> x in xs
    ensures forall i, j :: 0 <= i < j < |ds| ==> ds[i] != ds[j]
    decreases |xs|
  {
    if xs == [] then []
    else
      var init := Distinct(xs[..|xs| - 1]);
      var last := xs[|xs| - 1];
      assert forall x :: x in xs ==> x in xs[..|xs| - 1] || x == last;
      if last in init then init else init + [last]
  }

  function Languages(rs: seq<BenchmarkResult>): (ls: seq<string>)
    ensures |ls| == |rs|
  {
    seq(|rs|, i requires 0 <= i < |rs| => rs[i].language)
  }

  /** Every supported sample that succeeds leaves a result under its id. */
  lemma SucceededSampleHasResult(
    p: Provider, samples: seq<TextSample>, cfg: RunConfig, sqrt: real -> real, s: TextSample)
    requires s in samples && Supports(p, s) && SampleOutcome(p, s, cfg, sqrt).Ok?
    ensures s.id in ResultIds(ProviderResults(p, samples, cfg, sqrt))
  {
    SucceededSampleIsKept(p, samples, cfg, sqrt, s);
    SampleOutcomeSpec(p, s, cfg, sqrt);
  }

  /** Every supported sample that succeeds leaves its audio file. */
  lemma SucceededSampleHasAudio(
    p: Provider, samples: seq<TextSample>, cfg: RunConfig, sqrt: real -> real, s: TextSample)
    requires s in samples && Supports(p, s) && SampleOutcome(p, s, cfg, sqrt).Ok?
    ensures AudioPath(cfg.outputDir, p.config.name, s.id) in ProviderFiles(p, samples, cfg, sqrt)
  {
    var f := s => StepFiles(p, s, cfg, sqrt);
    var k :| 0 <= k < |samples| && samples[k] == s;
    assert AudioPath(cfg.outputDir, p.config.name, s.id) in f(samples[k]);
    UnionMapMember(f, samples, k, AudioPath(cfg.outputDir, p.config.name, s.id));
  }


  /** A provider run whose every supported sample succeeded is found complete
      by the next run that loads what this one saved. */
  lemma CompletedRunIsSkippedNextTime(
    p: Provider, samples: seq<TextSample>, cfg: RunConfig, sqrt: real -> real,
    key: string, loaded: map<string, ProviderEntry>, entry: ProviderEntry, files: set<string>, langs: seq<string>)
    requires forall s :: s in samples && Supports(p, s) ==> SampleOutcome(p, s, cfg, sqrt).Ok?
    requires entry.results == ProviderResults(p, samples, cfg, sqrt)
    requires ProviderFiles(p, samples, cfg, sqrt) <= files
    ensures HasCompleteResults(Merge(loaded, map[key := entry]), files, cfg.outputDir, key, p, samples, langs)
  {
    var m := Merge(loaded, map[key := entry]);
    forall i | 0 <= i < |samples| && samples[i].language in langs && Supports(p, samples[i])
      ensures samples[i].id in ResultIds(m[key].results)
      ensures AudioPath(cfg.outputDir, p.config.name, samples[i].id) in files
    {
      SucceededSampleHasResult(p, samples, cfg, sqrt, samples[i]);
      SucceededSampleHasAudio(p, samples, cfg, sqrt, samples[i]);
    }
  }
}
