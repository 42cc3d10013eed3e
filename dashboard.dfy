/** The decisions the HTML dashboard makes before it renders anything: the
    traffic-light ratings and the rows of the comparison table, the grouping
    of the audio samples by sample and provider with their text previews and
    mode labels, and the rows of the cost table. The HTML and CSS text itself
    is left out; each table or section is modelled as the list of its rows. */
module Dashboard {
  import opened Wrappers
  import opened Text
  import opened BenchmarkModel
  import CostCalculator

  /** A rendered list, or the placeholder shown when it would be empty. */
  datatype Listing<T> = Items(items: seq<T>) | Placeholder(message: string)

  // ---------------------------------------------------------------------
  // Dictionaries whose iteration order matters, as sequences of pairs.

  function Keys<K, V>(d: seq<(K, V)>): (ks: seq<K>)
    ensures |ks| == |d|
    ensures forall i :: 0 <= i < |d| ==> ks[i] == d[i].0
  {
    seq(|d|, i requires 0 <= i < |d| => d[i].0)
  }

  predicate DistinctKeys<K(==), V>(d: seq<(K, V)>) {
    forall i, j :: 0 <= i < j < |d| ==> d[i].0 != d[j].0
  }

  /** `d.get(k)`. */
  function Lookup<K(==), V>(d: seq<(K, V)>, k: K): Option<V>
    decreases |d|
  {
    if d == [] then None
    else if d[0].0 == k then Some(d[0].1)
    else Lookup(d[1..], k)
  }

  /** A key is missing exactly when no pair has it, and a value found is
      paired with the key. */
  lemma {:induction false} LookupSpec<K, V>(d: seq<(K, V)>, k: K)
    ensures Lookup(d, k).None? <==> forall i :: 0 <= i < |d| ==> d[i].0 != k
    ensures Lookup(d, k).Some? ==> exists i :: 0 <= i < |d| && d[i] == (k, Lookup(d, k).value)
    decreases |d|
  {
    if d != [] && d[0].0 != k {
      LookupSpec(d[1..], k);
      assert forall i :: 0 < i < |d| ==> d[i] == d[1..][i - 1];
      if Lookup(d, k).Some? {
        var i :| 0 <= i < |d[1..]| && d[1..][i] == (k, Lookup(d, k).value);
        assert d[i + 1] == (k, Lookup(d, k).value);
      }
    }
  }

  /** `d[k] = v`: an existing key keeps its place, a new key goes last. */
  function Put<K(==), V>(d: seq<(K, V)>, k: K, v: V): (r: seq<(K, V)>)
    decreases |d|
  {
    if d == [] then [(k, v)]
    else if d[0].0 == k then [(k, v)] + d[1..]
    else [d[0]] + Put(d[1..], k, v)
  }

  /** Reading back after `d[k] = v`. */
  lemma {:induction false} PutLookup<K, V>(d: seq<(K, V)>, k: K, v: V, k': K)
    ensures Lookup(Put(d, k, v), k') == if k' == k then Some(v) else Lookup(d, k')
    decreases |d|
  {
    if d != [] && d[0].0 != k {
      PutLookup(d[1..], k, v, k');
      assert Put(d, k, v)[1..] == Put(d[1..], k, v);
    }
  }

  /** `d[k] = v` keeps the order of the keys, appending a new key. */
  lemma {:induction false} PutKeys<K, V>(d: seq<(K, V)>, k: K, v: V)
    ensures Keys(Put(d, k, v)) == if Lookup(d, k).Some? then Keys(d) else Keys(d) + [k]
    decreases |d|
  {
    if d != [] && d[0].0 != k {
      PutKeys(d[1..], k, v);
      assert Put(d, k, v) == [d[0]] + Put(d[1..], k, v);
      assert Keys([d[0]] + Put(d[1..], k, v)) == [d[0].0] + Keys(Put(d[1..], k, v));
      assert Keys(d) == [d[0].0] + Keys(d[1..]);
    } else if d != [] {
      assert Keys(Put(d, k, v)) == [k] + Keys(d[1..]);
      assert Keys(d) == [d[0].0] + Keys(d[1..]);
    }
  }

  /** A key set twice holds the second value. */
  lemma {:induction false} PutPut<K, V>(d: seq<(K, V)>, k: K, v1: V, v2: V)
    ensures Put(Put(d, k, v1), k, v2) == Put(d, k, v2)
    decreases |d|
  {
    if d != [] && d[0].0 != k {
      PutPut(d[1..], k, v1, v2);
    }
  }

  // ---------------------------------------------------------------------
  // Ratings.

  /** A traffic-light rating, best first. */
  datatype Rating = Green | Yellow | Red {
    function Rank(): nat {
      match this
      case Green => 0
      case Yellow => 1
      case Red => 2
    }
  }

  /** `_get_rating`: with `reverse`, small values are good (green up to `low`,
      yellow up to `high`); otherwise large values are good (green from
      `high`, yellow from `low`). */
  function GetRating(value: real, low: real, high: real, reverse: bool): Rating {
    if reverse then
      if value <= low then Green else if value <= high then Yellow else Red
    else
      if value >= high then Green else if value >= low then Yellow else Red
  }

  /** With well-ordered thresholds, a better value never gets a worse rating:
      smaller is better when reversed, larger otherwise. */
  lemma RatingMonotone(v1: real, v2: real, low: real, high: real)
    requires low <= high && v1 <= v2
    ensures GetRating(v1, low, high, true).Rank() <= GetRating(v2, low, high, true).Rank()
    ensures GetRating(v2, low, high, false).Rank() <= GetRating(v1, low, high, false).Rank()
  {
  }

  /** The reversed rating is the plain rating of the negated value against the
      negated, swapped thresholds. */
  lemma ReverseIsNegation(value: real, low: real, high: real)
    ensures GetRating(value, low, high, true) == GetRating(-value, -high, -low, false)
  {
  }

  /** The rating of a count of supported languages. */
  function LanguageRating(count: int): Rating {
    if count >= 20 then Green else if count >= 5 then Yellow else Red
  }

  /** The language rating is the plain rating against thresholds 5 and 20. */
  lemma LanguageRatingIsRating(count: int)
    ensures LanguageRating(count) == GetRating(count as real, 5.0, 20.0, false)
  {
  }

  // ---------------------------------------------------------------------
  // The display tables.

  /** `LANGUAGES_SUPPORTED`. */
  const LanguagesSupported: map<string, int> := map[
    "Azure TTS" := 140, "Azure Streaming" := 140,
    "ElevenLabs Standard" := 29, "ElevenLabs Turbo" := 29,
    "MiniMax" := 11, "MiniMax Streaming" := 11, "MiniMax PCM" := 11,
    "Qwen3-TTS" := 10, "Qwen3-TTS Streaming" := 10,
    "LuxTTS" := 1, "LuxTTS Streaming" := 1
  ]

  /** `KEY_TO_DISPLAY`. */
  const KeyToDisplay: map<string, string> := map[
    "azure" := "Azure TTS", "azure_streaming" := "Azure Streaming",
    "elevenlabs" := "ElevenLabs Standard", "elevenlabs_turbo" := "ElevenLabs Turbo",
    "qwen3" := "Qwen3-TTS", "qwen3_streaming" := "Qwen3-TTS Streaming",
    "minimax" := "MiniMax", "minimax_streaming" := "MiniMax Streaming",
    "minimax_pcm" := "MiniMax PCM",
    "luxtts" := "LuxTTS", "luxtts_streaming" := "LuxTTS Streaming"
  ]

  /** `KEY_TO_DISPLAY.get(key, key)`. */
  function DisplayName(key: string): (name: string)
    ensures key !in KeyToDisplay ==> name == key
  {
    if key in KeyToDisplay then KeyToDisplay[key] else key
  }

  /** `LANGUAGES_SUPPORTED.get(name, 0)`. */
  function LanguageCount(name: string): (n: int)
    ensures name !in LanguagesSupported ==> n == 0
  {
    if name in LanguagesSupported then LanguagesSupported[name] else 0
  }

  /** Every known key has a language count; a display name the table does
      not know counts 0 languages and is rated red. */
  lemma LanguageCountsCoverKeys(name: string)
    ensures forall key :: key in KeyToDisplay ==> KeyToDisplay[key] in LanguagesSupported
    ensures name !in LanguagesSupported ==> LanguageRating(LanguageCount(name)) == Red
  {
  }

  // ---------------------------------------------------------------------
  // The comparison table.

  /** One row of the comparison table. */
  datatype ComparisonRow = ComparisonRow(
    displayName: string,
    latencyMs: real, latencyRating: Rating,
    realtimeFactor: real, rtfRating: Rating,
    languageCount: int, languageRating: Rating)

  /** The row of one provider present in the results. */
  function RowFor(key: string, entry: ProviderEntry): ComparisonRow {
    var name := DisplayName(key);
    ComparisonRow(name,
      entry.totalLatencyMeanMs, GetRating(entry.totalLatencyMeanMs, 500.0, 1500.0, true),
      entry.avgRealtimeFactor, GetRating(entry.avgRealtimeFactor, 5.0, 20.0, false),
      LanguageCount(name), LanguageRating(LanguageCount(name)))
  }

  /** The rows `row` gives for the keys present in the results, in key order. */
  function PresentRows<R>(providers: seq<(string, ProviderEntry)>, keys: seq<string>,
                          row: (string, ProviderEntry) -> R): (rows: seq<R>)
    ensures |rows| <= |keys|
    decreases |keys|
  {
    if keys == [] then []
    else
      var key := keys[|keys| - 1];
      PresentRows(providers, keys[..|keys| - 1], row)
      + (match Lookup(providers, key) case Some(e) => [row(key, e)] case None => [])
  }

  /** The comparison rows of the keys present in the results, in key order. */
  function RowsFor(providers: seq<(string, ProviderEntry)>, keys: seq<string>): (rows: seq<ComparisonRow>) {
    PresentRows(providers, keys, RowFor)
  }

  /** The comparison table: the rows, or "No data available" when no key is
      present. */
  function ComparisonTable(providers: seq<(string, ProviderEntry)>, keys: seq<string>): Listing<ComparisonRow> {
    var rows := RowsFor(providers, keys);
    if rows == [] then Placeholder("No data available") else Items(rows)
  }

  /** `_generate_comparison_table`. */
  method GenerateComparisonTable(providers: seq<(string, ProviderEntry)>, keys: seq<string>)
    returns (table: Listing<ComparisonRow>)
    ensures table == ComparisonTable(providers, keys)
  {
    var rows: seq<ComparisonRow> := [];
    for i := 0 to |keys|
      invariant rows == RowsFor(providers, keys[..i])
    {
      assert keys[..i + 1][..i] == keys[..i];
      var key := keys[i];
      var entry := Lookup(providers, key);
      if entry.None? {
        continue;
      }
      var name := DisplayName(key);
      var latency := entry.value.totalLatencyMeanMs;
      var rtf := entry.value.avgRealtimeFactor;
      var langCount := LanguageCount(name);
      rows := rows + [ComparisonRow(name, latency, GetRating(latency, 500.0, 1500.0, true),
                                    rtf, GetRating(rtf, 5.0, 20.0, false),
                                    langCount, LanguageRating(langCount))];
    }
    assert keys[..|keys|] == keys;
    table := if rows == [] then Placeholder("No data available") else Items(rows);
  }

  /** Every row belongs to a requested key that the results hold, and every
      such key has a row; there are no rows exactly when no requested key is
      present. */
  lemma {:induction false} PresentRowsSpec<R>(providers: seq<(string, ProviderEntry)>, keys: seq<string>,
                                              row: (string, ProviderEntry) -> R)
    ensures forall r :: r in PresentRows(providers, keys, row) ==>
      exists i :: 0 <= i < |keys| && Lookup(providers, keys[i]).Some?
        && r == row(keys[i], Lookup(providers, keys[i]).value)
    ensures forall i :: 0 <= i < |keys| && Lookup(providers, keys[i]).Some? ==>
      row(keys[i], Lookup(providers, keys[i]).value) in PresentRows(providers, keys, row)
    ensures PresentRows(providers, keys, row) == [] <==> forall i :: 0 <= i < |keys| ==> Lookup(providers, keys[i]).None?
    decreases |keys|
  {
    if keys != [] {
      var n := |keys| - 1;
      var init := keys[..n];
      PresentRowsSpec(providers, init, row);
      assert forall i :: 0 <= i < n ==> init[i] == keys[i];
    }
  }

  /** The comparison rows: exactly those of the requested keys present. */
  lemma RowsForSpec(providers: seq<(string, ProviderEntry)>, keys: seq<string>)
    ensures forall r :: r in RowsFor(providers, keys) ==>
      exists i :: 0 <= i < |keys| && Lookup(providers, keys[i]).Some?
        && r == RowFor(keys[i], Lookup(providers, keys[i]).value)
    ensures forall i :: 0 <= i < |keys| && Lookup(providers, keys[i]).Some? ==>
      RowFor(keys[i], Lookup(providers, keys[i]).value) in RowsFor(providers, keys)
    ensures RowsFor(providers, keys) == [] <==> forall i :: 0 <= i < |keys| ==> Lookup(providers, keys[i]).None?
  {
    PresentRowsSpec(providers, keys, RowFor);
  }

  /** When every requested key is present, row `i` is the row of key `i`. */
  lemma {:induction false} PresentRowsInKeyOrder<R>(providers: seq<(string, ProviderEntry)>, keys: seq<string>,
                                                    row: (string, ProviderEntry) -> R)
    requires forall i :: 0 <= i < |keys| ==> Lookup(providers, keys[i]).Some?
    ensures |PresentRows(providers, keys, row)| == |keys|
    ensures forall i :: 0 <= i < |keys| ==>
      PresentRows(providers, keys, row)[i] == row(keys[i], Lookup(providers, keys[i]).value)
    decreases |keys|
  {
    if keys != [] {
      var n := |keys| - 1;
      var init := keys[..n];
      assert forall i :: 0 <= i < n ==> init[i] == keys[i];
      PresentRowsInKeyOrder(providers, init, row);
    }
  }

  /** When every requested key is present, comparison row `i` is the row of
      key `i`. */
  lemma RowsInKeyOrder(providers: seq<(string, ProviderEntry)>, keys: seq<string>)
    requires forall i :: 0 <= i < |keys| ==> Lookup(providers, keys[i]).Some?
    ensures |RowsFor(providers, keys)| == |keys|
    ensures forall i :: 0 <= i < |keys| ==>
      RowsFor(providers, keys)[i] == RowFor(keys[i], Lookup(providers, keys[i]).value)
  {
    PresentRowsInKeyOrder(providers, keys, RowFor);
  }

  // ---------------------------------------------------------------------
  // The audio section: grouping.

  /** What the audio section keeps of one result. */
  datatype AudioInfo = AudioInfo(provider: string, audioFile: string, latencyMs: real, text: string)

  /** The text shown for a sample: its first 100 characters and "..." when it
      is longer, otherwise all of it. */
  function Preview(text: string): string {
    if |text| > 100 then text[..100] + "..." else text
  }

  /** The preview starts with the text itself (all of it, or its first 100
      characters), is never longer than 103 characters, and is the whole text
      when that is short. */
  lemma PreviewSpec(text: string)
    ensures |text| <= 100 ==> Preview(text) == text
    ensures |text| > 100 ==>
      |Preview(text)| == 103 && Preview(text)[..100] == text[..100] && Preview(text)[100..] == "..."
    ensures |Preview(text)| <= 103
  {
  }

  function InfoOf(name: string, result: BenchmarkResult): AudioInfo {
    AudioInfo(name, result.audioFile, result.latencyStats.meanMs, Preview(result.text))
  }

  /** Results as the grouping loop visits them: provider by provider, each
      provider's results in order, paired with the provider key. */
  function ResultPairs(name: string, results: seq<BenchmarkResult>): (ps: seq<(string, BenchmarkResult)>)
    ensures |ps| == |results|
    ensures forall i :: 0 <= i < |results| ==> ps[i] == (name, results[i])
  {
    seq(|results|, i requires 0 <= i < |results| => (name, results[i]))
  }

  function AllPairs(providers: seq<(string, ProviderEntry)>): seq<(string, BenchmarkResult)>
    decreases |providers|
  {
    if providers == [] then []
    else
      var last := providers[|providers| - 1];
      AllPairs(providers[..|providers| - 1]) + ResultPairs(last.0, last.1.results)
  }

  /** Samples by id, then providers by key, each in first-seen order. */
  type Grouping = seq<(string, seq<(string, AudioInfo)>)>

  /** One step of the grouping loop. */
  function Insert(g: Grouping, p: (string, BenchmarkResult)): Grouping {
    var sid := p.1.sampleId;
    Put(g, sid, Put(Lookup(g, sid).GetOr([]), p.0, InfoOf(p.0, p.1)))
  }

  function GroupAll(ps: seq<(string, BenchmarkResult)>): Grouping
    decreases |ps|
  {
    if ps == [] then [] else Insert(GroupAll(ps[..|ps| - 1]), ps[|ps| - 1])
  }

  /** The entry of a provider for a sample, if any. */
  function EntryOf(g: Grouping, sid: string, name: string): Option<AudioInfo> {
    match Lookup(g, sid)
    case Some(inner) => Lookup(inner, name)
    case None => None
  }

  /** The last result of `name` for sample `sid`, as the reference for what
      the grouping keeps. */
  function LatestFor(ps: seq<(string, BenchmarkResult)>, sid: string, name: string): Option<AudioInfo>
    decreases |ps|
  {
    if ps == [] then None
    else
      var p := ps[|ps| - 1];
      if p.0 == name && p.1.sampleId == sid then Some(InfoOf(p.0, p.1))
      else LatestFor(ps[..|ps| - 1], sid, name)
  }

  /** The grouping keeps, for each sample and provider, the last result that
      provider has for that sample, and lists a sample exactly when some
      result has its id. */
  lemma {:induction false} GroupAllSpec(ps: seq<(string, BenchmarkResult)>, sid: string, name: string)
    ensures EntryOf(GroupAll(ps), sid, name) == LatestFor(ps, sid, name)
    ensures Lookup(GroupAll(ps), sid).Some? <==> exists i :: 0 <= i < |ps| && ps[i].1.sampleId == sid
    decreases |ps|
  {
    if ps != [] {
      var init := ps[..|ps| - 1];
      var p := ps[|ps| - 1];
      GroupAllSpec(init, sid, name);
      var g := GroupAll(init);
      var inner := Lookup(g, p.1.sampleId).GetOr([]);
      PutLookup(g, p.1.sampleId, Put(inner, p.0, InfoOf(p.0, p.1)), sid);
      PutLookup(inner, p.0, InfoOf(p.0, p.1), name);
      assert forall i :: 0 <= i < |init| ==> init[i] == ps[i];
    }
  }

  /** No sample id and no provider key is listed twice. */
  lemma {:induction false} GroupAllDistinct(ps: seq<(string, BenchmarkResult)>)
    ensures DistinctKeys(GroupAll(ps))
    ensures forall i :: 0 <= i < |GroupAll(ps)| ==> DistinctKeys(GroupAll(ps)[i].1)
    decreases |ps|
  {
    if ps != [] {
      var init := ps[..|ps| - 1];
      var p := ps[|ps| - 1];
      GroupAllDistinct(init);
      var g := GroupAll(init);
      var inner := Lookup(g, p.1.sampleId).GetOr([]);
      LookupSpec(g, p.1.sampleId);
      if Lookup(g, p.1.sampleId).Some? {
        var k :| 0 <= k < |g| && g[k] == (p.1.sampleId, inner);
      }
      assert DistinctKeys(inner);
      var inner' := Put(inner, p.0, InfoOf(p.0, p.1));
      PutDistinct(inner, p.0, InfoOf(p.0, p.1));
      PutDistinct(g, p.1.sampleId, inner');
      PutElements(g, p.1.sampleId, inner');
      var g' := Put(g, p.1.sampleId, inner');
      forall i | 0 <= i < |g'|
        ensures DistinctKeys(g'[i].1)
      {
        assert g'[i] in g';
        if g'[i] != (p.1.sampleId, inner') {
          var k :| 0 <= k < |g| && g[k] == g'[i];
        }
      }
    }
  }

  /** `d[k] = v` keeps the keys distinct. */
  lemma PutDistinct<K, V>(d: seq<(K, V)>, k: K, v: V)
    requires DistinctKeys(d)
    ensures DistinctKeys(Put(d, k, v))
  {
    PutKeys(d, k, v);
    LookupSpec(d, k);
    var r := Put(d, k, v);
    var ks, ds := Keys(r), Keys(d);
    forall i, j | 0 <= i < j < |r|
      ensures r[i].0 != r[j].0
    {
      assert ks[i] == r[i].0 && ks[j] == r[j].0;
      assert ks[i] == ds[i] == d[i].0;
      if j < |d| {
        assert ks[j] == ds[j] == d[j].0;
      } else {
        assert ks[j] == k;
      }
    }
  }

  /** After `d[k] = v` every element is an old one or `(k, v)`. */
  lemma {:induction false} PutElements<K, V>(d: seq<(K, V)>, k: K, v: V)
    ensures forall x :: x in Put(d, k, v) ==> x in d || x == (k, v)
    decreases |d|
  {
    if d != [] && d[0].0 != k {
      PutElements(d[1..], k, v);
    }
  }

  /** The body of the grouping loop for one result of provider `name`: the
      sample gets an empty entry when it is new, then the provider's entry
      for it is set. */
  method AddResult(samples: Grouping, name: string, result: BenchmarkResult) returns (samples': Grouping)
    ensures samples' == Insert(samples, (name, result))
  {
    var sid := result.sampleId;
    samples' := samples;
    if Lookup(samples', sid).None? {
      samples' := Put(samples', sid, []);
      PutLookup(samples, sid, [], sid);
    }
    var inner := Lookup(samples', sid).value;
    assert inner == Lookup(samples, sid).GetOr([]);
    samples' := Put(samples', sid, Put(inner, name, InfoOf(name, result)));
    if Lookup(samples, sid).None? {
      PutPut(samples, sid, [], Put(inner, name, InfoOf(name, result)));
    }
  }

  /** `samples_by_id` as the grouping loop builds it. */
  method GroupBySample(providers: seq<(string, ProviderEntry)>) returns (samples: Grouping)
    ensures samples == GroupAll(AllPairs(providers))
  {
    samples := [];
    for i := 0 to |providers|
      invariant samples == GroupAll(AllPairs(providers[..i]))
    {
      assert providers[..i + 1][..i] == providers[..i];
      var (name, data) := providers[i];
      samples := AddProviderResults(samples, AllPairs(providers[..i]), name, data.results);
    }
    assert providers[..|providers|] == providers;
  }

  /** The inner loop of the grouping: one provider's results, in order. */
  method AddProviderResults(samples: Grouping, ghost done: seq<(string, BenchmarkResult)>,
                            name: string, results: seq<BenchmarkResult>) returns (samples': Grouping)
    requires samples == GroupAll(done)
    ensures samples' == GroupAll(done + ResultPairs(name, results))
  {
    samples' := samples;
    assert done + ResultPairs(name, results[..0]) == done;
    for j := 0 to |results|
      invariant samples' == GroupAll(done + ResultPairs(name, results[..j]))
    {
      ghost var ps := done + ResultPairs(name, results[..j + 1]);
      assert ps[..|ps| - 1] == done + ResultPairs(name, results[..j]);
      assert ps[|ps| - 1] == (name, results[j]);
      samples' := AddResult(samples', name, results[j]);
    }
    assert results[..|results|] == results;
  }


  // ---------------------------------------------------------------------
  // The audio section: cards, groups and sections.

  /** How a provider's card is badged. */
  datatype Mode = PcmStreaming | Streaming | NonStreaming {
    function Label(): string {
      match this
      case PcmStreaming => "PCM Streaming"
      case Streaming => "Streaming"
      case NonStreaming => "Non-Streaming"
    }
  }

  /** The mode named by the provider key: "pcm" first, then "streaming" or
      "turbo". */
  function ModeOf(key: string): Mode {
    if Contains(key, "pcm") then PcmStreaming
    else if Contains(key, "streaming") || Contains(key, "turbo") then Streaming
    else NonStreaming
  }

  /** One audio card. The audio itself (read from `audioFile` and embedded)
      is outside the model. */
  datatype Card = Card(providerKey: string, displayName: string, mode: Mode, audioFile: string, latencyMs: real)

  /** One provider group of a sample. */
  datatype GroupRow = GroupRow(groupName: string, cards: seq<Card>)

  /** One sample's section. */
  datatype Section = Section(sampleId: string, textPreview: string, groups: seq<GroupRow>)

  function CardFor(key: string, info: AudioInfo): Card {
    Card(key, DisplayName(key), ModeOf(key), info.audioFile, info.latencyMs)
  }

  /** `[p for p in keys if p in sample_providers]`, each with its entry. */
  function AvailableIn(keys: seq<string>, inner: seq<(string, AudioInfo)>): seq<(string, AudioInfo)>
    decreases |keys|
  {
    if keys == [] then []
    else
      var key := keys[|keys| - 1];
      AvailableIn(keys[..|keys| - 1], inner)
      + (match Lookup(inner, key) case Some(info) => [(key, info)] case None => [])
  }

  /** A key is available exactly when the group names it and the sample has
      an entry for it. */
  lemma {:induction false} AvailableInSpec(keys: seq<string>, inner: seq<(string, AudioInfo)>)
    ensures forall x :: x in AvailableIn(keys, inner) <==> x.0 in keys && Lookup(inner, x.0) == Some(x.1)
    ensures AvailableIn(keys, inner) == [] <==> forall k :: k in keys ==> Lookup(inner, k).None?
    decreases |keys|
  {
    if keys != [] {
      var init := keys[..|keys| - 1];
      var key := keys[|keys| - 1];
      var last := match Lookup(inner, key) case Some(info) => [(key, info)] case None => [];
      assert AvailableIn(keys, inner) == AvailableIn(init, inner) + last;
      AvailableInSpec(init, inner);
      assert keys == init + [key];
    }
  }

  function CardsOf(available: seq<(string, AudioInfo)>): (cards: seq<Card>)
    ensures |cards| == |available|
    ensures forall i :: 0 <= i < |available| ==> cards[i] == CardFor(available[i].0, available[i].1)
  {
    seq(|available|, i requires 0 <= i < |available| => CardFor(available[i].0, available[i].1))
  }

  /** The group rows of one sample: a group none of whose providers has an
      entry for the sample is left out. */
  function GroupRowsFor(groups: seq<(string, seq<string>)>, inner: seq<(string, AudioInfo)>): seq<GroupRow>
    decreases |groups|
  {
    if groups == [] then []
    else
      var group := groups[|groups| - 1];
      var available := AvailableIn(group.1, inner);
      GroupRowsFor(groups[..|groups| - 1], inner)
      + (if available == [] then [] else [GroupRow(group.0, CardsOf(available))])
  }

  /** The text shown for a sample: that of its first provider's entry. */
  function TextPreview(inner: seq<(string, AudioInfo)>): string {
    if inner != [] then inner[0].1.text else ""
  }

  /** The sections of the grouped samples, in sample order; a sample with no
      group row is left out. */
  function SectionsFor(samples: Grouping, groups: seq<(string, seq<string>)>): seq<Section>
    decreases |samples|
  {
    if samples == [] then []
    else
      var sample := samples[|samples| - 1];
      var rows := GroupRowsFor(groups, sample.1);
      SectionsFor(samples[..|samples| - 1], groups)
      + (if rows == [] then [] else [Section(sample.0, TextPreview(sample.1), rows)])
  }

  /** The audio section: the sections, or "No audio samples available". */
  function AudioSection(providers: seq<(string, ProviderEntry)>, groups: seq<(string, seq<string>)>): Listing<Section> {
    var sections := SectionsFor(GroupAll(AllPairs(providers)), groups);
    if sections == [] then Placeholder("No audio samples available") else Items(sections)
  }

  /** The group rows of one sample, as the loop over the groups builds them. */
  method GroupRowsOf(groups: seq<(string, seq<string>)>, inner: seq<(string, AudioInfo)>) returns (rows: seq<GroupRow>)
    ensures rows == GroupRowsFor(groups, inner)
  {
    rows := [];
    for g := 0 to |groups|
      invariant rows == GroupRowsFor(groups[..g], inner)
    {
      GroupRowsForStep(groups, g, inner);
      var (groupName, groupKeys) := groups[g];
      var available := AvailableIn(groupKeys, inner);
      if available == [] {
        continue;
      }
      var cards := BuildCards(available);
      rows := rows + [GroupRow(groupName, cards)];
    }
    assert groups[..|groups|] == groups;
  }

  /** The card loop of one group: one card per available provider, in order. */
  method BuildCards(available: seq<(string, AudioInfo)>) returns (cards: seq<Card>)
    ensures cards == CardsOf(available)
  {
    cards := [];
    for c := 0 to |available|
      invariant cards == CardsOf(available[..c])
    {
      var (key, info) := available[c];
      cards := cards + [Card(key, DisplayName(key), ModeOf(key), info.audioFile, info.latencyMs)];
    }
    assert available[..|available|] == available;
  }

  lemma GroupRowsForStep(groups: seq<(string, seq<string>)>, g: nat, inner: seq<(string, AudioInfo)>)
    requires g < |groups|
    ensures var available := AvailableIn(groups[g].1, inner);
      GroupRowsFor(groups[..g + 1], inner)
      == GroupRowsFor(groups[..g], inner) + (if available == [] then [] else [GroupRow(groups[g].0, CardsOf(available))])
  {
    assert groups[..g + 1][..g] == groups[..g];
  }


  /** `_generate_audio_section`. */
  method GenerateAudioSection(providers: seq<(string, ProviderEntry)>, groups: seq<(string, seq<string>)>)
    returns (section: Listing<Section>)
    ensures section == AudioSection(providers, groups)
  {
    var samples := GroupBySample(providers);
    var sections: seq<Section> := [];
    for i := 0 to |samples|
      invariant sections == SectionsFor(samples[..i], groups)
    {
      assert samples[..i + 1][..i] == samples[..i];
      var sampleId := samples[i].0;
      var sampleProviders: seq<(string, AudioInfo)> := samples[i].1;
      var preview := if sampleProviders != [] then sampleProviders[0].1.text else "";
      var rows := GroupRowsOf(groups, sampleProviders);
      if rows != [] {
        sections := sections + [Section(sampleId, preview, rows)];
      }
    }
    assert samples[..|samples|] == samples;
    section := if sections == [] then Placeholder("No audio samples available") else Items(sections);
  }

  /** Every group row lists at least one card, and each card belongs to a
      provider of its group that has an entry for the sample. */
  lemma {:induction false} GroupRowsSound(groups: seq<(string, seq<string>)>, inner: seq<(string, AudioInfo)>)
    ensures forall r :: r in GroupRowsFor(groups, inner) ==> r.cards != []
    ensures forall r :: r in GroupRowsFor(groups, inner) ==>
      exists g :: 0 <= g < |groups| && r.groupName == groups[g].0
        && forall c :: c in r.cards ==> c.providerKey in groups[g].1 && Lookup(inner, c.providerKey).Some?
    decreases |groups|
  {
    if groups != [] {
      var init := groups[..|groups| - 1];
      var group := groups[|groups| - 1];
      GroupRowsSound(init, inner);
      AvailableInSpec(group.1, inner);
      var available := AvailableIn(group.1, inner);
      assert forall g :: 0 <= g < |init| ==> init[g] == groups[g];
      if available != [] {
        var row := GroupRow(group.0, CardsOf(available));
        forall c | c in row.cards
          ensures c.providerKey in group.1 && Lookup(inner, c.providerKey).Some?
        {
          var i :| 0 <= i < |available| && row.cards[i] == c;
          assert available[i] in available;
        }
      }
    }
  }

  /** A sample has no group row exactly when none of the grouped providers
      has an entry for it. */
  lemma {:induction false} GroupRowsEmpty(groups: seq<(string, seq<string>)>, inner: seq<(string, AudioInfo)>)
    ensures GroupRowsFor(groups, inner) == [] <==>
      forall g, k :: 0 <= g < |groups| && k in groups[g].1 ==> Lookup(inner, k).None?
    decreases |groups|
  {
    if groups != [] {
      var init := groups[..|groups| - 1];
      var group := groups[|groups| - 1];
      GroupRowsEmpty(init, inner);
      AvailableInSpec(group.1, inner);
      var available := AvailableIn(group.1, inner);
      assert forall g :: 0 <= g < |init| ==> init[g] == groups[g];
      if available != [] {
        var x := available[0];
        assert x in available;
        assert x.0 in groups[|groups| - 1].1 && Lookup(inner, x.0).Some?;
        assert GroupRowsFor(groups, inner)[|GroupRowsFor(groups, inner)| - 1] == GroupRow(group.0, CardsOf(available));
      }
    }
  }

  /** Every section belongs to a grouped sample and shows that sample's
      group rows, of which it has at least one; and every sample with a
      group row has a section. */
  lemma {:induction false} SectionsSpec(samples: Grouping, groups: seq<(string, seq<string>)>)
    ensures forall sec :: sec in SectionsFor(samples, groups) ==>
      sec.groups != [] && exists i :: 0 <= i < |samples| && sec == Section(samples[i].0, TextPreview(samples[i].1), GroupRowsFor(groups, samples[i].1))
    ensures forall i :: 0 <= i < |samples| && GroupRowsFor(groups, samples[i].1) != [] ==>
      Section(samples[i].0, TextPreview(samples[i].1), GroupRowsFor(groups, samples[i].1)) in SectionsFor(samples, groups)
    decreases |samples|
  {
    if samples != [] {
      var init := samples[..|samples| - 1];
      SectionsSpec(init, groups);
      assert forall i :: 0 <= i < |init| ==> init[i] == samples[i];
      var last := |samples| - 1;
      assert samples[last] == samples[|samples| - 1];
    }
  }

  /** A key in which none of "pcm", "streaming" and "turbo" can begin is
      badged as non-streaming. */
  lemma UnmarkedKeyIsNonStreaming(key: string)
    requires CannotStart(key, "pcm") && CannotStart(key, "streaming") && CannotStart(key, "turbo")
    ensures ModeOf(key) == NonStreaming
  {
    CannotStartNotContained(key, "pcm");
    CannotStartNotContained(key, "streaming");
    CannotStartNotContained(key, "turbo");
  }

  /** A key holding `marker` ("streaming" or "turbo") at `at`, and in which
      "pcm" cannot begin, is badged as streaming. */
  lemma MarkedKeyIsStreaming(key: string, marker: string, at: nat)
    requires marker == "streaming" || marker == "turbo"
    requires at + |marker| <= |key| && key[at..at + |marker|] == marker
    requires CannotStart(key, "pcm")
    ensures ModeOf(key) == Streaming
  {
    CannotStartNotContained(key, "pcm");
    ContainsAt(key, marker, at);
  }

  /** The badges of the eleven providers the dashboard lists
      (`COMMERCIAL_PROVIDERS` and `OPENSOURCE_PROVIDERS`): the plain keys are
      non-streaming, the "_streaming" and "_turbo" keys are streaming, and
      "minimax_pcm" is PCM streaming. */
  lemma ListedProviderModes()
    ensures ModeOf("azure") == NonStreaming
    ensures ModeOf("azure_streaming") == Streaming
    ensures ModeOf("elevenlabs") == NonStreaming
    ensures ModeOf("elevenlabs_turbo") == Streaming
    ensures ModeOf("minimax") == NonStreaming
    ensures ModeOf("minimax_streaming") == Streaming
    ensures ModeOf("minimax_pcm") == PcmStreaming
    ensures ModeOf("qwen3") == NonStreaming
    ensures ModeOf("qwen3_streaming") == Streaming
    ensures ModeOf("luxtts") == NonStreaming
    ensures ModeOf("luxtts_streaming") == Streaming
  {
    UnmarkedListedKeys();
    assert ModeOf(UnmarkedKeys[0]) == NonStreaming && ModeOf(UnmarkedKeys[1]) == NonStreaming;
    assert ModeOf(UnmarkedKeys[2]) == NonStreaming && ModeOf(UnmarkedKeys[3]) == NonStreaming;
    assert ModeOf(UnmarkedKeys[4]) == NonStreaming;
    ModeOfAzureStreaming();
    ModeOfElevenlabsTurbo();
    ModeOfMinimaxStreaming();
    ModeOfMinimaxPcm();
    ModeOfQwen3Streaming();
    ModeOfLuxttsStreaming();
  }

  /** The five plain keys among the listed providers. */
  const UnmarkedKeys: seq<string> := ["azure", "elevenlabs", "minimax", "qwen3", "luxtts"]

  /** The plain listed keys, where no marker can begin, are badged as
      non-streaming. */
  lemma UnmarkedListedKeys()
    ensures forall k :: 0 <= k < |UnmarkedKeys| ==> ModeOf(UnmarkedKeys[k]) == NonStreaming
  {
    forall k | 0 <= k < |UnmarkedKeys| ensures ModeOf(UnmarkedKeys[k]) == NonStreaming {
      UnmarkedKeyIsNonStreaming(UnmarkedKeys[k]);
    }
  }

  lemma ModeOfAzureStreaming()
    ensures ModeOf("azure_streaming") == Streaming
  {
    MarkedKeyIsStreaming("azure_streaming", "streaming", 6);
  }

  lemma ModeOfElevenlabsTurbo()
    ensures ModeOf("elevenlabs_turbo") == Streaming
  {
    MarkedKeyIsStreaming("elevenlabs_turbo", "turbo", 11);
  }

  lemma ModeOfMinimaxStreaming()
    ensures ModeOf("minimax_streaming") == Streaming
  {
    MarkedKeyIsStreaming("minimax_streaming", "streaming", 8);
  }

  lemma ModeOfMinimaxPcm()
    ensures ModeOf("minimax_pcm") == PcmStreaming
  {
    ContainsAt("minimax_pcm", "pcm", 8);
  }

  lemma ModeOfQwen3Streaming()
    ensures ModeOf("qwen3_streaming") == Streaming
  {
    MarkedKeyIsStreaming("qwen3_streaming", "streaming", 6);
  }

  lemma ModeOfLuxttsStreaming()
    ensures ModeOf("luxtts_streaming") == Streaming
  {
    MarkedKeyIsStreaming("luxtts_streaming", "streaming", 7);
  }

  // ---------------------------------------------------------------------
  // The cost table.

  const CommercialNames: seq<string> := [
    "Azure TTS", "Azure Streaming", "ElevenLabs Standard", "ElevenLabs Turbo",
    "MiniMax", "MiniMax Streaming", "MiniMax PCM"
  ]
  const OpensourceNames: seq<string> := ["Qwen3-TTS", "Qwen3-TTS Streaming", "LuxTTS"]

  /** The names a provider type keeps; any other type keeps all. */
  function FilterNames(providerType: string): Option<seq<string>> {
    if providerType == "commercial" then Some(CommercialNames)
    else if providerType == "opensource" then Some(OpensourceNames)
    else None
  }

  /** The names of `names` that the filter keeps, in order. */
  function Kept(names: seq<string>, filter: Option<seq<string>>): seq<string>
    decreases |names|
  {
    if names == [] then []
    else
      var name := names[|names| - 1];
      Kept(names[..|names| - 1], filter)
      + (if filter.Some? && filter.value != [] && name !in filter.value then [] else [name])
  }

  /** One row of the cost table. */
  datatype CostRow = CostRow(name: string, monthly100k: real, monthly500k: real, monthly1m: real, notes: string)

  function CostRowFor(name: string): CostRow {
    var proj := CostCalculator.GetProjection(name);
    CostRow(name, proj.monthly100k, proj.monthly500k, proj.monthly1m, proj.notes)
  }

  function CostRowsOf(names: seq<string>): (rows: seq<CostRow>)
    ensures |rows| == |names|
    ensures forall i :: 0 <= i < |names| ==> rows[i] == CostRowFor(names[i])
  {
    seq(|names|, i requires 0 <= i < |names| => CostRowFor(names[i]))
  }

  /** The cost table of a provider type. */
  function CostTable(providerType: string): Listing<CostRow> {
    var names := Kept(CostCalculator.TableOrder, FilterNames(providerType));
    if names == [] then Placeholder("No data available") else Items(CostRowsOf(names))
  }

  /** The loop of `_generate_cost_table` over the projections, in table
      order. */
  method CostRowsLoop(order: seq<string>, filter: Option<seq<string>>, projections: map<string, CostCalculator.CostProjection>)
    returns (rows: seq<CostRow>)
    requires forall name :: name in order ==> name in projections && projections[name] == CostCalculator.GetProjection(name)
    ensures rows == CostRowsOf(Kept(order, filter))
  {
    ghost var names: seq<string> := [];
    rows := [];
    for i := 0 to |order|
      invariant names == Kept(order[..i], filter)
      invariant rows == CostRowsOf(names)
    {
      assert order[..i + 1][..i] == order[..i];
      var name := order[i];
      if filter.Some? && filter.value != [] && name !in filter.value {
        continue;
      }
      var proj := projections[name];
      rows := rows + [CostRow(name, proj.monthly100k, proj.monthly500k, proj.monthly1m, proj.notes)];
      names := names + [name];
    }
    assert order[..|order|] == order;
  }

  /** `_generate_cost_table`. */
  method GenerateCostTable(providerType: string) returns (table: Listing<CostRow>)
    ensures table == CostTable(providerType)
  {
    CostCalculator.TablesWellFormed();
    var projections := CostCalculator.GetAllProjections();
    var rows := CostRowsLoop(CostCalculator.TableOrder, FilterNames(providerType), projections);
    table := if rows == [] then Placeholder("No data available") else Items(rows);
  }

  lemma {:induction false} KeptAppend(a: seq<string>, b: seq<string>, filter: Option<seq<string>>)
    ensures Kept(a + b, filter) == Kept(a, filter) + Kept(b, filter)
    decreases |b|
  {
    if b == [] {
      assert a + b == a;
    } else {
      var b' := b[..|b| - 1];
      assert (a + b)[..|a + b| - 1] == a + b';
      assert (a + b)[|a + b| - 1] == b[|b| - 1];
      KeptAppend(a, b', filter);
    }
  }

  /** The filter keeps every name it lists, in order, and drops every name it
      does not; without a filter every name is kept. */
  lemma KeptSpec(names: seq<string>, filter: Option<seq<string>>)
    ensures filter.None? ==> Kept(names, filter) == names
    ensures filter.Some? && (forall i :: 0 <= i < |names| ==> names[i] in filter.value) ==> Kept(names, filter) == names
    ensures filter.Some? && filter.value != [] && (forall i :: 0 <= i < |names| ==> names[i] !in filter.value) ==>
      Kept(names, filter) == []
  {
    if filter.None? || forall i :: 0 <= i < |names| ==> names[i] in filter.value {
      KeptAllListed(names, filter);
    }
    if filter.Some? && filter.value != [] && forall i :: 0 <= i < |names| ==> names[i] !in filter.value {
      KeptNoneListed(names, filter);
    }
  }

  /** Names that the filter lists, or all names when there is no filter, are
      all kept. */
  lemma {:induction false} KeptAllListed(names: seq<string>, filter: Option<seq<string>>)
    requires filter.None? || forall i :: 0 <= i < |names| ==> names[i] in filter.value
    ensures Kept(names, filter) == names
    decreases |names|
  {
    if names != [] {
      var init := names[..|names| - 1];
      assert forall i :: 0 <= i < |init| ==> init[i] == names[i];
      KeptAllListed(init, filter);
    }
  }

  /** Names that a non-empty filter does not list are all dropped. */
  lemma {:induction false} KeptNoneListed(names: seq<string>, filter: Option<seq<string>>)
    requires filter.Some? && filter.value != []
    requires forall i :: 0 <= i < |names| ==> names[i] !in filter.value
    ensures Kept(names, filter) == []
    decreases |names|
  {
    if names != [] {
      var init := names[..|names| - 1];
      assert forall i :: 0 <= i < |init| ==> init[i] == names[i];
      KeptNoneListed(init, filter);
    }
  }

  /** The two type filters split the price table: the commercial names
      followed by the open-source names are exactly its entries in order. */
  lemma FiltersPartitionTable()
    ensures CommercialNames + OpensourceNames == CostCalculator.TableOrder
    ensures forall i :: 0 <= i < |OpensourceNames| ==> OpensourceNames[i] !in CommercialNames
    ensures forall i :: 0 <= i < |CommercialNames| ==> CommercialNames[i] !in OpensourceNames
  {
  }

  /** The commercial table lists the seven commercial names in price-table
      order. */
  lemma CommercialTable()
    ensures Kept(CostCalculator.TableOrder, FilterNames("commercial")) == CommercialNames
  {
    FiltersPartitionTable();
    var f := FilterNames("commercial");
    KeptAppend(CommercialNames, OpensourceNames, f);
    KeptAllListed(CommercialNames, f);
    KeptNoneListed(OpensourceNames, f);
  }

  /** The open-source table lists the three open-source names in price-table
      order. */
  lemma OpensourceTable()
    ensures Kept(CostCalculator.TableOrder, FilterNames("opensource")) == OpensourceNames
  {
    FiltersPartitionTable();
    var f := FilterNames("opensource");
    KeptAppend(CommercialNames, OpensourceNames, f);
    KeptNoneListed(CommercialNames, f);
    KeptAllListed(OpensourceNames, f);
  }

  /** Any other type lists every provider of the price table, so its table
      is the commercial table followed by the open-source one. */
  lemma OtherTypeListsAll(other: string)
    requires other != "commercial" && other != "opensource"
    ensures Kept(CostCalculator.TableOrder, FilterNames(other)) == CostCalculator.TableOrder
    ensures CostTable(other) == Items(CostRowsOf(CommercialNames) + CostRowsOf(OpensourceNames))
  {
    KeptAllListed(CostCalculator.TableOrder, FilterNames(other));
    FiltersPartitionTable();
    assert CostRowsOf(CommercialNames + OpensourceNames) == CostRowsOf(CommercialNames) + CostRowsOf(OpensourceNames);
  }
}
