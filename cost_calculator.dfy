/** The cost estimator: a fixed price table (US dollars per million characters)
    with a note per provider mode, the linear cost of a request, projections at
    three monthly volumes, and the Markdown comparison table. */
module CostCalculator {
  import Base

  /** The keys of `PRICING` (and of `NOTES`) in the dictionaries' own order. */
  const TableOrder: seq<string> := [
    "Azure TTS", "Azure Streaming", "ElevenLabs Standard", "ElevenLabs Turbo",
    "MiniMax", "MiniMax Streaming", "MiniMax PCM", "Qwen3-TTS",
    "Qwen3-TTS Streaming", "LuxTTS"
  ]

  /** `PRICING`: US dollars per million characters. */
  const Pricing: map<string, real> := map[
    "Azure TTS" := 16.0,
    "Azure Streaming" := 16.0,
    "ElevenLabs Standard" := 165.0,
    "ElevenLabs Turbo" := 165.0,
    "MiniMax" := 60.0,
    "MiniMax Streaming" := 60.0,
    "MiniMax PCM" := 60.0,
    "Qwen3-TTS" := 10.0,
    "Qwen3-TTS Streaming" := 10.0,
    "LuxTTS" := 0.0
  ]

  /** `NOTES`. */
  const Notes: map<string, string> := map[
    "Azure TTS" := "en-US-AvaMultilingualNeural, non-streaming",
    "Azure Streaming" := "en-US-AvaMultilingualNeural, streaming",
    "ElevenLabs Standard" := "eleven_multilingual_v2, high quality",
    "ElevenLabs Turbo" := "eleven_turbo_v2_5, low latency",
    "MiniMax" := "speech-2.6-turbo, non-streaming",
    "MiniMax Streaming" := "speech-2.6-turbo, streaming MP3",
    "MiniMax PCM" := "speech-2.6-turbo, streaming PCM",
    "Qwen3-TTS" := "qwen3-tts-flash, non-streaming",
    "Qwen3-TTS Streaming" := "qwen3-tts-flash-realtime, streaming",
    "LuxTTS" := "Local CPU - no API cost"
  ]

  /** The order lists every key of both tables exactly once, and every price is
      non-negative. */
  lemma TablesWellFormed()
    ensures forall i, j :: 0 <= i < j < |TableOrder| ==> TableOrder[i] != TableOrder[j]
    ensures forall k :: k in Pricing <==> k in TableOrder
    ensures Notes.Keys == Pricing.Keys
    ensures forall k :: k in Pricing ==> Pricing[k] >= 0.0
  {
    TableOrderDistinct();
    TableOrderIsPricingKeys();
    NotesMatchPricing();
    PricesNonNegative();
  }

  lemma TableOrderDistinct()
    ensures forall i, j :: 0 <= i < j < |TableOrder| ==> TableOrder[i] != TableOrder[j]
  {
  }

  lemma TableOrderIsPricingKeys()
    ensures forall k :: k in Pricing <==> k in TableOrder
  {
  }

  lemma NotesMatchPricing()
    ensures Notes.Keys == Pricing.Keys
  {
  }

  lemma PricesNonNegative()
    ensures forall k :: k in Pricing ==> Pricing[k] >= 0.0
  {
  }

  /** Every name of the table order has a price. */
  lemma TableOrderPriced()
    ensures forall k :: k in TableOrder ==> k in Pricing
  {
    TablesWellFormed();
  }

  /** `PRICING.get(provider, 0)`. */
  function PriceOf(provider: string): (p: real)
    ensures provider !in Pricing ==> p == 0.0
    ensures p >= 0.0
  {
    if provider in Pricing then Pricing[provider] else 0.0
  }

  /** `NOTES.get(provider, "")`. */
  function NoteOf(provider: string): (n: string)
    ensures provider !in Notes ==> n == ""
  {
    if provider in Notes then Notes[provider] else ""
  }

  /** `calculate_cost`. */
  function CalculateCost(provider: string, characters: int): real {
    (characters as real / 1000000.0) * PriceOf(provider)
  }

  /** Cost is linear in the character count: additive, zero for nothing, and
      doubling the text doubles the cost. */
  lemma CostLinear(provider: string, a: int, b: int)
    ensures CalculateCost(provider, a + b) == CalculateCost(provider, a) + CalculateCost(provider, b)
    ensures CalculateCost(provider, 0) == 0.0
    ensures CalculateCost(provider, 2 * a) == 2.0 * CalculateCost(provider, a)
  {
  }

  /** A provider the table does not know costs nothing. */
  lemma UnknownProviderIsFree(provider: string, characters: int)
    requires provider !in TableOrder
    ensures CalculateCost(provider, characters) == 0.0
    ensures NoteOf(provider) == ""
  {
    TablesWellFormed();
  }

  /** Cost never decreases with the number of characters. */
  lemma CostMonotone(provider: string, a: int, b: int)
    requires a <= b
    ensures CalculateCost(provider, a) <= CalculateCost(provider, b)
  {
    var p := PriceOf(provider);
    assert CalculateCost(provider, b) - CalculateCost(provider, a) == ((b - a) as real / 1000000.0) * p;
  }

  /** A provider whose configuration carries the table's price computes the same
      cost through its own `calculate_cost`. */
  lemma ProviderCostAgrees(config: Base.ProviderConfig, characters: int)
    requires config.pricingPer1mChars == PriceOf(config.name)
    ensures Base.ProviderCost(config, characters) == CalculateCost(config.name, characters)
  {
  }

  /** `CostProjection`. */
  datatype CostProjection = CostProjection(
    provider: string,
    per1kChars: real,
    monthly100k: real,
    monthly500k: real,
    monthly1m: real,
    notes: string)

  /** `get_projection`: the linear cost at 1 thousand, 100 thousand, 500
      thousand and 1 million characters, with the provider's note. */
  function GetProjection(provider: string): (proj: CostProjection)
    ensures proj.provider == provider
    ensures proj.per1kChars == CalculateCost(provider, 1000)
    ensures proj.monthly100k == CalculateCost(provider, 100000)
    ensures proj.monthly500k == CalculateCost(provider, 500000)
    ensures proj.monthly1m == CalculateCost(provider, 1000000) == PriceOf(provider)
    ensures 0.0 <= proj.monthly100k <= proj.monthly500k <= proj.monthly1m
    ensures proj.notes == NoteOf(provider)
  {
    var price := PriceOf(provider);
    CostProjection(provider, price / 1000.0, (100000.0 / 1000000.0) * price,
                   (500000.0 / 1000000.0) * price, price, NoteOf(provider))
  }

  /** `get_all_projections`: one projection per table entry, under its name. */
  function GetAllProjections(): (m: map<string, CostProjection>)
    ensures m.Keys == Pricing.Keys
    ensures forall k :: k in m ==> m[k] == GetProjection(k) && m[k].provider == k
  {
    map k | k in Pricing :: GetProjection(k)
  }

  const TableHeader := "| Provider | Per 1K chars | 100K/mo | 500K/mo | 1M/mo | Notes |"
  const TableRule := "|----------|--------------|---------|---------|-------|-------|"

  /** One row of the comparison table. Number formatting (`:.4f`, `:.2f`) is
      outside the model and passed in as `fmt4` and `fmt2`. */
  function TableRow(name: string, proj: CostProjection, fmt4: real -> string, fmt2: real -> string): string {
    "| " + name + " | $" + fmt4(proj.per1kChars) + " | "
    + "$" + fmt2(proj.monthly100k) + " | $" + fmt2(proj.monthly500k) + " | "
    + "$" + fmt2(proj.monthly1m) + " | " + proj.notes + " |"
  }

  /** `format_comparison_table`, as its list of lines before they are joined
      with newlines: the two header lines, then one row per table entry in
      table order. */
  method FormatComparisonTable(fmt4: real -> string, fmt2: real -> string) returns (lines: seq<string>)
    ensures |lines| == 2 + |TableOrder|
    ensures lines[0] == TableHeader && lines[1] == TableRule
    ensures forall i :: 0 <= i < |TableOrder| ==>
      lines[2 + i] == TableRow(TableOrder[i], GetProjection(TableOrder[i]), fmt4, fmt2)
  {
    var projections := GetAllProjections();
    TableOrderPriced();
    lines := [TableHeader, TableRule];
    for i := 0 to |TableOrder|
      invariant |lines| == 2 + i
      invariant lines[0] == TableHeader && lines[1] == TableRule
      invariant forall j :: 0 <= j < i ==>
        lines[2 + j] == TableRow(TableOrder[j], GetProjection(TableOrder[j]), fmt4, fmt2)
    {
      var name := TableOrder[i];
      assert name in TableOrder;
      lines := lines + [TableRow(name, projections[name], fmt4, fmt2)];
    }
  }
}
