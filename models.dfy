/**
 * The fixed registry of AI models: one specification per model identifier,
 * in registration order, with lookups and order-preserving filters.
 */
module Models {

  import opened Wrappers

  datatype AIModel =
    | Codex
    | Gpt35Turbo
    | Gpt4
    | Gpt4Turbo
    | Gpt4o
    | Gpt41
    | Gpt5Mini
    | Gpt5
    | Gpt5Codex
    | O3Mini
    | O4Mini
    | ClaudeSonnet35
    | ClaudeSonnet37
    | ClaudeSonnet37Thinking
    | ClaudeSonnet4
    | ClaudeSonnet45
    | Gemini2Flash
    | Gemini25Pro
    | GrokCodeFast1

  datatype ModelProvider = OpenAI | Anthropic | Google | XAI

  datatype ModelSpec = ModelSpec(
    id: AIModel,
    provider: ModelProvider,
    name: string,
    description: string,
    energyPer1kTokens: real,        // kWh per 1000 tokens
    averageTokensPerSuggestion: nat,
    releaseDate: string,
    features: seq<string>,
    notes: Option<string>
  )

  /** The model assumed until the user picks one. */
  const DefaultModel: AIModel := Gpt4o

  /** Every model identifier once, in declaration (and registration) order. */
  const AllModelIds: seq<AIModel> := [
    Codex, Gpt35Turbo, Gpt4, Gpt4Turbo, Gpt4o, Gpt41, Gpt5Mini, Gpt5, Gpt5Codex,
    O3Mini, O4Mini,
    ClaudeSonnet35, ClaudeSonnet37, ClaudeSonnet37Thinking, ClaudeSonnet4, ClaudeSonnet45,
    Gemini2Flash, Gemini25Pro,
    GrokCodeFast1
  ]

  /** AllModelIds enumerates the identifiers: nineteen of them, each exactly once. */
  lemma AllModelIdsEnumerate()
    ensures |AllModelIds| == 19
    ensures forall m :: m in AllModelIds
    ensures forall i, j :: 0 <= i < j < |AllModelIds| ==> AllModelIds[i] != AllModelIds[j]
  {
    forall m ensures m in AllModelIds {
      var i := ModelIndex(m);
    }
  }

  /** Position of a model in declaration order. */
  function ModelIndex(model: AIModel): (i: nat)
    ensures i < |AllModelIds| && AllModelIds[i] == model
  {
    match model
    case Codex => 0
    case Gpt35Turbo => 1
    case Gpt4 => 2
    case Gpt4Turbo => 3
    case Gpt4o => 4
    case Gpt41 => 5
    case Gpt5Mini => 6
    case Gpt5 => 7
    case Gpt5Codex => 8
    case O3Mini => 9
    case O4Mini => 10
    case ClaudeSonnet35 => 11
    case ClaudeSonnet37 => 12
    case ClaudeSonnet37Thinking => 13
    case ClaudeSonnet4 => 14
    case ClaudeSonnet45 => 15
    case Gemini2Flash => 16
    case Gemini25Pro => 17
    case GrokCodeFast1 => 18
  }

  /** The registry entry of a model: its key and its record agree, and its coefficients are positive. */
  function GetModelSpec(model: AIModel): (spec: ModelSpec)
    ensures spec.id == model
    ensures spec.energyPer1kTokens > 0.0
    ensures spec.averageTokensPerSuggestion > 0
  {
    match model
    case Codex => CodexSpec
    case Gpt35Turbo => Gpt35TurboSpec
    case Gpt4 => Gpt4Spec
    case Gpt4Turbo => Gpt4TurboSpec
    case Gpt4o => Gpt4oSpec
    case Gpt41 => Gpt41Spec
    case Gpt5Mini => Gpt5MiniSpec
    case Gpt5 => Gpt5Spec
    case Gpt5Codex => Gpt5CodexSpec
    case O3Mini => O3MiniSpec
    case O4Mini => O4MiniSpec
    case ClaudeSonnet35 => ClaudeSonnet35Spec
    case ClaudeSonnet37 => ClaudeSonnet37Spec
    case ClaudeSonnet37Thinking => ClaudeSonnet37ThinkingSpec
    case ClaudeSonnet4 => ClaudeSonnet4Spec
    case ClaudeSonnet45 => ClaudeSonnet45Spec
    case Gemini2Flash => Gemini2FlashSpec
    case Gemini25Pro => Gemini25ProSpec
    case GrokCodeFast1 => GrokCodeFast1Spec
  }

  const CodexSpec: ModelSpec := ModelSpec(Codex, OpenAI, "Codex",
      "Original GitHub Copilot (GPT-3 based)", 0.0004, 50, "2021-06",
      ["code-completion"],
      Some("Legacy model, still used by some older Copilot versions"))

  const Gpt35TurboSpec: ModelSpec := ModelSpec(Gpt35Turbo, OpenAI, "GPT-3.5 Turbo",
      "GitHub Copilot (GPT-3.5-turbo)", 0.0006, 75, "2023-03",
      ["code-completion", "chat"],
      Some("Common default for many Copilot users"))

  const Gpt4Spec: ModelSpec := ModelSpec(Gpt4, OpenAI, "GPT-4",
      "GitHub Copilot Chat (GPT-4)", 0.0015, 150, "2023-03",
      ["code-completion", "chat", "reasoning"],
      Some("Higher capability but higher energy cost"))

  const Gpt4TurboSpec: ModelSpec := ModelSpec(Gpt4Turbo, OpenAI, "GPT-4 Turbo",
      "GitHub Copilot (GPT-4 Turbo)", 0.0012, 150, "2023-11",
      ["code-completion", "chat", "reasoning", "vision"],
      Some("More efficient than GPT-4"))

  const Gpt4oSpec: ModelSpec := ModelSpec(Gpt4o, OpenAI, "GPT-4o",
      "GitHub Copilot (GPT-4o - Omni)", 0.0010, 120, "2024-05",
      ["code-completion", "chat", "multimodal"],
      Some("Optimized for speed and efficiency"))

  const Gpt41Spec: ModelSpec := ModelSpec(Gpt41, OpenAI, "GPT-4.1",
      "GitHub Copilot (GPT-4.1)", 0.0011, 130, "2024-10",
      ["code-completion", "chat", "reasoning", "vision"],
      Some("Incremental improvement over GPT-4o"))

  const Gpt5MiniSpec: ModelSpec := ModelSpec(Gpt5Mini, OpenAI, "GPT-5 Mini",
      "Lightweight GPT-5 variant", 0.0008, 100, "2025-01",
      ["code-completion", "chat", "fast-inference"],
      Some("Balanced performance and efficiency"))

  const Gpt5Spec: ModelSpec := ModelSpec(Gpt5, OpenAI, "GPT-5",
      "Next-generation GPT model", 0.0018, 200, "2025-03",
      ["code-completion", "chat", "advanced-reasoning", "multimodal"],
      Some("Estimated - most capable but energy intensive"))

  const Gpt5CodexSpec: ModelSpec := ModelSpec(Gpt5Codex, OpenAI, "GPT-5 Codex",
      "Code-specialized GPT-5", 0.0014, 180, "2025-04",
      ["code-completion", "code-analysis", "debugging"],
      Some("Estimated - optimized for coding tasks"))

  const O3MiniSpec: ModelSpec := ModelSpec(O3Mini, OpenAI, "o3-mini",
      "Lightweight reasoning model", 0.0009, 90, "2024-12",
      ["reasoning", "problem-solving", "code-completion"],
      Some("Efficient reasoning for coding tasks"))

  const O4MiniSpec: ModelSpec := ModelSpec(O4Mini, OpenAI, "o4-mini",
      "Advanced compact reasoning model", 0.0010, 100, "2025-02",
      ["advanced-reasoning", "code-completion", "debugging"],
      Some("Enhanced reasoning capabilities"))

  const ClaudeSonnet35Spec: ModelSpec := ModelSpec(ClaudeSonnet35, Anthropic, "Claude Sonnet 3.5",
      "Anthropic Claude 3.5 Sonnet", 0.0008, 110, "2024-06",
      ["code-completion", "chat", "analysis"],
      Some("Balanced performance and efficiency"))

  const ClaudeSonnet37Spec: ModelSpec := ModelSpec(ClaudeSonnet37, Anthropic, "Claude Sonnet 3.7",
      "Anthropic Claude 3.7 Sonnet", 0.0009, 120, "2024-09",
      ["code-completion", "chat", "advanced-analysis"],
      Some("Improved coding capabilities"))

  const ClaudeSonnet37ThinkingSpec: ModelSpec := ModelSpec(ClaudeSonnet37Thinking, Anthropic, "Claude Sonnet 3.7 Thinking",
      "Claude 3.7 with extended thinking", 0.0013, 180, "2024-10",
      ["deep-reasoning", "code-analysis", "problem-solving"],
      Some("Extended reasoning for complex problems"))

  const ClaudeSonnet4Spec: ModelSpec := ModelSpec(ClaudeSonnet4, Anthropic, "Claude Sonnet 4",
      "Anthropic Claude 4 Sonnet", 0.0010, 130, "2024-12",
      ["code-completion", "chat", "multimodal", "reasoning"],
      Some("Next-generation Claude model"))

  const ClaudeSonnet45Spec: ModelSpec := ModelSpec(ClaudeSonnet45, Anthropic, "Claude Sonnet 4.5",
      "Anthropic Claude 4.5 Sonnet", 0.0011, 140, "2025-01",
      ["advanced-coding", "reasoning", "analysis", "multimodal"],
      Some("State-of-the-art coding assistant"))

  const Gemini2FlashSpec: ModelSpec := ModelSpec(Gemini2Flash, Google, "Gemini 2.0 Flash",
      "Google Gemini 2.0 Flash", 0.0007, 95, "2024-12",
      ["code-completion", "fast-inference", "multimodal"],
      Some("Optimized for speed"))

  const Gemini25ProSpec: ModelSpec := ModelSpec(Gemini25Pro, Google, "Gemini 2.5 Pro",
      "Google Gemini 2.5 Pro", 0.0016, 170, "2025-02",
      ["advanced-coding", "reasoning", "multimodal", "long-context"],
      Some("Most capable Gemini model"))

  const GrokCodeFast1Spec: ModelSpec := ModelSpec(GrokCodeFast1, XAI, "Grok Code Fast 1",
      "xAI Grok Code Fast", 0.0009, 105, "2024-11",
      ["code-completion", "fast-inference", "real-time"],
      Some("Optimized for speed and real-time coding"))

  /** The default model is GPT-4o, at 0.0010 kWh per 1000 tokens. */
  lemma DefaultModelSpec()
    ensures GetModelSpec(DefaultModel).id == Gpt4o
    ensures GetModelSpec(DefaultModel).energyPer1kTokens == 0.0010
  {
  }

  /**
   * The registry's values in registration order: one spec per identifier,
   * the i-th being the spec of the i-th declared model.
   */
  function AllModels(): (specs: seq<ModelSpec>)
    ensures |specs| == 19
    ensures forall i :: 0 <= i < |specs| ==> specs[i] == GetModelSpec(AllModelIds[i])
    ensures forall i :: 0 <= i < |specs| ==> specs[i].id == AllModelIds[i]
    ensures forall m :: GetModelSpec(m) in specs
  {
    AllModelIdsEnumerate();
    var specs := seq(|AllModelIds|, i requires 0 <= i < |AllModelIds| => GetModelSpec(AllModelIds[i]));
    assert forall m :: GetModelSpec(m) in specs by {
      forall m ensures GetModelSpec(m) in specs {
        var i := ModelIndex(m);
        assert specs[i] == GetModelSpec(m);
      }
    }
    specs
  }

  // ---------------------------------------------------------------------
  // Order-preserving filters
  // ---------------------------------------------------------------------

  /** a can be obtained from b by deleting elements, keeping the rest in order. */
  ghost predicate IsSubsequence<T>(a: seq<T>, b: seq<T>)
    decreases |b|
  {
    if a == [] then true
    else if b == [] then false
    else (a[0] == b[0] && IsSubsequence(a[1..], b[1..])) || IsSubsequence(a, b[1..])
  }

  /**
   * The elements of s that satisfy keep, in their order in s: a subsequence of s
   * holding every kept element as often as s does and nothing else.
   */
  function Filter<T(!new)>(s: seq<T>, keep: T -> bool): (r: seq<T>)
    ensures IsSubsequence(r, s)
    ensures forall x :: x in r ==> keep(x)
    ensures forall x :: x in r <==> x in s && keep(x)
    ensures forall x :: multiset(r)[x] == if keep(x) then multiset(s)[x] else 0
  {
    if s == [] then []
    else
      var rest := Filter(s[1..], keep);
      assert s == [s[0]] + s[1..];
      if keep(s[0]) then [s[0]] + rest else rest
  }

  /** The specs of s from one provider, in their order in s. */
  function ByProvider(specs: seq<ModelSpec>, provider: ModelProvider): seq<ModelSpec> {
    Filter(specs, (s: ModelSpec) => s.provider == provider)
  }

  /** The specs of one provider, in registration order. */
  function GetModelsByProvider(provider: ModelProvider): (specs: seq<ModelSpec>)
    ensures IsSubsequence(specs, AllModels())
    ensures forall s :: s in specs <==> s in AllModels() && s.provider == provider
  {
    ByProvider(AllModels(), provider)
  }

  /** The specs listing a capability tag, in registration order. */
  function GetModelsByFeature(feature: string): (specs: seq<ModelSpec>)
    ensures IsSubsequence(specs, AllModels())
    ensures forall s :: s in specs <==> s in AllModels() && feature in s.features
  {
    Filter(AllModels(), (s: ModelSpec) => feature in s.features)
  }

  /** Grouping any list of specs by provider partitions it: the four groups together are a permutation of it. */
  lemma ProviderGroupsPartition(all: seq<ModelSpec>)
    ensures multiset(ByProvider(all, OpenAI) + ByProvider(all, Anthropic)
                     + ByProvider(all, Google) + ByProvider(all, XAI))
            == multiset(all)
  {
    var a, b, c, d := ByProvider(all, OpenAI), ByProvider(all, Anthropic),
                      ByProvider(all, Google), ByProvider(all, XAI);
    forall x: ModelSpec ensures multiset(a + b + c + d)[x] == multiset(all)[x] {
      assert multiset(a)[x] == if x.provider == OpenAI then multiset(all)[x] else 0;
      assert multiset(b)[x] == if x.provider == Anthropic then multiset(all)[x] else 0;
      assert multiset(c)[x] == if x.provider == Google then multiset(all)[x] else 0;
      assert multiset(d)[x] == if x.provider == XAI then multiset(all)[x] else 0;
    }
  }

  /** In particular the four provider lists of the registry are a permutation of the whole registry. */
  lemma ProvidersPartitionRegistry()
    ensures multiset(GetModelsByProvider(OpenAI) + GetModelsByProvider(Anthropic)
                     + GetModelsByProvider(Google) + GetModelsByProvider(XAI))
            == multiset(AllModels())
  {
    ProviderGroupsPartition(AllModels());
  }
}
