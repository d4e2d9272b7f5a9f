/**
 * The configuration records and the choice of the one LLM provider to use
 * (src/config_loader/config_loader.py). Records are immutable values; the
 * provider names of src/utils/schema.py become the datatype `LLMProvider`.
 */
module ConfigLoader {
  import opened Wrappers

  /** The three provider tags, listed in the order in which they are tried. */
  datatype LLMProvider = Ollama | HuggingFace | OpenRouter

  const Priority: seq<LLMProvider> := [Ollama, HuggingFace, OpenRouter]

  /** Position of a provider in `Priority`: a smaller rank wins. */
  function Rank(p: LLMProvider): (k: nat)
    ensures k < |Priority| && Priority[k] == p
  {
    match p
    case Ollama => 0
    case HuggingFace => 1
    case OpenRouter => 2
  }

  lemma ProviderCases(p: LLMProvider)
    ensures p == Ollama || p == HuggingFace || p == OpenRouter
  {
  }

  // ---------------------------------------------------------------- records

  /** `timeout` is optional and defaults to 10 seconds. */
  datatype WebScraperConfig = WebScraperConfig(timeout: Option<int>)

  datatype OllamaConfig = OllamaConfig(enable: bool, model: string)

  datatype HuggingFaceConfig = HuggingFaceConfig(enable: bool, model: string, baseUrl: Option<string>)

  datatype OpenRouterConfig = OpenRouterConfig(enable: bool, model: string, baseUrl: Option<string>)

  /** Each provider's section may be absent (`None`). */
  datatype LLMsConfig = LLMsConfig(
    ollama: Option<OllamaConfig>,
    huggingFace: Option<HuggingFaceConfig>,
    openRouter: Option<OpenRouterConfig>)

  /** The whole configuration file, once validated. */
  datatype Config = Config(
    webScraperConfig: WebScraperConfig,
    llmsConfig: LLMsConfig,
    promptFiles: map<string, string>)

  // The records a field left out of the file gets.
  const DefaultWebScraperConfig := WebScraperConfig(Some(10))
  const DefaultOllamaConfig := OllamaConfig(false, "mistral")
  const DefaultHuggingFaceConfig :=
    HuggingFaceConfig(false, "HuggingFaceH4/zephyr-7b-beta", Some("https://api-inference.huggingface.co/models"))
  const DefaultOpenRouterConfig :=
    OpenRouterConfig(false, "anthropic/claude-3-haiku", Some("https://openrouter.ai/api/v1/chat/completions"))
  const DefaultLLMsConfig := LLMsConfig(None, None, None)

  /** One provider's record, whichever provider it belongs to. */
  datatype ProviderConfig =
    | OllamaRecord(ollama: OllamaConfig)
    | HuggingFaceRecord(huggingFace: HuggingFaceConfig)
    | OpenRouterRecord(openRouter: OpenRouterConfig)
  {
    function Provider(): LLMProvider {
      match this
      case OllamaRecord(_) => Ollama
      case HuggingFaceRecord(_) => HuggingFace
      case OpenRouterRecord(_) => OpenRouter
    }

    predicate Enabled() {
      match this
      case OllamaRecord(c) => c.enable
      case HuggingFaceRecord(c) => c.enable
      case OpenRouterRecord(c) => c.enable
    }
  }

  /** A provider's section of the configuration, `None` when absent. */
  function Section(c: LLMsConfig, p: LLMProvider): (r: Option<ProviderConfig>)
    ensures r.Some? ==> r.value.Provider() == p
    ensures p == Ollama ==> (r.Some? <==> c.ollama.Some?) && (r.Some? ==> r.value == OllamaRecord(c.ollama.value))
    ensures p == HuggingFace ==>
      (r.Some? <==> c.huggingFace.Some?) && (r.Some? ==> r.value == HuggingFaceRecord(c.huggingFace.value))
    ensures p == OpenRouter ==>
      (r.Some? <==> c.openRouter.Some?) && (r.Some? ==> r.value == OpenRouterRecord(c.openRouter.value))
  {
    match p
    case Ollama => if c.ollama.Some? then Some(OllamaRecord(c.ollama.value)) else None
    case HuggingFace => if c.huggingFace.Some? then Some(HuggingFaceRecord(c.huggingFace.value)) else None
    case OpenRouter => if c.openRouter.Some? then Some(OpenRouterRecord(c.openRouter.value)) else None
  }

  /** `provider_map`: every tag is a key, mapped to that provider's section. */
  function ProviderMap(c: LLMsConfig): (m: map<LLMProvider, Option<ProviderConfig>>)
    ensures forall p :: p in m && m[p] == Section(c, p)
  {
    var m := map[Ollama := Section(c, Ollama), HuggingFace := Section(c, HuggingFace), OpenRouter := Section(c, OpenRouter)];
    assert forall p :: p in m && m[p] == Section(c, p) by {
      forall p ensures p in m && m[p] == Section(c, p) { ProviderCases(p); }
    }
    m
  }

  /** The provider's section is present and its `enable` flag is set. */
  predicate IsEnabled(c: LLMsConfig, p: LLMProvider) {
    var rec := Section(c, p);
    rec.Some? && rec.value.Enabled()
  }

  // ---------------------------------------------------------------- selection

  /**
   * `get_selected_llm`: the enabled provider of smallest rank, or `None` when
   * no section is both present and enabled.
   */
  function GetSelectedLLM(c: LLMsConfig): (r: Option<LLMProvider>)
    ensures r.Some? ==> IsEnabled(c, r.value)
    ensures r.Some? ==> forall q :: Rank(q) < Rank(r.value) ==> !IsEnabled(c, q)
    ensures r.None? <==> forall p :: !IsEnabled(c, p)
  {
    if c.ollama.Some? && c.ollama.value.enable then
      assert IsEnabled(c, Ollama);
      Some(Ollama)
    else if c.huggingFace.Some? && c.huggingFace.value.enable then
      assert forall q :: Rank(q) < Rank(HuggingFace) ==> q == Ollama by {
        forall q | Rank(q) < Rank(HuggingFace) ensures q == Ollama { ProviderCases(q); }
      }
      assert IsEnabled(c, HuggingFace);
      Some(HuggingFace)
    else if c.openRouter.Some? && c.openRouter.value.enable then
      assert forall q :: Rank(q) < Rank(OpenRouter) ==> q == Ollama || q == HuggingFace by {
        forall q | Rank(q) < Rank(OpenRouter) ensures q == Ollama || q == HuggingFace { ProviderCases(q); }
      }
      assert IsEnabled(c, OpenRouter);
      Some(OpenRouter)
    else
      assert forall p :: !IsEnabled(c, p) by {
        forall p ensures !IsEnabled(c, p) { ProviderCases(p); }
      }
      None
  }

  const NoProviderSelectedMessage := "No LLM provider is selected"

  /**
   * `get_selected_llm_config`: fails when nothing is selected, otherwise
   * returns the selected provider's own record, which is present and enabled.
   */
  function GetSelectedLLMConfig(c: LLMsConfig): (r: Result<ProviderConfig, string>)
    ensures r.Failure? <==> GetSelectedLLM(c).None?
    ensures r.Failure? ==> r.error == NoProviderSelectedMessage
    ensures r.Success? ==> r.value.Provider() == GetSelectedLLM(c).value && r.value.Enabled()
    ensures r.Success? ==> ProviderMap(c)[r.value.Provider()] == Some(r.value)
  {
    var selected := GetSelectedLLM(c);
    if selected.None? then Failure(NoProviderSelectedMessage)
    else
      var rec := ProviderMap(c)[selected.value];
      assert rec.Some?;
      Success(rec.value)
  }

  // ---------------------------------------------------------------- properties

  /** Enabled providers in priority order: an independent statement of the rule. */
  function EnabledInPriorityOrder(c: LLMsConfig): seq<LLMProvider> {
    (if IsEnabled(c, Ollama) then [Ollama] else [])
    + (if IsEnabled(c, HuggingFace) then [HuggingFace] else [])
    + (if IsEnabled(c, OpenRouter) then [OpenRouter] else [])
  }

  /** The selection is the head of the enabled providers in priority order. */
  lemma SelectionIsFirstEnabled(c: LLMsConfig)
    ensures var e := EnabledInPriorityOrder(c);
      GetSelectedLLM(c) == if e == [] then None else Some(e[0])
  {
  }

  /** An enabled Ollama section wins whatever the other two sections say. */
  lemma OllamaWins(c: LLMsConfig)
    requires c.ollama.Some? && c.ollama.value.enable
    ensures GetSelectedLLM(c) == Some(Ollama)
    ensures GetSelectedLLMConfig(c) == Success(OllamaRecord(c.ollama.value))
  {
  }

  /** Which provider is chosen depends only on which sections are present and enabled. */
  lemma SelectionDependsOnlyOnEnabled(c: LLMsConfig, d: LLMsConfig)
    requires forall p :: IsEnabled(c, p) == IsEnabled(d, p)
    ensures GetSelectedLLM(c) == GetSelectedLLM(d)
  {
  }

  /**
   * Sections built from the defaults are disabled, so a configuration made only
   * of defaulted sections (each present or not) selects nothing.
   */
  lemma DefaultsSelectNothing(withOllama: bool, withHuggingFace: bool, withOpenRouter: bool)
    ensures var c := LLMsConfig(
        if withOllama then Some(DefaultOllamaConfig) else None,
        if withHuggingFace then Some(DefaultHuggingFaceConfig) else None,
        if withOpenRouter then Some(DefaultOpenRouterConfig) else None);
      GetSelectedLLM(c) == None && GetSelectedLLMConfig(c) == Failure(NoProviderSelectedMessage)
  {
  }
}
