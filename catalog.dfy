/** The fixed model registry, the choice list built from it and lookup by model name. */
module Catalog {
  import opened Wrappers
  import opened Models

  /** The registry, in presentation order. */
  const AvailableModels: seq<LLMModel> := [
    LLMModel("[anthropic] claude-3.5-haiku", "claude-3-5-haiku-latest", Anthropic),
    LLMModel("[anthropic] claude-3.5-sonnet", "claude-3-5-sonnet-latest", Anthropic),
    LLMModel("[anthropic] claude-3.7-sonnet", "claude-3-7-sonnet-latest", Anthropic),
    LLMModel("[deepseek] deepseek-r1", "deepseek-reasoner", DeepSeek),
    LLMModel("[deepseek] deepseek-v3", "deepseek-chat", DeepSeek),
    LLMModel("[gemini] gemini-2.0-flash", "gemini-2.0-flash", Gemini),
    LLMModel("[gemini] gemini-2.5-pro", "gemini-2.5-pro-exp-03-25", Gemini),
    LLMModel("[groq] llama-3.3 70b", "llama-3.3-70b-versatile", Groq),
    LLMModel("[openai] gpt-4.5", "gpt-4.5-preview", OpenAI),
    LLMModel("[openai] gpt-4o", "gpt-4o", OpenAI),
    LLMModel("[openai] o1", "o1", OpenAI),
    LLMModel("[openai] o3-mini", "o3-mini", OpenAI),
    LLMModel("[openrouter] gemini-2.5-pro-exp-03-25:free", "google/gemini-2.5-pro-exp-03-25:free", OpenRouter),
    LLMModel("[openrouter] deepseek-chat-v3-0324:free", "deepseek/deepseek-chat-v3-0324:free", OpenRouter)
  ]

  /** No two descriptors share a model name. */
  ghost predicate NamesDistinct(models: seq<LLMModel>)
  {
    forall i, j | 0 <= i < j < |models| :: models[i].modelName != models[j].modelName
  }

  /** The choice triple of every descriptor, in the descriptors' order. */
  function ChoiceTuples(models: seq<LLMModel>): (r: seq<(string, string, string)>)
    ensures |r| == |models|
    ensures forall i | 0 <= i < |models| :: r[i] == models[i].ToChoiceTuple()
  {
    if models == [] then [] else [models[0].ToChoiceTuple()] + ChoiceTuples(models[1..])
  }

  /** The choice list offered to the user. */
  const LlmOrder: seq<(string, string, string)> := ChoiceTuples(AvailableModels)

  /** The index of the first descriptor whose model name is exactly `name`
      (no case folding or trimming), or nothing when there is none. */
  function FirstMatch(models: seq<LLMModel>, name: string): (r: Option<nat>)
    ensures r.None? <==> forall i | 0 <= i < |models| :: models[i].modelName != name
    ensures r.Some? ==> r.value < |models| && models[r.value].modelName == name
    ensures r.Some? ==> forall j | 0 <= j < r.value :: models[j].modelName != name
  {
    if models == [] then None
    else if models[0].modelName == name then Some(0)
    else match FirstMatch(models[1..], name)
      case None => None
      case Some(k) => Some(k + 1)
  }

  /** The registry entry whose model name is exactly `name`, or nothing. */
  function GetModelInfo(name: string): (r: Option<LLMModel>)
    ensures r.None? <==> forall i | 0 <= i < |AvailableModels| :: AvailableModels[i].modelName != name
    ensures r.Some? ==> r.value in AvailableModels && r.value.modelName == name
  {
    match FirstMatch(AvailableModels, name)
    case None => None
    case Some(k) => Some(AvailableModels[k])
  }

  /** In a list without repeated names the first match is the only match. */
  lemma FirstMatchFindsEach(models: seq<LLMModel>, i: nat)
    requires NamesDistinct(models)
    requires i < |models|
    ensures FirstMatch(models, models[i].modelName) == Some(i)
  {
  }

  /** The registry has fourteen entries and no repeated model name. */
  lemma CatalogWellFormed()
    ensures |AvailableModels| == 14
    ensures NamesDistinct(AvailableModels)
  {
  }

  /** Looking up the model name of any registry entry gives back that entry. */
  lemma GetModelInfoRoundTrip(i: nat)
    requires i < |AvailableModels|
    ensures GetModelInfo(AvailableModels[i].modelName) == Some(AvailableModels[i])
  {
    CatalogWellFormed();
    FirstMatchFindsEach(AvailableModels, i);
  }

  /** No two registry entries share a display label either. */
  lemma DisplayNamesDistinct()
    ensures forall i, j | 0 <= i < j < |AvailableModels| ::
      AvailableModels[i].displayName != AvailableModels[j].displayName
  {
  }

  /** The choice list has one triple per registry entry, in registry order, and
      each triple's model name looks up its own entry. */
  lemma LlmOrderMatchesCatalog(i: nat)
    requires i < |AvailableModels|
    ensures |LlmOrder| == |AvailableModels|
    ensures LlmOrder[i] == (AvailableModels[i].displayName, AvailableModels[i].modelName,
                            ProviderValue(AvailableModels[i].provider))
    ensures GetModelInfo(LlmOrder[i].1) == Some(AvailableModels[i])
  {
    GetModelInfoRoundTrip(i);
  }

  /** The native DeepSeek entries have no JSON mode. */
  lemma DeepSeekEntriesLackJsonMode()
    ensures !AvailableModels[3].HasJsonMode() && !AvailableModels[4].HasJsonMode()
  {
  }

  /** The native Gemini entries have no JSON mode. */
  lemma GeminiEntriesLackJsonMode()
    ensures !AvailableModels[5].HasJsonMode() && !AvailableModels[6].HasJsonMode()
  {
  }

  /** Every other entry has JSON mode. */
  lemma OtherEntriesHaveJsonMode(i: nat)
    requires i < |AvailableModels| && i !in {3, 4, 5, 6, 13}
    ensures AvailableModels[i].HasJsonMode()
  {
    LeadingPairDecidesJsonMode(AvailableModels[i]);
  }

  /** Exactly the entries at positions 3, 4, 5, 6 and 13 lack JSON mode. */
  lemma CatalogJsonMode(i: nat)
    requires i < |AvailableModels|
    ensures !AvailableModels[i].HasJsonMode() <==> i in {3, 4, 5, 6, 13}
  {
    if i in {3, 4} {
      DeepSeekEntriesLackJsonMode();
    } else if i in {5, 6} {
      GeminiEntriesLackJsonMode();
    } else if i == 13 {
      RoutedDeepSeekEntryClassified();
    } else {
      OtherEntriesHaveJsonMode(i);
    }
  }

  /** The family rule looks at model names, not providers: the DeepSeek model
      routed through OpenRouter is DeepSeek family and has no JSON mode. */
  lemma RoutedDeepSeekEntryClassified()
    ensures AvailableModels[13].provider == OpenRouter
    ensures AvailableModels[13].IsDeepseek() && !AvailableModels[13].HasJsonMode()
  {
  }

  /** The Google model routed through OpenRouter is named "google/gemini-…",
      so it is not Gemini family and keeps JSON mode. */
  lemma RoutedGoogleEntryClassified()
    ensures AvailableModels[12].provider == OpenRouter
    ensures !AvailableModels[12].IsGemini() && AvailableModels[12].HasJsonMode()
  {
    LeadingPairDecidesJsonMode(AvailableModels[12]);
  }

  /** The native DeepSeek and Gemini models, found by name, lack JSON mode. */
  lemma NativeFamiliesLackJsonMode(name: string)
    requires name in {"deepseek-reasoner", "deepseek-chat", "gemini-2.0-flash", "gemini-2.5-pro-exp-03-25"}
    ensures GetModelInfo(name).Some? && !GetModelInfo(name).value.HasJsonMode()
  {
    var i := if name == "deepseek-reasoner" then 3
             else if name == "deepseek-chat" then 4
             else if name == "gemini-2.0-flash" then 5
             else 6;
    assert AvailableModels[i].modelName == name;
    GetModelInfoRoundTrip(i);
    CatalogJsonMode(i);
  }

  /** Lookup is exact: an unknown name and a differently-cased name both miss. */
  lemma LookupMisses()
    ensures GetModelInfo("nonexistent-id") == None
    ensures GetModelInfo("GPT-4o") == None
  {
    assert forall i | 0 <= i < |AvailableModels| :: AvailableModels[i].modelName != "nonexistent-id";
    assert forall i | 0 <= i < |AvailableModels| :: AvailableModels[i].modelName != "GPT-4o";
  }
}
