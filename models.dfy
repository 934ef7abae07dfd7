/** The provider tags and the model descriptor of the LLM registry. */
module Models {

  /** The closed set of supported providers. */
  datatype Provider = Anthropic | DeepSeek | Gemini | Groq | OpenAI | OpenRouter

  /** The external string value of a provider tag (`ModelProvider.X.value`). */
  function ProviderValue(p: Provider): string
  {
    match p
    case Anthropic => "Anthropic"
    case DeepSeek => "DeepSeek"
    case Gemini => "Gemini"
    case Groq => "Groq"
    case OpenAI => "OpenAI"
    case OpenRouter => "OpenRouter"
  }

  /** Distinct tags have distinct external values, so the value identifies the tag. */
  lemma ProviderValueInjective(p: Provider, q: Provider)
    ensures ProviderValue(p) == ProviderValue(q) ==> p == q
  {
  }

  /** Python's `s.startswith(prefix)`: literal and case-sensitive. */
  predicate StartsWith(s: string, prefix: string)
  {
    |prefix| <= |s| && s[..|prefix|] == prefix
  }

  /** `s` starts with `prefix` exactly when `s` is `prefix` followed by something. */
  lemma StartsWithIsConcat(s: string, prefix: string)
    ensures StartsWith(s, prefix) <==> exists rest :: s == prefix + rest
  {
    if StartsWith(s, prefix) {
      assert s == prefix + s[|prefix|..];
    }
    if exists rest :: s == prefix + rest {
      var rest :| s == prefix + rest;
      assert s[..|prefix|] == prefix;
    }
  }

  /** One entry of the registry: a display label, the provider's model
      identifier and the owning provider. */
  datatype LLMModel = LLMModel(displayName: string, modelName: string, provider: Provider)
  {
    /** The `(display_name, model_name, provider.value)` triple shown to the user. */
    function ToChoiceTuple(): (string, string, string)
    {
      (displayName, modelName, ProviderValue(provider))
    }

    /** DeepSeek family: the model name begins with the literal "deepseek",
        whatever the provider tag. */
    predicate IsDeepseek()
    {
      StartsWith(modelName, "deepseek")
    }

    /** Gemini family: the model name begins with the literal "gemini",
        whatever the provider tag. */
    predicate IsGemini()
    {
      StartsWith(modelName, "gemini")
    }

    /** JSON mode is available unless the model is of the DeepSeek or Gemini family. */
    predicate HasJsonMode()
    {
      !IsDeepseek() && !IsGemini()
    }
  }

  /** A descriptor is DeepSeek family exactly when its model name is "deepseek"
      followed by anything, and Gemini family exactly when it is "gemini"
      followed by anything. */
  lemma FamilyByPrefix(m: LLMModel)
    ensures m.IsDeepseek() <==> exists rest :: m.modelName == "deepseek" + rest
    ensures m.IsGemini() <==> exists rest :: m.modelName == "gemini" + rest
  {
    StartsWithIsConcat(m.modelName, "deepseek");
    StartsWithIsConcat(m.modelName, "gemini");
  }

  /** JSON mode is missing exactly when the model name is "deepseek" or
      "gemini" followed by anything. */
  lemma JsonModeByPrefix(m: LLMModel)
    ensures !m.HasJsonMode() <==>
      (exists rest :: m.modelName == "deepseek" + rest) || (exists rest :: m.modelName == "gemini" + rest)
  {
    FamilyByPrefix(m);
  }

  /** Two descriptors that present the same choice triple are the same descriptor. */
  lemma ChoiceTupleInjective(m: LLMModel, n: LLMModel)
    ensures m.ToChoiceTuple() == n.ToChoiceTuple() ==> m == n
  {
  }

  /** No model name is in both families. */
  lemma FamiliesExclusive(m: LLMModel)
    ensures !(m.IsDeepseek() && m.IsGemini())
  {
    if m.IsDeepseek() {
      assert m.modelName[..8][0] == 'd';
    }
  }

  /** A model name whose first two characters are neither "de" nor "ge" is in
      neither family, so it has JSON mode. */
  lemma LeadingPairDecidesJsonMode(m: LLMModel)
    requires |m.modelName| >= 2
    requires m.modelName[0] != 'd' || m.modelName[1] != 'e'
    requires m.modelName[0] != 'g' || m.modelName[1] != 'e'
    ensures m.HasJsonMode()
  {
  }

  /** The family checks look at the model name only, never at the provider tag. */
  lemma FamilyIgnoresProvider(m: LLMModel, p: Provider)
    ensures m.(provider := p).IsDeepseek() == m.IsDeepseek()
    ensures m.(provider := p).IsGemini() == m.IsGemini()
    ensures m.(provider := p).HasJsonMode() == m.HasJsonMode()
  {
  }

  /** The prefix check is case-sensitive: a name that begins with a capital
      letter is in neither family, so it has JSON mode. */
  lemma FamilyIsCaseSensitive(m: LLMModel)
    requires |m.modelName| > 0 && 'A' <= m.modelName[0] <= 'Z'
    ensures !m.IsDeepseek() && !m.IsGemini() && m.HasJsonMode()
  {
  }

  /** For instance "DeepSeek-chat" and "Gemini-pro" are in neither family. */
  lemma CapitalisedNamesHaveJsonMode(p: Provider)
    ensures !LLMModel("", "DeepSeek-chat", p).IsDeepseek()
    ensures !LLMModel("", "Gemini-pro", p).IsGemini()
    ensures LLMModel("", "DeepSeek-chat", p).HasJsonMode()
  {
    FamilyIsCaseSensitive(LLMModel("", "DeepSeek-chat", p));
    FamilyIsCaseSensitive(LLMModel("", "Gemini-pro", p));
  }
}
