/** The client factory: given a model name and a provider tag, read that
    provider's API key from the environment and build a chat client, or fail. */
module Factory {
  import opened Wrappers
  import opened Models

  /** The client classes the factory can build; each stands for an opaque
      provider library constructor. */
  datatype ClientKind = ChatGroq | ChatOpenAI | ChatAnthropic | ChatDeepSeek | ChatGoogleGenerativeAI

  /** A constructed client: its class and the arguments it was built with. */
  datatype Client = Client(kind: ClientKind, model: string, apiKey: string, baseUrl: Option<string>)

  /** The `ValueError` raised when the provider's key is unset or empty; it
      carries the provider and the variable its message names. */
  datatype ApiKeyError = MissingApiKey(provider: Provider, variable: string)

  /** The process environment, as a map from variable name to value. */
  type Env = map<string, string>

  const OpenRouterBaseUrl: string := "https://openrouter.ai/api/v1"

  /** `os.getenv(name)`: the value, or nothing when the variable is unset. */
  function Getenv(env: Env, name: string): Option<string>
  {
    if name in env then Some(env[name]) else None
  }

  /** Python truthiness of `os.getenv(...)`: set and not the empty string. */
  predicate Truthy(value: Option<string>)
  {
    value.Some? && value.value != ""
  }

  /** The variable each provider's key is read from. */
  function ApiKeyVar(p: Provider): string
  {
    match p
    case Anthropic => "ANTHROPIC_API_KEY"
    case DeepSeek => "DEEPSEEK_API_KEY"
    case Gemini => "GOOGLE_API_KEY"
    case Groq => "GROQ_API_KEY"
    case OpenAI => "OPENAI_API_KEY"
    case OpenRouter => "OPENROUTER_API_KEY"
  }

  /** The client class each provider is served by; OpenRouter speaks the OpenAI protocol. */
  function ClientKindFor(p: Provider): ClientKind
  {
    match p
    case Anthropic => ChatAnthropic
    case DeepSeek => ChatDeepSeek
    case Gemini => ChatGoogleGenerativeAI
    case Groq => ChatGroq
    case OpenAI => ChatOpenAI
    case OpenRouter => ChatOpenAI
  }

  /** The provider's key is present in `env` and not empty. */
  predicate HasKey(env: Env, p: Provider)
  {
    ApiKeyVar(p) in env && env[ApiKeyVar(p)] != ""
  }

  /** Build the client for `modelName` under `provider`, or fail naming the
      missing variable. The branches follow the provider order of the source. */
  function GetModel(env: Env, modelName: string, provider: Provider): (r: Result<Client, ApiKeyError>)
    ensures r.Failure? <==> !HasKey(env, provider)
    ensures r.Failure? ==> r.error == MissingApiKey(provider, ApiKeyVar(provider))
    ensures r.Success? ==> r.value.kind == ClientKindFor(provider)
    ensures r.Success? ==> r.value.model == modelName && r.value.apiKey == env[ApiKeyVar(provider)]
    ensures r.Success? ==> (r.value.baseUrl.Some? <==> provider == OpenRouter)
    ensures r.Success? && r.value.baseUrl.Some? ==> r.value.baseUrl.value == OpenRouterBaseUrl
  {
    match provider
    case Groq =>
      var apiKey := Getenv(env, "GROQ_API_KEY");
      if !Truthy(apiKey) then Failure(MissingApiKey(Groq, "GROQ_API_KEY"))
      else Success(Client(ChatGroq, modelName, apiKey.value, None))
    case OpenAI =>
      var apiKey := Getenv(env, "OPENAI_API_KEY");
      if !Truthy(apiKey) then Failure(MissingApiKey(OpenAI, "OPENAI_API_KEY"))
      else Success(Client(ChatOpenAI, modelName, apiKey.value, None))
    case Anthropic =>
      var apiKey := Getenv(env, "ANTHROPIC_API_KEY");
      if !Truthy(apiKey) then Failure(MissingApiKey(Anthropic, "ANTHROPIC_API_KEY"))
      else Success(Client(ChatAnthropic, modelName, apiKey.value, None))
    case DeepSeek =>
      var apiKey := Getenv(env, "DEEPSEEK_API_KEY");
      if !Truthy(apiKey) then Failure(MissingApiKey(DeepSeek, "DEEPSEEK_API_KEY"))
      else Success(Client(ChatDeepSeek, modelName, apiKey.value, None))
    case Gemini =>
      var apiKey := Getenv(env, "GOOGLE_API_KEY");
      if !Truthy(apiKey) then Failure(MissingApiKey(Gemini, "GOOGLE_API_KEY"))
      else Success(Client(ChatGoogleGenerativeAI, modelName, apiKey.value, None))
    case OpenRouter =>
      var apiKey := Getenv(env, "OPENROUTER_API_KEY");
      if !Truthy(apiKey) then Failure(MissingApiKey(OpenRouter, "OPENROUTER_API_KEY"))
      else Success(Client(ChatOpenAI, modelName, apiKey.value, Some(OpenRouterBaseUrl)))
  }

  /** Each provider reads its own variable: no two providers share one. */
  lemma ApiKeyVarInjective(p: Provider, q: Provider)
    ensures ApiKeyVar(p) == ApiKeyVar(q) ==> p == q
  {
  }

  /** The factory reads exactly one variable: two environments that agree on
      the provider's variable give the same outcome. */
  lemma GetModelReadsOnlyItsVariable(env1: Env, env2: Env, modelName: string, provider: Provider)
    requires Getenv(env1, ApiKeyVar(provider)) == Getenv(env2, ApiKeyVar(provider))
    ensures GetModel(env1, modelName, provider) == GetModel(env2, modelName, provider)
  {
  }

  /** Setting another provider's key changes nothing for this one. */
  lemma OtherKeysIrrelevant(env: Env, modelName: string, provider: Provider, other: Provider, value: string)
    requires other != provider
    ensures GetModel(env[ApiKeyVar(other) := value], modelName, provider) == GetModel(env, modelName, provider)
  {
  }

  /** An OpenRouter client is an OpenAI client with the same model and key plus
      the OpenRouter base URL. */
  lemma OpenRouterIsOpenAIWithBaseUrl(env: Env, modelName: string, key: string)
    requires key != ""
    requires Getenv(env, "OPENROUTER_API_KEY") == Some(key) && Getenv(env, "OPENAI_API_KEY") == Some(key)
    ensures GetModel(env, modelName, OpenRouter).Success? && GetModel(env, modelName, OpenAI).Success?
    ensures GetModel(env, modelName, OpenRouter).value
         == GetModel(env, modelName, OpenAI).value.(baseUrl := Some(OpenRouterBaseUrl))
  {
  }

  /** With OPENAI_API_KEY unset the factory fails naming that variable. */
  lemma MissingOpenAIKeyFails(env: Env, modelName: string)
    requires "OPENAI_API_KEY" !in env
    ensures GetModel(env, modelName, OpenAI) == Failure(MissingApiKey(OpenAI, "OPENAI_API_KEY"))
  {
  }

  /** An empty key counts as missing. */
  lemma EmptyKeyFails(env: Env, modelName: string, provider: Provider)
    requires ApiKeyVar(provider) in env && env[ApiKeyVar(provider)] == ""
    ensures GetModel(env, modelName, provider).Failure?
  {
  }

  /** With GROQ_API_KEY set to "x" the factory builds a Groq client for the model. */
  lemma GroqKeyBuildsClient(env: Env)
    requires Getenv(env, "GROQ_API_KEY") == Some("x")
    ensures GetModel(env, "llama-3.3-70b-versatile", Groq)
         == Success(Client(ChatGroq, "llama-3.3-70b-versatile", "x", None))
  {
  }
}
