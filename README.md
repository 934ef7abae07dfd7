# LLM model registry and client factory

A Dafny model of the model registry of an LLM-driven trading assistant
(`src/llm/models.py`). It covers these parts:

- the closed set of provider tags and their external string values;
- the model descriptor `(display_name, model_name, provider)`;
- its family checks (`is_deepseek`, `is_gemini`) and the JSON-mode flag derived from them;
- the fixed, ordered catalog of fourteen descriptors, and the choice list `LLM_ORDER` built from it;
- first-match lookup by model name (`get_model_info`);
- the client factory `get_model`. It reads exactly one environment variable per provider. It fails when that variable is unset or empty, and otherwise builds a provider-specific client.

Files:

- `wrappers.dfy` (module `Wrappers`): `Option` for Python's `None`, and `Result` for "returns or raises".
- `models.dfy` (module `Models`): `Provider`, `LLMModel` and the family and JSON-mode predicates, with their lemmas.
- `catalog.dfy` (module `Catalog`): `AvailableModels`, `ChoiceTuples`/`LlmOrder`, `FirstMatch`/`GetModelInfo`, and facts about the literal catalog.
- `factory.dfy` (module `Factory`): the environment as a `map<string, string>`, `GetModel`, and its lemmas.

Everything in the source is pure or reads the environment, so the model uses functions and lemmas only.

## Model

| member | source | states |
|---|---|---|
| `Models.ProviderValueInjective` | src/llm/models.py:12-20 | the six provider tags have pairwise different external values, so a value names one tag |
| `Models.StartsWithIsConcat` | src/llm/models.py:41-49 | the literal prefix test holds exactly when the string is the prefix followed by some suffix |
| `Models.FamilyByPrefix` | src/llm/models.py:41-49 | a descriptor is DeepSeek family iff its model name is "deepseek" followed by anything, and Gemini family iff it is "gemini" followed by anything |
| `Models.FamilyIgnoresProvider` | src/llm/models.py:36-49 | changing the provider tag never changes `is_deepseek`, `is_gemini` or `has_json_mode` |
| `Models.FamilyIsCaseSensitive` | src/llm/models.py:41-49 | a model name beginning with a capital letter is in neither family and has JSON mode; the check is case-sensitive |
| `Models.CapitalisedNamesHaveJsonMode` | src/llm/models.py:41-49 | "DeepSeek-chat" is not DeepSeek family, "Gemini-pro" is not Gemini family, and "DeepSeek-chat" has JSON mode |
| `Models.FamiliesExclusive` | src/llm/models.py:41-49 | no model name is in both families |
| `Models.JsonModeByPrefix` | src/llm/models.py:36-49 | JSON mode is absent exactly when the model name begins with "deepseek" or "gemini" |
| `Models.LeadingPairDecidesJsonMode` | src/llm/models.py:36-49 | a name whose first two characters are neither "de" nor "ge" has JSON mode |
| `Models.ChoiceTupleInjective` | src/llm/models.py:31-34 | two descriptors with the same choice triple are equal, so the triple loses nothing |
| `Catalog.CatalogWellFormed` | src/llm/models.py:54-125 | the catalog has 14 entries and no two share a model name |
| `Catalog.DisplayNamesDistinct` | src/llm/models.py:54-125 | no two catalog entries share a display name |
| `Catalog.ChoiceTuples` | src/llm/models.py:129 | the comprehension yields one triple per descriptor, in the same order, the i-th being the i-th descriptor's choice tuple |
| `Catalog.LlmOrderMatchesCatalog` | src/llm/models.py:129 | `LLM_ORDER` has as many triples as the catalog; the i-th is (display name, model name, provider value) of the i-th entry, and its model name looks up that entry |
| `Catalog.FirstMatch` | src/llm/models.py:134 | returns no index iff no descriptor has exactly that model name; otherwise it returns the lowest index whose model name matches |
| `Catalog.GetModelInfo` | src/llm/models.py:131-134 | returns nothing iff no catalog entry has exactly that model name; otherwise it returns a catalog entry with that model name |
| `Catalog.FirstMatchFindsEach` | src/llm/models.py:134 | in a list without repeated model names, the first match for entry i's name is i |
| `Catalog.GetModelInfoRoundTrip` | src/llm/models.py:54-134 | looking up any catalog entry's model name returns exactly that entry |
| `Catalog.LookupMisses` | src/llm/models.py:134 | "nonexistent-id" and "GPT-4o" (wrong case) both miss |
| `Catalog.DeepSeekEntriesLackJsonMode` | src/llm/models.py:70-79 | the two native DeepSeek entries have no JSON mode |
| `Catalog.GeminiEntriesLackJsonMode` | src/llm/models.py:80-89 | the two native Gemini entries have no JSON mode |
| `Catalog.OtherEntriesHaveJsonMode` | src/llm/models.py:54-125 | every entry outside positions 3, 4, 5, 6 and 13 has JSON mode |
| `Catalog.CatalogJsonMode` | src/llm/models.py:54-125 | an entry lacks JSON mode exactly when it is at position 3, 4, 5, 6 or 13 |
| `Catalog.RoutedDeepSeekEntryClassified` | src/llm/models.py:120-124 | the OpenRouter entry "deepseek/deepseek-chat-v3-0324:free" is DeepSeek family and has no JSON mode |
| `Catalog.RoutedGoogleEntryClassified` | src/llm/models.py:115-119 | the OpenRouter entry "google/gemini-2.5-pro-exp-03-25:free" is not Gemini family and has JSON mode |
| `Catalog.NativeFamiliesLackJsonMode` | src/llm/models.py:70-89 | looking up "deepseek-reasoner", "deepseek-chat", "gemini-2.0-flash" or "gemini-2.5-pro-exp-03-25" finds an entry without JSON mode |
| `Factory.GetModel` | src/llm/models.py:136-182 | fails iff the provider's variable (table `ApiKeyVar`) is unset or empty, and the error then names that provider and variable. On success it builds the provider's client class (table `ClientKindFor`) with the given model name and the key read. A base URL is set only for OpenRouter, and it is "https://openrouter.ai/api/v1" |
| `Factory.ApiKeyVarInjective` | src/llm/models.py:139-181 | different providers read different variables |
| `Factory.GetModelReadsOnlyItsVariable` | src/llm/models.py:139-181 | two environments that agree on the provider's variable give the same outcome |
| `Factory.OtherKeysIrrelevant` | src/llm/models.py:139-181 | setting any other provider's variable does not change the outcome |
| `Factory.OpenRouterIsOpenAIWithBaseUrl` | src/llm/models.py:147-182 | with the same key, the OpenRouter client is the OpenAI client plus the OpenRouter base URL |
| `Factory.MissingOpenAIKeyFails` | src/llm/models.py:147-153 | with OPENAI_API_KEY unset the factory fails naming OPENAI_API_KEY |
| `Factory.EmptyKeyFails` | src/llm/models.py:139-181 | an empty key counts as missing |
| `Factory.GroqKeyBuildsClient` | src/llm/models.py:139-145 | with GROQ_API_KEY = "x", asking for "llama-3.3-70b-versatile" under Groq builds a Groq client for that model with key "x" |

## Left out

- The provider client classes are opaque library constructors. Each becomes a `ClientKind` tag inside the `Client` record. Their network behaviour is not modelled.
- `os.getenv` and the real process environment: the environment is a `map<string, string>` parameter.
- The console diagnostic printed before each `ValueError` is I/O and is not modelled. The error value keeps the provider and the variable name, but not the message wording.
- Pydantic validation and coercion of `LLMModel` fields are library behaviour, so they are not modelled.
- Unknown providers: `ModelProvider` is a `str` enum, so a Python caller could pass a plain string that matches no branch. `get_model` would then fall through and return `None`. The model takes a `Provider`, a closed datatype, so that path cannot arise and is not modelled. `GetModel` matches all six tags.
- Any UI use of `LLM_ORDER` is outside this module.
