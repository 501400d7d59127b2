/**
 * Provider dispatch: maps a provider name, a model name and generation
 * parameters to the configuration of a chat-model client, or to the
 * ValueError the Python function raises. The process environment in which
 * the API keys are looked up becomes a map parameter.
 */
module LlmAbstraction {
  import opened Wrappers

  /** The three providers a request may name. */
  datatype Provider = Claude | OpenAI | Gemini
  {
    /** The name requests and chat rows use for the provider. */
    function Name(): string {
      match this
      case Claude => "claude"
      case OpenAI => "openai"
      case Gemini => "gemini"
    }

    /** The environment variable holding the provider's API key. */
    function KeyVariable(): string {
      match this
      case Claude => "ANTHROPIC_API_KEY"
      case OpenAI => "OPENAI_API_KEY"
      case Gemini => "GOOGLE_API_KEY"
    }
  }

  /** The provider called `name`, if any. */
  function ParseProvider(name: string): (p: Option<Provider>)
    ensures p.Some? ==> p.value.Name() == name
    ensures p.None? ==> forall q: Provider :: q.Name() != name
  {
    if name == "claude" then Some(Claude)
    else if name == "openai" then Some(OpenAI)
    else if name == "gemini" then Some(Gemini)
    else None
  }

  /** The process environment. */
  type Env = map<string, string>

  /** `os.getenv(name)` is truthy: the variable is set and not empty. */
  predicate HasValue(env: Env, name: string) {
    name in env && env[name] != ""
  }

  /** The LangChain client class that is constructed. */
  datatype ClientClass = ChatAnthropic | ChatOpenAI | ChatGoogleGenerativeAI

  /**
   * The constructor call of a client: its class and keyword arguments.
   * `tokenLimitParam` and `apiKeyParam` are the keyword names under which the
   * token budget and the key are passed. The temperature is a float that is
   * only passed on; it is kept as a `real`.
   */
  datatype ClientConfig = ClientConfig(
    client: ClientClass,
    model: string,
    temperature: real,
    tokenLimitParam: string,
    maxTokens: int,
    streaming: bool,
    apiKeyParam: string,
    apiKey: string)

  /** The ValueErrors that the dispatch raises. */
  datatype LlmError = MissingApiKey(variable: string) | UnsupportedProvider(provider: string)
  {
    /** The message the ValueError carries. */
    function Message(): string {
      match this
      case MissingApiKey(v) => v + " environment variable not set."
      case UnsupportedProvider(p) => "Unsupported LLM provider: " + p
    }
  }

  /** The client class and keyword names used for each provider. */
  function ClientFor(p: Provider): ClientClass {
    match p
    case Claude => ChatAnthropic
    case OpenAI => ChatOpenAI
    case Gemini => ChatGoogleGenerativeAI
  }

  function TokenLimitParam(p: Provider): string {
    match p
    case Claude => "max_tokens"
    case OpenAI => "max_tokens"
    case Gemini => "max_output_tokens"
  }

  function ApiKeyParam(p: Provider): string {
    match p
    case Claude => "anthropic_api_key"
    case OpenAI => "openai_api_key"
    case Gemini => "google_api_key"
  }

  /**
   * get_llm: for a known provider whose API key is set, the client
   * configuration with model, temperature, token budget and streaming flag
   * passed through; for a known provider without a key, a missing-key error
   * naming that provider's variable; for any other name, an unsupported-provider
   * error.
   */
  function GetLlm(env: Env, provider: string, modelName: string,
                  temperature: real := 0.3, maxTokens: int := 1024, streaming: bool := true)
    : (r: Result<ClientConfig, LlmError>)
    ensures ParseProvider(provider).None? <==> r == Err(UnsupportedProvider(provider))
    ensures forall p :: ParseProvider(provider) == Some(p) ==>
              if HasValue(env, p.KeyVariable())
              then r.Ok? && r.value.client == ClientFor(p) && r.value.apiKey == env[p.KeyVariable()]
                   && r.value.apiKeyParam == ApiKeyParam(p)
              else r == Err(MissingApiKey(p.KeyVariable()))
    ensures r.Ok? ==>
              && r.value.model == modelName
              && r.value.temperature == temperature
              && r.value.maxTokens == maxTokens
              && r.value.streaming == streaming
    ensures r.Ok? ==>
              r.value.tokenLimitParam == if provider == "gemini" then "max_output_tokens" else "max_tokens"
  {
    match ParseProvider(provider)
    case None => Err(UnsupportedProvider(provider))
    case Some(p) =>
      var variable := p.KeyVariable();
      if !HasValue(env, variable) then Err(MissingApiKey(variable))
      else Ok(ClientConfig(ClientFor(p), modelName, temperature, TokenLimitParam(p), maxTokens,
                           streaming, ApiKeyParam(p), env[variable]))
  }

  /** Each provider's name is parsed back to that provider. */
  lemma ParseProviderName(p: Provider)
    ensures ParseProvider(p.Name()) == Some(p)
  {
  }

  /**
   * The dispatch for provider `p` consults only `p`'s key: two environments
   * that agree on it give the same result, so a missing key affects only
   * requests for that provider.
   */
  lemma GetLlmReadsOnlyOwnKey(env1: Env, env2: Env, p: Provider, modelName: string,
                              temperature: real, maxTokens: int, streaming: bool)
    requires HasValue(env1, p.KeyVariable()) == HasValue(env2, p.KeyVariable())
    requires HasValue(env1, p.KeyVariable()) ==> env1[p.KeyVariable()] == env2[p.KeyVariable()]
    ensures GetLlm(env1, p.Name(), modelName, temperature, maxTokens, streaming)
         == GetLlm(env2, p.Name(), modelName, temperature, maxTokens, streaming)
  {
    ParseProviderName(p);
  }

  /** A request for a named provider is never rejected as unsupported. */
  lemma KnownProviderIsSupported(env: Env, p: Provider, modelName: string,
                                 temperature: real, maxTokens: int, streaming: bool)
    ensures GetLlm(env, p.Name(), modelName, temperature, maxTokens, streaming) != Err(UnsupportedProvider(p.Name()))
  {
    ParseProviderName(p);
  }

  /** LLM_MODELS: display name to model identifier, per provider. */
  const LlmModels: map<string, map<string, string>> := map[
    "claude" := map[
      "Sonnet 3.5" := "claude-3-5-sonnet-20240620",
      "Opus 3" := "claude-3-opus-20240229",
      "Haiku 3" := "claude-3-haiku-20240307"],
    "openai" := map[
      "GPT-4o" := "gpt-4o",
      "GPT-4o-mini" := "gpt-4o-mini",
      "GPT-3.5 Turbo" := "gpt-3.5-turbo"],
    "gemini" := map[
      "Gemini 1.5 Flash" := "gemini-1.5-flash",
      "Gemini 1.5 Pro" := "gemini-1.5-pro"]
  ]

  /** The providers listed in LLM_MODELS are exactly the ones the dispatch accepts. */
  lemma LlmModelsListsAcceptedProviders(env: Env, name: string, modelName: string)
    ensures name in LlmModels <==> ParseProvider(name).Some?
    ensures name in LlmModels <==> !GetLlm(env, name, modelName).Err? || !GetLlm(env, name, modelName).error.UnsupportedProvider?
  {
  }
}
