/**
 * Generation provider selection (`get_llm`): the first usable credential in a
 * fixed priority order decides the chat model; without one, selection fails.
 */
module Llm {
  import opened Wrappers
  import opened Strings
  import opened Environment

  datatype Provider = Groq | OpenAI | Gemini

  /** A configured chat model: its backend, model name and sampling temperature. */
  datatype ChatModel = ChatModel(provider: Provider, model: string, temperature: int)

  const GroqModel := "llama-3.3-70b-versatile"
  const OpenAIModel := "gpt-4o"
  const GeminiModel := "gemini-1.5-flash"
  const OpenAIKeyPrefix := "sk-"
  const NoKeyError := "No valid API Key found. Please check your .env file."

  /** The model each backend is configured with. */
  function ModelOf(provider: Provider): string {
    match provider
    case Groq => GroqModel
    case OpenAI => OpenAIModel
    case Gemini => GeminiModel
  }

  /** An OpenAI key is used for generation only if it carries the `sk-` prefix. */
  predicate OpenAIKeyUsable(env: Env) {
    IsSet(env, OpenAIKey) && StartsWith(env[OpenAIKey], OpenAIKeyPrefix)
  }

  function GetLlm(env: Env): (r: Result<ChatModel>)
    ensures r.Ok? ==> r.value.temperature == 0
    ensures r.Ok? ==> r.value.model == ModelOf(r.value.provider)
    ensures IsSet(env, GroqKey) ==> r.Ok? && r.value.provider == Groq
    ensures (r.Ok? && r.value.provider == OpenAI) <==> !IsSet(env, GroqKey) && OpenAIKeyUsable(env)
    ensures (r.Ok? && r.value.provider == Gemini) <==>
      !IsSet(env, GroqKey) && !OpenAIKeyUsable(env) && IsSet(env, GoogleKey)
    ensures r.Err? <==> !IsSet(env, GroqKey) && !OpenAIKeyUsable(env) && !IsSet(env, GoogleKey)
    ensures r.Err? ==> r.error == NoKeyError
  {
    if IsSet(env, GroqKey) then Ok(ChatModel(Groq, GroqModel, 0))
    else if OpenAIKeyUsable(env) then Ok(ChatModel(OpenAI, OpenAIModel, 0))
    else if IsSet(env, GoogleKey) then Ok(ChatModel(Gemini, GeminiModel, 0))
    else Err(NoKeyError)
  }

  /** A Groq key wins whatever else is configured. */
  lemma GroqTakesPriority(env: Env, openai: string, google: string)
    requires IsSet(env, GroqKey)
    ensures GetLlm(env[OpenAIKey := openai][GoogleKey := google]) == GetLlm(env)
  {
  }

  /** An OpenAI key without the `sk-` prefix is skipped; a Gemini key then takes over. */
  lemma MalformedOpenAIKeyFallsThrough(env: Env)
    requires !IsSet(env, GroqKey) && IsSet(env, OpenAIKey) && !StartsWith(env[OpenAIKey], OpenAIKeyPrefix)
    requires IsSet(env, GoogleKey)
    ensures GetLlm(env) == Ok(ChatModel(Gemini, GeminiModel, 0))
  {
  }
}
