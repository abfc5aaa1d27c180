/** The process environment as the core reads it through `os.getenv`. */
module Environment {

  /** Environment variables by name. */
  type Env = map<string, string>

  const OpenAIKey := "OPENAI_API_KEY"
  const GoogleKey := "GOOGLE_API_KEY"
  const GroqKey := "GROQ_API_KEY"

  /**
   * `os.getenv(name)` is truthy: the variable exists and is not the empty
   * string (an absent variable reads as `None`).
   */
  predicate IsSet(env: Env, name: string) {
    name in env && env[name] != ""
  }
}
