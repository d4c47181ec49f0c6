/** The two keys read from the environment (config.py). */
module Config {

  /** `OPENAI_API_KEY` and `YOUTUBE_API_KEY`, empty when unset. */
  datatype Keys = Keys(openAiKey: string, youtubeKey: string)

  /** `has_youtube_api()`: the YouTube key is non-empty. */
  predicate HasYoutubeApi(k: Keys)
  {
    k.youtubeKey != ""
  }

  /** `bool(OPENAI_API_KEY)`. */
  predicate HasOpenAiKey(k: Keys)
  {
    k.openAiKey != ""
  }

  /** The message of the `SystemExit` that `validate()` raises. */
  const MissingOpenAiKey := "OPENAI_API_KEY not set in .env"
}
