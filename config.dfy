/** The catalogs and limits of src/config: the chat models of fal's any-llm endpoint, the image models, and the packer's budgets. */
module Config {
  const PromptLimit: nat := 4800
  const SystemPromptLimit: nat := 4800

  const FalSupportedModels: seq<string> := [
    "anthropic/claude-sonnet-4",
    "anthropic/claude-opus-4",
    "anthropic/claude-3.7-sonnet",
    "anthropic/claude-3.5-sonnet",
    "anthropic/claude-3-5-haiku",
    "anthropic/claude-3-haiku",
    "google/gemini-2.5-pro",
    "google/gemini-pro-1.5",
    "google/gemini-flash-1.5",
    "google/gemini-flash-1.5-8b",
    "google/gemini-2.0-flash-001",
    "moonshotai/kimi-k2",
    "meta-llama/llama-3.2-1b-instruct",
    "meta-llama/llama-3.2-3b-instruct",
    "meta-llama/llama-3.1-8b-instruct",
    "meta-llama/llama-3.1-70b-instruct",
    "openai/gpt-4o-mini",
    "openai/gpt-4o",
    "deepseek/deepseek-r1",
    "meta-llama/llama-4-maverick",
    "meta-llama/llama-4-scout"
  ]

  const FalImageModels: seq<string> := ["flux-1.1-ultra", "recraft-v3", "flux-1.1-pro", "ideogram-v2", "flux-dev", "imagen3"]
}
