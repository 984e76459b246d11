/** The model names fixed in the configuration module (environment reads are not modelled). */
module Config {
  const CouncilModels: seq<string> := ["Phi-4", "gpt-5-mini", "gpt-4.1", "DeepSeek-R1"]
  const ChairmanModel: string := "gpt-5"
  const TitleModel: string := "gpt-5-mini"
}
