/** Choosing the default model configuration from the providers the backend lists. */
module ModelService {
  import opened Wrappers

  /** One configuration of a provider as the backend sends it (credentials, user
      prompt and history length are not read by the selection). */
  datatype ModelConfigDTO = ModelConfigDTO(
    id: string, name: string, model: string, systemPrompt: string, temperature: real)

  /** A provider entry; `configs` is `None` when the field is missing or null. */
  datatype ModelProviderDTO = ModelProviderDTO(provider: string, configs: Option<seq<ModelConfigDTO>>)

  /** The flattened record the chat component keeps as its model configuration. */
  datatype ModelConfig = ModelConfig(
    id: string, name: string, provider: string, model: string,
    temperature: real, systemPrompt: string, isActive: bool)

  /** What fetching the provider list gave: the list, or a thrown error (no token,
      HTTP failure, network failure). */
  datatype FetchOutcome = Fetched(providers: seq<ModelProviderDTO>) | FetchFailed

  /** `provider.configs && provider.configs.length > 0`. */
  predicate HasConfigs(p: ModelProviderDTO)
  {
    p.configs.Some? && |p.configs.value| > 0
  }

  /** Provider `i` is the first in `providers` that has a configuration. */
  predicate FirstConfigured(providers: seq<ModelProviderDTO>, i: int)
  {
    0 <= i < |providers| && HasConfigs(providers[i])
    && forall k :: 0 <= k < i ==> !HasConfigs(providers[k])
  }

  /** `getDefaultModel`: walks the providers in order and returns, built from the first
      configuration of the first provider that has any, the flattened record; `None`
      when no provider has a configuration or when fetching failed. */
  method GetDefaultModel(fetched: FetchOutcome) returns (r: Option<ModelConfig>)
    ensures fetched.FetchFailed? ==> r.None?
    ensures fetched.Fetched? ==>
      (r.None? <==> forall k :: 0 <= k < |fetched.providers| ==> !HasConfigs(fetched.providers[k]))
    ensures r.Some? ==> fetched.Fetched?
    ensures r.Some? ==>
      exists i :: (FirstConfigured(fetched.providers, i)
        && r.value.id == fetched.providers[i].configs.value[0].id
        && r.value.name == fetched.providers[i].configs.value[0].name
        && r.value.model == fetched.providers[i].configs.value[0].model
        && r.value.temperature == fetched.providers[i].configs.value[0].temperature
        && r.value.systemPrompt == fetched.providers[i].configs.value[0].systemPrompt
        && r.value.provider == fetched.providers[i].provider)
    ensures r.Some? ==> r.value.isActive
  {
    if fetched.FetchFailed? {
      return None;
    }
    var providers := fetched.providers;
    for i := 0 to |providers|
      invariant forall k :: 0 <= k < i ==> !HasConfigs(providers[k])
    {
      if providers[i].configs.Some? && |providers[i].configs.value| > 0 {
        var config := providers[i].configs.value[0];
        return Some(ModelConfig(config.id, config.name, providers[i].provider, config.model,
                                config.temperature, config.systemPrompt, true));
      }
    }
    return None;
  }
}
