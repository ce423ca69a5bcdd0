/** Model configurations, as the router, the resolver and the config service see them. */
module ModelConfigs {
  import opened Wrappers

  const PUBLIC := "public"
  const PRIVATE := "private"

  datatype ModelConfig = ModelConfig(id: string, provider: string, baseUrl: string, apiKey: string, model: string,
                                     network: string, enabled: bool, probePassed: bool, isCurrent: bool)

  datatype Error =
    | ConfigNotFound | ConfigDisabled | NoAvailablePrivateConfig | Upstream
    | CurrentConfigRequiresReplacement | ProbeFailed | Unauthorized | SyncFailed | SaveFailed
    | DesensitizationIncomplete | DispositionAuditRequired | DispositionAuditFailed | ProcessorFailed
    | Joined(cause: Error, other: Error)


  type Configs = map<string, ModelConfig>

  /** Every entry is filed under its own id. */
  ghost predicate Filed(configs: Configs) {
    forall id | id in configs :: configs[id].id == id
  }

  function Get(configs: Configs, id: string): Result<ModelConfig, Error> {
    if id in configs then Ok(configs[id]) else Err(ConfigNotFound)
  }

  /** An order in which the store lists its entries, each once; it may differ from call to call. */
  ghost predicate Enumerates(order: seq<string>, configs: Configs) {
    && (forall id | id in order :: id in configs) && (forall id | id in configs :: id in order)
    && (forall i, j | 0 <= i < j < |order| :: order[i] != order[j])
  }

  /** `Store.Current`: the first entry marked current in the order met. */
  function Current(configs: Configs, order: seq<string>): (r: Result<ModelConfig, Error>)
    requires forall id | id in order :: id in configs
    ensures r.Ok? ==> r.value.isCurrent && r.value in configs.Values
    ensures r.Err? ==> r.error == ConfigNotFound && forall id | id in order :: !configs[id].isCurrent
  {
    if order == [] then Err(ConfigNotFound)
    else if configs[order[0]].isCurrent then
      assert order[0] in configs;
      Ok(configs[order[0]])
    else Current(configs, order[1..])
  }
}
