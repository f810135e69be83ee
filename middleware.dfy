/**
 * The `set_db_openai_api_key` middleware: before any listener runs, look up
 * the event's team in the configuration store and write ten OpenAI settings
 * into the per-event Bolt context, then call `next_`.
 */
module Middleware {
  import opened Wrappers
  import opened PyValues
  import opened Store

  const ApiKeyKey: string := "OPENAI_API_KEY"
  const ModelKey: string := "OPENAI_MODEL"
  const ImageModelKey: string := "OPENAI_IMAGE_GENERATION_MODEL"
  const TemperatureKey: string := "OPENAI_TEMPERATURE"
  const ApiTypeKey: string := "OPENAI_API_TYPE"
  const ApiBaseKey: string := "OPENAI_API_BASE"
  const ApiVersionKey: string := "OPENAI_API_VERSION"
  const DeploymentIdKey: string := "OPENAI_DEPLOYMENT_ID"
  const OrgIdKey: string := "OPENAI_ORG_ID"
  const FunctionCallModuleKey: string := "OPENAI_FUNCTION_CALL_MODULE_NAME"

  /** The context keys in the order the middleware writes them. */
  const WriteOrder: seq<string> := [ApiKeyKey, ModelKey, ImageModelKey, TemperatureKey,
    ApiTypeKey, ApiBaseKey, ApiVersionKey, DeploymentIdKey, OrgIdKey, FunctionCallModuleKey]

  /**
   * The process-wide values the middleware falls back on: the
   * `OPENAI_API_KEY` environment variable as read at the time of the event,
   * and the constants loaded from the environment at start-up (any of which
   * may be `None`).
   */
  datatype Defaults = Defaults(
    envApiKey: Py,
    model: Py,
    imageModel: Py,
    temperature: Py,
    apiType: Py,
    apiBase: Py,
    apiVersion: Py,
    deploymentId: Py,
    orgId: Py,
    functionCallModule: Py)

  /** One observable effect on the context, in order. */
  datatype Step = Wrote(key: string) | CalledNext

  /**
   * Bolt's per-event context: the ids of the event's workspace and a mutable
   * dictionary. The ghost `log` records, in order, every write to the
   * dictionary and every hand-over to the next listener.
   */
  class BoltContext {
    const enterpriseId: Option<string>
    const teamId: Option<string>
    var values: map<string, Py>
    ghost var log: seq<Step>

    constructor (enterpriseId: Option<string>, teamId: Option<string>, values: map<string, Py>)
      ensures this.enterpriseId == enterpriseId && this.teamId == teamId && this.values == values
      ensures log == []
    {
      this.enterpriseId := enterpriseId;
      this.teamId := teamId;
      this.values := values;
      log := [];
    }

    /** `context[key] = value`. */
    method Put(key: string, value: Py)
      modifies this`values, this`log
      ensures values == old(values)[key := value]
      ensures log == old(log) + [Wrote(key)]
    {
      values := values[key := value];
      log := log + [Wrote(key)];
    }

    /**
     * `next_()`: hand the event to the listeners, which read the ten OpenAI
     * settings from the context (the configuration modal reads
     * `OPENAI_API_KEY`), so all ten must be present by then.
     */
    method Next()
      requires forall k :: k in WriteOrder ==> k in values
      modifies this`log
      ensures log == old(log) + [CalledNext]
    {
      log := log + [CalledNext];
    }
  }

  /**
   * The four team-scoped settings: from a truthy configuration (the key and
   * model `None` when absent, the image model and temperature defaulting
   * when absent), otherwise from the defaults.
   */
  function TeamSettings(config: Option<Config>, d: Defaults): map<string, Py> {
    if Truthy(config) then
      map[ApiKeyKey := DictGet(config.value, "api_key", PyNone),
          ModelKey := DictGet(config.value, "model", PyNone),
          ImageModelKey := DictGet(config.value, "image_generation_model", d.imageModel),
          TemperatureKey := DictGet(config.value, "temperature", d.temperature)]
    else
      map[ApiKeyKey := d.envApiKey,
          ModelKey := d.model,
          ImageModelKey := d.imageModel,
          TemperatureKey := d.temperature]
  }

  /** The six static settings, always taken from the defaults. */
  function StaticSettings(d: Defaults): map<string, Py> {
    map[ApiTypeKey := d.apiType,
        ApiBaseKey := d.apiBase,
        ApiVersionKey := d.apiVersion,
        DeploymentIdKey := d.deploymentId,
        OrgIdKey := d.orgId,
        FunctionCallModuleKey := d.functionCallModule]
  }

  /** The ten settings the middleware writes, from the store's answer. */
  function Settings(config: Option<Config>, d: Defaults): map<string, Py> {
    TeamSettings(config, d) + StaticSettings(d)
  }

  /** The middleware writes exactly ten distinct keys, and they are the keys of `Settings`. */
  lemma SettingsKeys(config: Option<Config>, d: Defaults)
    ensures |WriteOrder| == 10
    ensures forall i, j :: 0 <= i < j < |WriteOrder| ==> WriteOrder[i] != WriteOrder[j]
    ensures Settings(config, d).Keys == set k | k in WriteOrder
  {
  }

  /**
   * Found branch: a truthy configuration supplies the key and model
   * (`None` when absent) and, when present, the image model and
   * temperature.
   */
  lemma SettingsFound(config: Config, d: Defaults)
    requires config != map[]
    ensures var s := Settings(Some(config), d);
      && s[ApiKeyKey] == (if "api_key" in config then config["api_key"] else PyNone)
      && s[ModelKey] == (if "model" in config then config["model"] else PyNone)
      && s[ImageModelKey] == (if "image_generation_model" in config then config["image_generation_model"] else d.imageModel)
      && s[TemperatureKey] == (if "temperature" in config then config["temperature"] else d.temperature)
  {
  }

  /**
   * Not-found branch (single-workspace mode): with no configuration, or an
   * empty one, the key comes from the environment and the rest from the
   * defaults.
   */
  lemma SettingsNotFound(config: Option<Config>, d: Defaults)
    requires config.None? || config.value == map[]
    ensures var s := Settings(config, d);
      && s[ApiKeyKey] == d.envApiKey
      && s[ModelKey] == d.model
      && s[ImageModelKey] == d.imageModel
      && s[TemperatureKey] == d.temperature
  {
  }

  /** The six static settings never depend on the store. */
  lemma SettingsStatic(config: Option<Config>, d: Defaults)
    ensures var s := Settings(config, d);
      && s[ApiTypeKey] == d.apiType
      && s[ApiBaseKey] == d.apiBase
      && s[ApiVersionKey] == d.apiVersion
      && s[DeploymentIdKey] == d.deploymentId
      && s[OrgIdKey] == d.orgId
      && s[FunctionCallModuleKey] == d.functionCallModule
  {
  }

  /** The effects of one run of the middleware: the ten writes in order, then `next_`. */
  function MiddlewareSteps(): seq<Step> {
    [Wrote(ApiKeyKey), Wrote(ModelKey), Wrote(ImageModelKey), Wrote(TemperatureKey),
     Wrote(ApiTypeKey), Wrote(ApiBaseKey), Wrote(ApiVersionKey), Wrote(DeploymentIdKey),
     Wrote(OrgIdKey), Wrote(FunctionCallModuleKey), CalledNext]
  }

  /** `next_` comes once, last, after one write of each key in `WriteOrder`. */
  lemma MiddlewareStepsOrder()
    ensures |MiddlewareSteps()| == |WriteOrder| + 1
    ensures forall i :: 0 <= i < |WriteOrder| ==> MiddlewareSteps()[i] == Wrote(WriteOrder[i])
    ensures MiddlewareSteps()[|WriteOrder|] == CalledNext
    ensures forall i :: 0 <= i < |WriteOrder| ==> MiddlewareSteps()[i] != CalledNext
  {
  }

  /**
   * `set_db_openai_api_key`: ask the store for the team's configuration,
   * overlay the ten settings onto the context, and only then call `next_`,
   * exactly once, as the context's log of effects shows.
   */
  method SetDbOpenAiApiKey(store: ConfigStore, context: BoltContext, d: Defaults, dbUp: bool)
    modifies context`values, context`log
    ensures context.values == old(context.values) + Settings(Fetched(store, context.teamId, dbUp), d)
    ensures context.log == old(context.log) + MiddlewareSteps()
  {
    ghost var log0 := context.log;
    var config := store.Get(context.teamId, dbUp);
    ghost var start := context.values;
    ghost var team := TeamSettings(config, d);
    var apiKey, model, imageModel, temperature;
    if Truthy(config) {
      apiKey := DictGet(config.value, "api_key", PyNone);
      model := DictGet(config.value, "model", PyNone);
      imageModel := DictGet(config.value, "image_generation_model", d.imageModel);
      temperature := DictGet(config.value, "temperature", d.temperature);
    } else {
      apiKey, model, imageModel, temperature := d.envApiKey, d.model, d.imageModel, d.temperature;
    }
    context.Put(ApiKeyKey, apiKey);
    context.Put(ModelKey, model);
    context.Put(ImageModelKey, imageModel);
    context.Put(TemperatureKey, temperature);
    assert context.log == log0 + [Wrote(ApiKeyKey), Wrote(ModelKey), Wrote(ImageModelKey), Wrote(TemperatureKey)] by {
      LogFour(log0, Wrote(ApiKeyKey), Wrote(ModelKey), Wrote(ImageModelKey), Wrote(TemperatureKey));
    }
    ghost var log1 := context.log;
    assert context.values == start + team by {
      OverlayFour(start, ApiKeyKey, apiKey, ModelKey, model, ImageModelKey, imageModel, TemperatureKey, temperature);
    }
    ghost var mid := context.values;
    context.Put(ApiTypeKey, d.apiType);
    context.Put(ApiBaseKey, d.apiBase);
    context.Put(ApiVersionKey, d.apiVersion);
    context.Put(DeploymentIdKey, d.deploymentId);
    context.Put(OrgIdKey, d.orgId);
    context.Put(FunctionCallModuleKey, d.functionCallModule);
    assert context.values == mid + StaticSettings(d) by {
      OverlaySix(mid, d);
    }
    assert context.log == log1 + StaticSteps() by {
      LogSix(log1);
    }
    OverlayAssoc(start, team, StaticSettings(d));
    KeysPresent(start, config, d);
    context.Next();
    LogAll(log0);
  }

  /** The six writes of the static settings, in order. */
  function StaticSteps(): seq<Step> {
    [Wrote(ApiTypeKey), Wrote(ApiBaseKey), Wrote(ApiVersionKey),
     Wrote(DeploymentIdKey), Wrote(OrgIdKey), Wrote(FunctionCallModuleKey)]
  }

  lemma LogFour(l: seq<Step>, a: Step, b: Step, c: Step, e: Step)
    ensures l + [a] + [b] + [c] + [e] == l + [a, b, c, e]
  {
  }

  lemma LogSix(l: seq<Step>)
    ensures l + [Wrote(ApiTypeKey)] + [Wrote(ApiBaseKey)] + [Wrote(ApiVersionKey)]
              + [Wrote(DeploymentIdKey)] + [Wrote(OrgIdKey)] + [Wrote(FunctionCallModuleKey)]
         == l + StaticSteps()
  {
  }

  lemma LogAll(l: seq<Step>)
    ensures l + [Wrote(ApiKeyKey), Wrote(ModelKey), Wrote(ImageModelKey), Wrote(TemperatureKey)]
              + StaticSteps() + [CalledNext]
         == l + MiddlewareSteps()
  {
  }

  lemma KeysPresent(m: map<string, Py>, config: Option<Config>, d: Defaults)
    ensures forall k :: k in WriteOrder ==> k in m + Settings(config, d)
  {
    SettingsKeys(config, d);
  }

  lemma OverlayFour(m: map<string, Py>, k1: string, v1: Py, k2: string, v2: Py, k3: string, v3: Py, k4: string, v4: Py)
    ensures m[k1 := v1][k2 := v2][k3 := v3][k4 := v4] == m + map[k1 := v1, k2 := v2, k3 := v3, k4 := v4]
  {
  }

  lemma OverlaySix(m: map<string, Py>, d: Defaults)
    ensures m[ApiTypeKey := d.apiType][ApiBaseKey := d.apiBase][ApiVersionKey := d.apiVersion]
             [DeploymentIdKey := d.deploymentId][OrgIdKey := d.orgId][FunctionCallModuleKey := d.functionCallModule]
         == m + StaticSettings(d)
  {
  }

  lemma OverlayAssoc(m: map<string, Py>, a: map<string, Py>, b: map<string, Py>)
    ensures m + a + b == m + (a + b)
  {
  }

  /**
   * Single-workspace scenario: a team with no stored row sees the
   * default model and the environment's API key.
   */
  lemma UnconfiguredTeamGetsDefaults(t: Table, team: string, d: Defaults)
    requires team !in t
    ensures Settings(Select(t, Some(team)), d)[ModelKey] == d.model
    ensures Settings(Select(t, Some(team)), d)[ApiKeyKey] == d.envApiKey
  {
  }
}
