/**
 * The configuration modal's two handlers: `validate_api_key_registration`
 * (the acknowledgement, which decides which field shows an error) and
 * `save_api_key_registration` (the lazy handler that stores the record).
 * The OpenAI `models.retrieve` call is the parameter `retrieve`: whether
 * retrieving a model with a given API key succeeds.
 */
module Registration {
  import opened Wrappers
  import opened PyValues
  import opened Store
  import opened Middleware

  /** The model retrieved first, to check that the API key itself works. */
  const ProbeModel: string := "gpt-3.5-turbo"
  const InvalidKeyText: string := "This API key seems to be invalid"
  const ModelUnavailableText: string := "This model is not yet available for this API key"

  /**
   * An error message: the English text as is, or that text handed to
   * `translate` with the API key already in the context.
   */
  datatype ErrorText = English(text: string) | Translated(text: string, withKey: Py)

  /** `ack()` or `ack(response_action="errors", errors={field: message})`. */
  datatype Ack = Accepted | Errors(field: string, message: ErrorText)

  /** `context.get("OPENAI_API_KEY")`, `None` when absent. */
  function AlreadySetKey(values: map<string, Py>): Py {
    DictGet(values, ApiKeyKey, PyNone)
  }

  /**
   * The key the modal sees as already set is the one the middleware wrote
   * for this event: the stored key, or in single-workspace mode the
   * environment's.
   */
  lemma AlreadySetKeyFromMiddleware(values: map<string, Py>, config: Option<Config>, d: Defaults)
    ensures AlreadySetKey(values + Settings(config, d))
         == if Truthy(config) then DictGet(config.value, "api_key", PyNone) else d.envApiKey
  {
  }

  function Message(text: string, alreadySet: Py): ErrorText {
    if alreadySet != PyNone then Translated(text, alreadySet) else English(text)
  }

  /**
   * The acknowledgement of the modal: accepted when the key can retrieve
   * the probe model and the chosen model; an error on `api_key` when the
   * probe fails; an error on `model` when only the chosen model fails. The
   * message is translated exactly when a key was already set.
   */
  function ValidationAck(retrieve: (string, string) -> bool, apiKey: string, model: string, alreadySet: Py): (r: Ack)
    ensures r == Accepted <==> retrieve(apiKey, ProbeModel) && retrieve(apiKey, model)
    ensures (r.Errors? && r.field == "api_key") <==> !retrieve(apiKey, ProbeModel)
    ensures (r.Errors? && r.field == "model") <==> retrieve(apiKey, ProbeModel) && !retrieve(apiKey, model)
    ensures r.Errors? ==> (r.message.Translated? <==> alreadySet != PyNone)
    ensures r.Errors? && r.field == "api_key" ==> r.message.text == InvalidKeyText
    ensures r.Errors? && r.field == "model" ==> r.message.text == ModelUnavailableText
  {
    if !retrieve(apiKey, ProbeModel) then
      Errors("api_key", Message(InvalidKeyText, alreadySet))
    else if !retrieve(apiKey, model) then
      Errors("model", Message(ModelUnavailableText, alreadySet))
    else
      Accepted
  }

  /** The record the modal stores: only the API key and the model. */
  function RegistrationRecord(apiKey: string, model: string): Config {
    map["api_key" := PyStr(apiKey), "model" := PyStr(model)]
  }

  /**
   * A stored registration, read back by the middleware, yields the
   * submitted key and model and the process defaults for the image model
   * and temperature, which the record does not carry.
   */
  lemma RegistrationThroughMiddleware(t: Table, team: string, apiKey: string, model: string, d: Defaults)
    ensures var s := Settings(Select(Upserted(t, team, RegistrationRecord(apiKey, model)), Some(team)), d);
      && s[ApiKeyKey] == PyStr(apiKey)
      && s[ModelKey] == PyStr(model)
      && s[ImageModelKey] == d.imageModel
      && s[TemperatureKey] == d.temperature
  {
    var record := RegistrationRecord(apiKey, model);
    SaveThenGet(t, team, record);
    assert "api_key" in record;
    SettingsFound(record, d);
  }

  /**
   * The table after `save_api_key_registration`: the record is upserted for
   * the team when the chosen model can be retrieved with the key and the
   * save can succeed (the store is reachable and a team id is given);
   * otherwise the table stays as it was.
   */
  function RegistrationTable(t: Table, reachable: bool, team: Option<string>, retrieve: (string, string) -> bool,
                             apiKey: string, model: string): (r: Table)
    ensures retrieve(apiKey, model) && reachable && team.Some? ==>
      Select(r, team) == Some(RegistrationRecord(apiKey, model))
      && forall other :: other != team.value ==> Select(r, Some(other)) == Select(t, Some(other))
    ensures !(retrieve(apiKey, model) && reachable && team.Some?) ==> r == t
  {
    if retrieve(apiKey, model) && reachable && team.Some?
    then Upserted(t, team.value, RegistrationRecord(apiKey, model))
    else t
  }

  /**
   * `save_api_key_registration`: when the chosen model can be retrieved with
   * the key, save the record for the context's team; a failed save is not
   * reported.
   */
  method SaveApiKeyRegistration(store: ConfigStore, context: BoltContext, retrieve: (string, string) -> bool,
                                apiKey: string, model: string, dbUp: bool)
    modifies store`table
    ensures store.table ==
      RegistrationTable(old(store.table), store.Reachable(dbUp), context.teamId, retrieve, apiKey, model)
  {
    if retrieve(apiKey, model) {
      var _ := store.Save(context.teamId, RegistrationRecord(apiKey, model), dbUp);
    }
  }

  /**
   * An accepted modal is stored by its lazy handler whenever the save can
   * succeed: acceptance already required the chosen model to be
   * retrievable. Without a reachable store or a team id nothing changes.
   */
  lemma AcceptedIsSaved(retrieve: (string, string) -> bool, apiKey: string, model: string, alreadySet: Py,
                        t: Table, reachable: bool, team: Option<string>)
    requires ValidationAck(retrieve, apiKey, model, alreadySet) == Accepted
    ensures reachable && team.Some? ==>
      Select(RegistrationTable(t, reachable, team, retrieve, apiKey, model), team)
        == Some(RegistrationRecord(apiKey, model))
    ensures !(reachable && team.Some?) ==> RegistrationTable(t, reachable, team, retrieve, apiKey, model) == t
  {
  }

  /** A modal rejected on its `model` field is never stored: the save handler makes the same check. */
  lemma ModelErrorIsNotSaved(retrieve: (string, string) -> bool, apiKey: string, model: string, alreadySet: Py,
                             t: Table, reachable: bool, team: Option<string>)
    requires ValidationAck(retrieve, apiKey, model, alreadySet).Errors?
    requires ValidationAck(retrieve, apiKey, model, alreadySet).field == "model"
    ensures RegistrationTable(t, reachable, team, retrieve, apiKey, model) == t
  {
  }

  /**
   * The two handlers check differently: the acknowledgement also probes
   * `gpt-3.5-turbo`, the save handler only the chosen model. A key that
   * cannot retrieve the probe model but can retrieve the chosen one is
   * answered "This API key seems to be invalid" and is still stored.
   */
  lemma RejectedKeyIsSaved(t: Table, team: string)
    ensures var retrieve := (k: string, m: string) => m != ProbeModel;
      && ValidationAck(retrieve, "sk-key", "gpt-4", PyNone) == Errors("api_key", English(InvalidKeyText))
      && Select(RegistrationTable(t, true, Some(team), retrieve, "sk-key", "gpt-4"), Some(team))
           == Some(RegistrationRecord("sk-key", "gpt-4"))
  {
    var retrieve := (k: string, m: string) => m != ProbeModel;
    assert !retrieve("sk-key", ProbeModel) && retrieve("sk-key", "gpt-4");
  }
}
