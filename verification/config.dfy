/**
 * The configuration loader: the contents of `secrets.json` (if the file
 * exists) overlaid by two environment variables, with built-in defaults
 * filling only the keys still missing. Reading the file and the
 * environment happens outside the model; their results are the inputs.
 */
module Config {
  import opened Common

  const ApiKeyName := "openrouter_api_key"
  const WorkerModelName := "worker_model"

  /** The built-in defaults for the non-sensitive settings. */
  const Defaults: map<string, Value> := map[
    "orchestrator_model" := Str("minimax/minimax-m2"),
    WorkerModelName := Str("deepseek/deepseek-v3.2"),
    "zdr_enabled" := Bool(true),
    "preferred_providers" := List([Str("Together"), Str("Fireworks")]),
    "cost_limits" := Obj(map["daily_usd" := Float(10.0), "monthly_usd" := Float(50.0)])
  ]

  /** An environment variable counts only when it is set to a non-empty string. */
  predicate EnvSet(v: Option<string>)
  {
    v.Some? && v.value != ""
  }

  /** The file layer: its parsed contents, or nothing when the file does not exist. */
  function FileLayer(file: Option<map<string, Value>>): map<string, Value>
  {
    if file.Some? then file.value else map[]
  }

  /** The keys an environment variable replaced. */
  function Overridden(envApiKey: Option<string>, envWorkerModel: Option<string>): set<string>
  {
    (if EnvSet(envApiKey) then {ApiKeyName} else {}) + (if EnvSet(envWorkerModel) then {WorkerModelName} else {})
  }

  /** The file layer with the two environment overrides applied. */
  function EnvLayer(file: Option<map<string, Value>>, envApiKey: Option<string>, envWorkerModel: Option<string>)
    : (r: map<string, Value>)
    ensures r.Keys == FileLayer(file).Keys + Overridden(envApiKey, envWorkerModel)
  {
    var withKey := if EnvSet(envApiKey) then FileLayer(file)[ApiKeyName := Str(envApiKey.value)] else FileLayer(file);
    if EnvSet(envWorkerModel) then withKey[WorkerModelName := Str(envWorkerModel.value)] else withKey
  }

  /**
   * The merged configuration: every key comes from the environment if it
   * overrides it, else from the file, else from the defaults.
   */
  function Merged(file: Option<map<string, Value>>, envApiKey: Option<string>, envWorkerModel: Option<string>)
    : (r: map<string, Value>)
    ensures r.Keys == FileLayer(file).Keys + Defaults.Keys + Overridden(envApiKey, envWorkerModel)
    ensures EnvSet(envApiKey) ==> r[ApiKeyName] == Str(envApiKey.value)
    ensures EnvSet(envWorkerModel) ==> r[WorkerModelName] == Str(envWorkerModel.value)
    ensures forall k :: k in FileLayer(file) && k !in Overridden(envApiKey, envWorkerModel) ==>
              r[k] == FileLayer(file)[k]
    ensures forall k :: k in Defaults && k !in FileLayer(file) && k !in Overridden(envApiKey, envWorkerModel) ==>
              r[k] == Defaults[k]
    ensures ApiKeyName in r <==> ApiKeyName in FileLayer(file) || EnvSet(envApiKey)
  {
    FillMissing(EnvLayer(file, envApiKey, envWorkerModel), Defaults)
  }

  /** `base` with every key of `defaults` that it lacks added. */
  function FillMissing(base: map<string, Value>, defaults: map<string, Value>): (r: map<string, Value>)
    ensures r.Keys == base.Keys + defaults.Keys
    ensures forall k :: k in base ==> r[k] == base[k]
    ensures forall k :: k in defaults && k !in base ==> r[k] == defaults[k]
  {
    map k | k in base.Keys + defaults.Keys :: if k in base then base[k] else defaults[k]
  }

  /**
   * `load_secrets`: start from the file (or an empty map), let the two
   * environment variables overwrite their keys, then add each default
   * whose key is still missing.
   */
  method LoadSecrets(file: Option<map<string, Value>>, envApiKey: Option<string>, envWorkerModel: Option<string>)
    returns (secrets: map<string, Value>)
    ensures secrets == Merged(file, envApiKey, envWorkerModel)
  {
    if file.Some? {
      secrets := file.value;
    } else {
      secrets := map[];
    }
    if EnvSet(envApiKey) {
      secrets := secrets[ApiKeyName := Str(envApiKey.value)];
    }
    if EnvSet(envWorkerModel) {
      secrets := secrets[WorkerModelName := Str(envWorkerModel.value)];
    }
    assert secrets == EnvLayer(file, envApiKey, envWorkerModel);
    secrets := AddDefaults(secrets, Defaults);
  }

  /** The loop over the defaults: insert each one whose key is missing. */
  method AddDefaults(layered: map<string, Value>, defaults: map<string, Value>) returns (secrets: map<string, Value>)
    ensures secrets == FillMissing(layered, defaults)
  {
    secrets := layered;
    var pending := defaults.Keys;
    while pending != {}
      invariant pending <= defaults.Keys
      invariant secrets.Keys == layered.Keys + (defaults.Keys - pending)
      invariant forall k :: k in layered ==> secrets[k] == layered[k]
      invariant forall k :: k in defaults.Keys - pending && k !in layered ==> secrets[k] == defaults[k]
      decreases pending
    {
      var key :| key in pending;
      if key !in secrets {
        secrets := secrets[key := defaults[key]];
      }
      pending := pending - {key};
    }
    assert secrets.Keys == FillMissing(layered, defaults).Keys;
  }

  /** The defaults never supply the credential. */
  lemma DefaultsOmitApiKey()
    ensures ApiKeyName !in Defaults
  {
  }

  /**
   * Without a secrets file, the credential is present exactly when the
   * environment supplies it.
   */
  lemma MissingFileLeavesKeyToEnvironment(envApiKey: Option<string>, envWorkerModel: Option<string>)
    ensures ApiKeyName in Merged(None, envApiKey, envWorkerModel) <==> EnvSet(envApiKey)
  {
  }
}
