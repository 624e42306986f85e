/**
 * Start-up configuration of the Firebase client: choosing between a local
 * secrets file and the environment, and refusing to start when a required
 * field is missing.
 */
module FirebaseConfig {
  import opened Wrappers

  /** A configuration value: None when undefined, otherwise the string given. */
  type Value = Option<string>

  /** JavaScript truthiness of a configuration value: defined and not the empty string. */
  predicate Truthy(v: Value) {
    v.Some? && v.value != ""
  }

  /** The seven fields of a Firebase web configuration object. */
  datatype Config = Config(
    apiKey: Value,
    authDomain: Value,
    projectId: Value,
    storageBucket: Value,
    messagingSenderId: Value,
    appId: Value,
    measurementId: Value)

  /** What requiring the secrets module yields: its `default` export, if any, and the module object itself. */
  datatype SecretsModule = SecretsModule(defaultExport: Option<Config>, exports: Config)

  /** The outcome of the optional `require` of the secrets file: it throws, or returns a value that may be null. */
  datatype SecretsLoad = LoadThrew | Loaded(secrets: Option<SecretsModule>)

  /** The fields without which initialisation refuses to proceed. */
  datatype RequiredField = ApiKey | ProjectId | AppId

  /** The order in which the required fields are checked. */
  function Rank(f: RequiredField): nat {
    match f
    case ApiKey => 0
    case ProjectId => 1
    case AppId => 2
  }

  function FieldValue(c: Config, f: RequiredField): Value {
    match f
    case ApiKey => c.apiKey
    case ProjectId => c.projectId
    case AppId => c.appId
  }

  /** The text recorded in the missing list for each absent field. */
  function Hint(f: RequiredField): string {
    match f
    case ApiKey => "REACT_APP_FIREBASE_API_KEY or client/src/firebase.secrets.js(apiKey)"
    case ProjectId => "REACT_APP_FIREBASE_PROJECT_ID or client/src/firebase.secrets.js(projectId)"
    case AppId => "REACT_APP_FIREBASE_APP_ID or client/src/firebase.secrets.js(appId)"
  }

  /**
   * `localConfig` after the guarded load: null when the load throws; when it
   * yields a falsy value, that value (None here, as it acts like null from
   * then on); otherwise the module's default export or, lacking one, the
   * module object.
   */
  function LocalConfig(load: SecretsLoad): Option<Config> {
    match load
    case LoadThrew => None
    case Loaded(secrets) =>
      if secrets.None? then None
      else Some(secrets.value.defaultExport.GetOr(secrets.value.exports))
  }

  /** Whether the local configuration is the one used: it was loaded and has a truthy apiKey. */
  predicate UsesLocal(local: Option<Config>) {
    local.Some? && Truthy(local.value.apiKey)
  }

  /** The configuration Firebase is initialised with. */
  function ChooseConfig(local: Option<Config>, env: Config): (chosen: Config)
    ensures UsesLocal(local) ==> chosen == local.value
    ensures !UsesLocal(local) ==> chosen == env
    ensures Truthy(chosen.apiKey) <==> UsesLocal(local) || Truthy(env.apiKey)
  {
    if UsesLocal(local) then local.value else env
  }

  /**
   * The required fields a configuration lacks, as the validation collects
   * them: exactly the falsy ones, each once, in checking order.
   */
  function MissingFields(c: Config): (missing: seq<RequiredField>)
    ensures forall f :: f in missing <==> !Truthy(FieldValue(c, f))
    ensures forall i, j :: 0 <= i < j < |missing| ==> Rank(missing[i]) < Rank(missing[j])
    ensures |missing| <= 3
  {
    (if Truthy(c.apiKey) then [] else [ApiKey])
    + (if Truthy(c.projectId) then [] else [ProjectId])
    + (if Truthy(c.appId) then [] else [AppId])
  }

  /**
   * Module initialisation up to `initializeApp`: load the optional secrets,
   * choose the configuration, collect the missing required fields by
   * successive pushes, and fail (the thrown error) when any is missing.
   */
  method InitializeConfig(load: SecretsLoad, env: Config) returns (r: Result<Config, seq<RequiredField>>)
    ensures r.Failure? <==> MissingFields(ChooseConfig(LocalConfig(load), env)) != []
    ensures r.Failure? ==> r.error == MissingFields(ChooseConfig(LocalConfig(load), env))
    ensures r.Success? ==> r.value == ChooseConfig(LocalConfig(load), env)
    ensures r.Success? ==> forall f :: Truthy(FieldValue(r.value, f))
    ensures !UsesLocal(LocalConfig(load)) ==> (r.Failure? <==> MissingFields(env) != [])
    ensures !UsesLocal(LocalConfig(load)) && r.Success? ==> r.value == env
  {
    var localConfig: Option<Config> := None;
    match load {
      case LoadThrew =>
        localConfig := None;
      case Loaded(secrets) =>
        localConfig := if secrets.None? then None else Some(secrets.value.defaultExport.GetOr(secrets.value.exports));
    }

    var firebaseConfig := if localConfig.Some? && Truthy(localConfig.value.apiKey) then localConfig.value else env;

    var missing: seq<RequiredField> := [];
    if !Truthy(firebaseConfig.apiKey) { missing := missing + [ApiKey]; }
    if !Truthy(firebaseConfig.projectId) { missing := missing + [ProjectId]; }
    if !Truthy(firebaseConfig.appId) { missing := missing + [AppId]; }
    if |missing| > 0 {
      return Failure(missing);
    }
    return Success(firebaseConfig);
  }

  /** A failed secrets load leaves `localConfig` null, so the environment configuration is used. */
  lemma LoadFailureUsesEnv(env: Config)
    ensures LocalConfig(LoadThrew) == None
    ensures ChooseConfig(LocalConfig(LoadThrew), env) == env
  {
  }

  /**
   * Whenever the local configuration is not used (the load threw, yielded a
   * falsy value, or gave a configuration without a truthy apiKey), the outcome
   * is that of validating the environment configuration alone.
   */
  lemma LocalConfigFallback(load: SecretsLoad, env: Config)
    requires !UsesLocal(LocalConfig(load))
    ensures ChooseConfig(LocalConfig(load), env) == env
    ensures MissingFields(ChooseConfig(LocalConfig(load), env)) == MissingFields(env)
  {
  }

  /** A secrets file that supplies a truthy apiKey is always used, whatever the environment holds. */
  lemma LoadedSecretsWin(m: SecretsModule, env: Config)
    requires Truthy(m.defaultExport.GetOr(m.exports).apiKey)
    ensures ChooseConfig(LocalConfig(Loaded(Some(m))), env) == m.defaultExport.GetOr(m.exports)
  {
  }

  /** When the local configuration is chosen, apiKey is never reported missing. */
  lemma LocalChoiceHasApiKey(local: Option<Config>, env: Config)
    requires UsesLocal(local)
    ensures ApiKey !in MissingFields(ChooseConfig(local, env))
  {
  }

  /** Only apiKey, projectId and appId are validated: the other four fields never affect the outcome. */
  lemma OptionalFieldsIrrelevant(c: Config, c': Config)
    requires c.apiKey == c'.apiKey && c.projectId == c'.projectId && c.appId == c'.appId
    ensures MissingFields(c) == MissingFields(c')
  {
  }
}
