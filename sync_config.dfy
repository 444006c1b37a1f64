/** The sync configuration rules of the orchestrator: the defaults derived
    from the build environment, the merge of a stored configuration over
    them, and the validation run before every sync. */
module SyncConfigRules {
  import opened Wrappers
  import opened Strings
  import opened SyncTypes
  import opened SyncEnv

  /** `getDefaultSyncConfig`, from the environment defaults: the server
      provider when it is enabled, WebDAV otherwise when that is enabled,
      otherwise none; no automatic sync, every five minutes, newest wins. */
  function GetDefaultSyncConfig(env: EnvConfig): (c: SyncConfig)
    ensures c.provider == Server <==> env.serverEnabled
    ensures c.provider == WebDav <==> !env.serverEnabled && env.webdavEnabled
    ensures c.provider == NoProvider <==> !env.serverEnabled && !env.webdavEnabled
    ensures c.enabled <==> env.serverEnabled || env.webdavEnabled
    ensures c.enabled <==> c.provider != NoProvider
    ensures c.useHttps == env.useHttps
    ensures c.serverConfig == ServerConfig(env.serverEndpoint, env.serverUserId)
    ensures c.webdavConfig == WebdavConfig(env.webdavUrl, env.webdavUsername, env.webdavPassword, env.webdavBasePath)
    ensures !c.autoSync && c.syncInterval == 5 && c.conflictResolution == Newest
  {
    var provider := if env.serverEnabled then Server else if env.webdavEnabled then WebDav else NoProvider;
    SyncConfig(
      enabled := env.serverEnabled || env.webdavEnabled,
      provider := provider,
      useHttps := env.useHttps,
      serverConfig := ServerConfig(env.serverEndpoint, env.serverUserId),
      webdavConfig := WebdavConfig(env.webdavUrl, env.webdavUsername, env.webdavPassword, env.webdavBasePath),
      autoSync := false,
      syncInterval := 5,
      conflictResolution := Newest)
  }

  /** A stored configuration as it may come back from persistence: any field
      may be absent (`None`). */
  datatype PartialServerConfig = PartialServerConfig(endpoint: Option<string>, userId: Option<string>)

  datatype PartialWebdavConfig = PartialWebdavConfig(
    url: Option<string>,
    username: Option<string>,
    password: Option<string>,
    basePath: Option<string>)

  datatype PartialSyncConfig = PartialSyncConfig(
    enabled: Option<bool>,
    provider: Option<ProviderType>,
    useHttps: Option<bool>,
    serverConfig: Option<PartialServerConfig>,
    webdavConfig: Option<PartialWebdavConfig>,
    autoSync: Option<bool>,
    syncInterval: Option<int>,
    conflictResolution: Option<Strategy>)

  /** `{ ...defaults.serverConfig, ...(config.serverConfig || {}) }` with an
      empty endpoint refilled from the defaults. */
  function MergeServerConfig(d: ServerConfig, given: Option<PartialServerConfig>): (r: ServerConfig)
    ensures given.Some? && given.value.endpoint.Some? && given.value.endpoint.value != "" ==>
      r.endpoint == given.value.endpoint.value
    ensures !(given.Some? && given.value.endpoint.Some? && given.value.endpoint.value != "") ==>
      r.endpoint == d.endpoint
    ensures given.Some? && given.value.userId.Some? ==> r.userId == given.value.userId.value
    ensures !(given.Some? && given.value.userId.Some?) ==> r.userId == d.userId
  {
    var p := given.GetOr(PartialServerConfig(None, None));
    var endpoint := p.endpoint.GetOr(d.endpoint);
    ServerConfig(if endpoint == "" then d.endpoint else endpoint, p.userId.GetOr(d.userId))
  }

  /** The same for the WebDAV part, where the base path is the refilled field. */
  function MergeWebdavConfig(d: WebdavConfig, given: Option<PartialWebdavConfig>): (r: WebdavConfig)
    ensures given.Some? && given.value.basePath.Some? && given.value.basePath.value != "" ==>
      r.basePath == given.value.basePath.value
    ensures !(given.Some? && given.value.basePath.Some? && given.value.basePath.value != "") ==>
      r.basePath == d.basePath
    ensures given.Some? && given.value.url.Some? ==> r.url == given.value.url.value
    ensures !(given.Some? && given.value.url.Some?) ==> r.url == d.url
    ensures given.Some? && given.value.username.Some? ==> r.username == given.value.username.value
    ensures !(given.Some? && given.value.username.Some?) ==> r.username == d.username
    ensures given.Some? && given.value.password.Some? ==> r.password == given.value.password.value
    ensures !(given.Some? && given.value.password.Some?) ==> r.password == d.password
  {
    var p := given.GetOr(PartialWebdavConfig(None, None, None, None));
    var basePath := p.basePath.GetOr(d.basePath);
    WebdavConfig(
      p.url.GetOr(d.url),
      p.username.GetOr(d.username),
      p.password.GetOr(d.password),
      if basePath == "" then d.basePath else basePath)
  }

  /** `normalizeSyncConfig`: no stored configuration gives the defaults;
      otherwise each stored field overrides its default, and the two
      sub-configurations are merged field by field. */
  function NormalizeSyncConfig(env: EnvConfig, config: Option<PartialSyncConfig>): (r: SyncConfig)
    ensures config.None? ==> r == GetDefaultSyncConfig(env)
    ensures config.Some? ==>
      var c, d := config.value, GetDefaultSyncConfig(env);
      && r.enabled == c.enabled.GetOr(d.enabled)
      && r.provider == c.provider.GetOr(d.provider)
      && r.useHttps == c.useHttps.GetOr(d.useHttps)
      && r.autoSync == c.autoSync.GetOr(d.autoSync)
      && r.syncInterval == c.syncInterval.GetOr(d.syncInterval)
      && r.conflictResolution == c.conflictResolution.GetOr(d.conflictResolution)
      && r.serverConfig == MergeServerConfig(d.serverConfig, c.serverConfig)
      && r.webdavConfig == MergeWebdavConfig(d.webdavConfig, c.webdavConfig)
  {
    var d := GetDefaultSyncConfig(env);
    match config
    case None => d
    case Some(c) =>
      SyncConfig(
        enabled := c.enabled.GetOr(d.enabled),
        provider := c.provider.GetOr(d.provider),
        useHttps := c.useHttps.GetOr(d.useHttps),
        serverConfig := MergeServerConfig(d.serverConfig, c.serverConfig),
        webdavConfig := MergeWebdavConfig(d.webdavConfig, c.webdavConfig),
        autoSync := c.autoSync.GetOr(d.autoSync),
        syncInterval := c.syncInterval.GetOr(d.syncInterval),
        conflictResolution := c.conflictResolution.GetOr(d.conflictResolution))
  }

  /** A full configuration stored back as it is. */
  function Stored(c: SyncConfig): PartialSyncConfig {
    PartialSyncConfig(
      Some(c.enabled), Some(c.provider), Some(c.useHttps),
      Some(PartialServerConfig(Some(c.serverConfig.endpoint), Some(c.serverConfig.userId))),
      Some(PartialWebdavConfig(Some(c.webdavConfig.url), Some(c.webdavConfig.username),
                               Some(c.webdavConfig.password), Some(c.webdavConfig.basePath))),
      Some(c.autoSync), Some(c.syncInterval), Some(c.conflictResolution))
  }

  /** Under a configured environment (the defaults `getSyncEnvConfig` gives
      always have a non-empty endpoint and base path), a normalised
      configuration has a non-empty endpoint and base path. */
  lemma NormalizeFillsPaths(rawEnv: map<string, string>, isDev: bool, config: Option<PartialSyncConfig>)
    ensures var r := NormalizeSyncConfig(GetSyncEnvConfig(rawEnv, isDev), config);
      r.serverConfig.endpoint != "" && r.webdavConfig.basePath != ""
  {
  }

  /** Normalising is idempotent: storing a normalised configuration and
      normalising it again gives it back, so the settings screen may
      normalise whatever it reads. */
  lemma NormalizeIdempotent(rawEnv: map<string, string>, isDev: bool, config: Option<PartialSyncConfig>)
    ensures var env := GetSyncEnvConfig(rawEnv, isDev);
      NormalizeSyncConfig(env, Some(Stored(NormalizeSyncConfig(env, config)))) == NormalizeSyncConfig(env, config)
  {
    NormalizeFillsPaths(rawEnv, isDev, config);
  }

  // ----- Validation ----------------------------------------------------------

  const NotEnabledMessage: string := "云同步未启用"
  const NoProviderMessage: string := "未选择同步方式"
  const NoEndpointMessage: string := "服务器地址不能为空"
  const NoUserIdMessage: string := "用户 ID 不能为空"
  const NoWebdavUrlMessage: string := "WebDAV 地址不能为空"
  const UnknownProviderMessage: string := "未知同步方式"

  datatype Validation = Valid | Invalid(message: string)

  /** What a usable configuration needs: sync enabled, and the server
      provider with a non-blank endpoint and user id, or WebDAV with a
      non-blank URL. */
  predicate Usable(c: SyncConfig) {
    && c.enabled
    && ((c.provider == Server && Trim(c.serverConfig.endpoint) != "" && Trim(c.serverConfig.userId) != "")
        || (c.provider == WebDav && Trim(c.webdavConfig.url) != ""))
  }

  /** `validateSyncConfig`. The checks run in a fixed order, and the first
      one that fails names the problem. */
  function ValidateSyncConfig(c: SyncConfig): (r: Validation)
    ensures r == Valid <==> Usable(c)
    ensures !c.enabled ==> r == Invalid(NotEnabledMessage)
    ensures c.enabled && c.provider == NoProvider ==> r == Invalid(NoProviderMessage)
    ensures c.enabled && c.provider == Server && Trim(c.serverConfig.endpoint) == "" ==> r == Invalid(NoEndpointMessage)
    ensures c.enabled && c.provider == Server && Trim(c.serverConfig.endpoint) != "" && Trim(c.serverConfig.userId) == "" ==>
      r == Invalid(NoUserIdMessage)
    ensures c.enabled && c.provider == WebDav && Trim(c.webdavConfig.url) == "" ==> r == Invalid(NoWebdavUrlMessage)
    ensures c.enabled && c.provider.UnknownProvider? ==> r == Invalid(UnknownProviderMessage)
  {
    if !c.enabled then Invalid(NotEnabledMessage)
    else if c.provider == NoProvider then Invalid(NoProviderMessage)
    else if c.provider == Server then
      if Trim(c.serverConfig.endpoint) == "" then Invalid(NoEndpointMessage)
      else if Trim(c.serverConfig.userId) == "" then Invalid(NoUserIdMessage)
      else Valid
    else if c.provider == WebDav then
      if Trim(c.webdavConfig.url) == "" then Invalid(NoWebdavUrlMessage)
      else Valid
    else Invalid(UnknownProviderMessage)
  }

  /** A disabled configuration is refused before its provider is looked at. */
  lemma DisabledWhateverProvider(c: SyncConfig, p: ProviderType)
    requires !c.enabled
    ensures ValidateSyncConfig(c.(provider := p)) == Invalid(NotEnabledMessage)
  {
  }

  /** With nothing set in the environment and nothing stored, the server
      provider is chosen at `/api`, and the configuration is usable exactly
      in a development build, where the user id falls back to `local-dev`;
      a production build is refused for the missing user id. */
  lemma UnconfiguredDefaults(isDev: bool)
    ensures var c := NormalizeSyncConfig(GetSyncEnvConfig(map[], isDev), None);
      && c.provider == Server && c.serverConfig.endpoint == "/api"
      && (isDev ==> ValidateSyncConfig(c) == Valid)
      && (!isDev ==> ValidateSyncConfig(c) == Invalid(NoUserIdMessage))
  {
    EmptyEnvironment(isDev);
    var c := NormalizeSyncConfig(GetSyncEnvConfig(map[], isDev), None);
    TrimUnchanged("/api");
    if isDev {
      TrimUnchanged("local-dev");
    }
  }
}
