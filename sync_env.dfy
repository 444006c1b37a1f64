/** The build-time environment defaults of the sync engine (`getSyncEnvConfig`).
    The environment is a map from variable name to value; an absent name is
    an unset variable. */
module SyncEnv {

  datatype EnvConfig = EnvConfig(
    serverEnabled: bool,
    webdavEnabled: bool,
    useHttps: bool,
    serverEndpoint: string,
    serverUserId: string,
    webdavUrl: string,
    webdavUsername: string,
    webdavPassword: string,
    webdavBasePath: string)

  const DefaultServerEndpoint: string := "/api"
  const DevUserId: string := "local-dev"
  const DefaultWebdavBasePath: string := "/dxc-saves/"

  /** The variable is set to exactly `value`. */
  predicate IsExactly(env: map<string, string>, name: string, value: string) {
    name in env && env[name] == value
  }

  /** `env[name] || fallback`: an unset or empty variable takes the fallback. */
  function ValueOr(env: map<string, string>, name: string, fallback: string): (r: string)
    ensures name in env && env[name] != "" ==> r == env[name]
    ensures !(name in env && env[name] != "") ==> r == fallback
  {
    if name in env && env[name] != "" then env[name] else fallback
  }

  /** `getSyncEnvConfig`; `isDev` is `import.meta.env.DEV === true`. */
  function GetSyncEnvConfig(env: map<string, string>, isDev: bool): (c: EnvConfig)
    ensures !c.serverEnabled <==> IsExactly(env, "VITE_SYNC_SERVER_ENABLED", "false")
    ensures c.webdavEnabled <==> IsExactly(env, "VITE_SYNC_WEBDAV_ENABLED", "true")
    ensures c.useHttps <==> IsExactly(env, "VITE_SYNC_USE_HTTPS", "true")
    ensures c.serverEndpoint != "" && c.webdavBasePath != ""
  {
    EnvConfig(
      serverEnabled := if IsExactly(env, "VITE_SYNC_SERVER_ENABLED", "false") then false else true,
      webdavEnabled := IsExactly(env, "VITE_SYNC_WEBDAV_ENABLED", "true"),
      useHttps := IsExactly(env, "VITE_SYNC_USE_HTTPS", "true"),
      serverEndpoint := ValueOr(env, "VITE_SYNC_SERVER_ENDPOINT", DefaultServerEndpoint),
      serverUserId := ValueOr(env, "VITE_SYNC_SERVER_USER_ID", if isDev then DevUserId else ""),
      webdavUrl := ValueOr(env, "VITE_WEBDAV_URL", ""),
      webdavUsername := ValueOr(env, "VITE_WEBDAV_USERNAME", ""),
      webdavPassword := ValueOr(env, "VITE_WEBDAV_PASSWORD", ""),
      webdavBasePath := ValueOr(env, "VITE_WEBDAV_BASE_PATH", DefaultWebdavBasePath))
  }

  /** With nothing configured: the server is enabled at `/api`, WebDAV and
      HTTPS are off, the user id is `local-dev` in development and empty
      otherwise, the WebDAV credentials are empty and the base path is
      `/dxc-saves/`. */
  lemma EmptyEnvironment(isDev: bool)
    ensures GetSyncEnvConfig(map[], isDev)
      == EnvConfig(true, false, false, "/api", if isDev then "local-dev" else "", "", "", "", "/dxc-saves/")
  {
  }

  /** Any value other than exactly `false` leaves the server enabled, and any
      value other than exactly `true` leaves WebDAV disabled: `"FALSE"`, `"0"`
      or `"yes"` have no effect. */
  lemma OnlyExactSpellingsCount(env: map<string, string>, isDev: bool, v: string)
    requires v != "false" && v != "true"
    ensures GetSyncEnvConfig(env["VITE_SYNC_SERVER_ENABLED" := v], isDev).serverEnabled
    ensures !GetSyncEnvConfig(env["VITE_SYNC_WEBDAV_ENABLED" := v], isDev).webdavEnabled
    ensures !GetSyncEnvConfig(env["VITE_SYNC_USE_HTTPS" := v], isDev).useHttps
  {
  }

  /** An empty variable counts as unset for every string default. */
  lemma EmptyValueIsUnset(env: map<string, string>, isDev: bool, name: string)
    ensures GetSyncEnvConfig(env[name := ""], isDev).serverEndpoint
      == GetSyncEnvConfig(env - {name}, isDev).serverEndpoint
    ensures GetSyncEnvConfig(env[name := ""], isDev).serverUserId
      == GetSyncEnvConfig(env - {name}, isDev).serverUserId
    ensures GetSyncEnvConfig(env[name := ""], isDev).webdavBasePath
      == GetSyncEnvConfig(env - {name}, isDev).webdavBasePath
  {
  }
}
