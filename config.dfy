/** The two configuration records: the Bitrix24 connection settings, validated when they
    are built, and the MCP server settings, both readable from the environment. */
module Config {
  import opened Wrappers
  import opened Text
  import opened Json
  import opened PyOps

  /** Bitrix24 connection settings (the requests-per-second rate is not modelled). */
  datatype BitrixConfig = BitrixConfig(
    webhookUrl: Option<string>,
    accessToken: Option<string>,
    portalUrl: Option<string>,
    requestPoolSize: int,
    respectVelocityPolicy: bool,
    sslVerify: bool)

  const MissingCredentials := "Either webhook_url or both access_token and portal_url must be provided"
  const DefaultPoolSize := 50

  /** A webhook, or else a token together with a portal; empty strings count as absent. */
  predicate HasCredentials(webhookUrl: Option<string>, accessToken: Option<string>, portalUrl: Option<string>)
  {
    Given(webhookUrl) || (Given(accessToken) && Given(portalUrl))
  }

  /** Building the settings record, with the validation that runs right after. */
  function NewBitrixConfig(webhookUrl: Option<string>, accessToken: Option<string>, portalUrl: Option<string>,
                           requestPoolSize: int, respectVelocityPolicy: bool, sslVerify: bool): (r: Result<BitrixConfig>)
    ensures r.Ok? <==> HasCredentials(webhookUrl, accessToken, portalUrl)
    ensures r.Err? ==> r.error == MissingCredentials
    ensures r.Ok? ==> r.value.webhookUrl == webhookUrl && r.value.accessToken == accessToken &&
                      r.value.portalUrl == portalUrl && r.value.requestPoolSize == requestPoolSize &&
                      r.value.respectVelocityPolicy == respectVelocityPolicy && r.value.sslVerify == sslVerify
  {
    if !Given(webhookUrl) && !(Given(accessToken) && Given(portalUrl)) then Err(MissingCredentials)
    else Ok(BitrixConfig(webhookUrl, accessToken, portalUrl, requestPoolSize, respectVelocityPolicy, sslVerify))
  }

  /** `os.getenv(name)`. */
  function GetEnv(env: map<string, string>, name: string): Option<string>
  {
    if name in env then Some(env[name]) else None
  }

  /** `os.getenv(name, default)`. */
  function GetEnvOr(env: map<string, string>, name: string, default: string): string
  {
    if name in env then env[name] else default
  }

  /** `os.getenv(name, "true").lower() == "true"`. */
  predicate EnvFlag(env: map<string, string>, name: string)
  {
    Lower(GetEnvOr(env, name, "true")) == "true"
  }

  /** `int(os.getenv(name, default))`, whose default is a numeral of `default`. */
  function EnvInt(env: map<string, string>, name: string, default: int): (r: Result<int>)
    ensures name !in env ==> r == Ok(default)
    ensures name in env ==> (r.Ok? <==> ParseInt(env[name]).Some?)
    ensures name in env && r.Ok? ==> ParseInt(env[name]) == Some(r.value)
    ensures name in env && r.Err? ==> r.error == BadIntLiteral(env[name])
  {
    if name !in env then Ok(default)
    else
      var n := ParseInt(env[name]);
      if n.Some? then Ok(n.value) else Err(BadIntLiteral(env[name]))
  }

  /** `BitrixConfig.from_env()`: the pool size is parsed before the credentials are checked. */
  function BitrixFromEnv(env: map<string, string>): (r: Result<BitrixConfig>)
    ensures r.Ok? ==> r.value.webhookUrl == GetEnv(env, "BITRIX24_WEBHOOK_URL")
    ensures r.Ok? ==> r.value.accessToken == GetEnv(env, "BITRIX24_ACCESS_TOKEN")
    ensures r.Ok? ==> r.value.portalUrl == GetEnv(env, "BITRIX24_PORTAL_URL")
    ensures r.Ok? ==> HasCredentials(r.value.webhookUrl, r.value.accessToken, r.value.portalUrl)
    ensures EnvInt(env, "BITRIX24_REQUEST_POOL_SIZE", DefaultPoolSize).Err? ==>
      r == Err(BadIntLiteral(env["BITRIX24_REQUEST_POOL_SIZE"]))
    ensures EnvInt(env, "BITRIX24_REQUEST_POOL_SIZE", DefaultPoolSize).Ok? ==>
      (r.Ok? <==> HasCredentials(GetEnv(env, "BITRIX24_WEBHOOK_URL"), GetEnv(env, "BITRIX24_ACCESS_TOKEN"), GetEnv(env, "BITRIX24_PORTAL_URL")))
  {
    var pool := EnvInt(env, "BITRIX24_REQUEST_POOL_SIZE", DefaultPoolSize);
    if pool.Err? then Err(pool.error)
    else
      NewBitrixConfig(
        GetEnv(env, "BITRIX24_WEBHOOK_URL"),
        GetEnv(env, "BITRIX24_ACCESS_TOKEN"),
        GetEnv(env, "BITRIX24_PORTAL_URL"),
        pool.value,
        EnvFlag(env, "BITRIX24_RESPECT_VELOCITY_POLICY"),
        EnvFlag(env, "BITRIX24_SSL_VERIFY"))
  }

  /** The performance and SSL settings read from the environment: the two switches are on
      unless set to something other than "true" in any case, and the pool size is the
      numeral given, 50 when none is. */
  lemma BitrixFromEnvSettings(env: map<string, string>)
    requires BitrixFromEnv(env).Ok?
    ensures var c := BitrixFromEnv(env).value;
      (c.sslVerify <==> "BITRIX24_SSL_VERIFY" !in env || Lower(env["BITRIX24_SSL_VERIFY"]) == "true") &&
      (c.respectVelocityPolicy <==>
         "BITRIX24_RESPECT_VELOCITY_POLICY" !in env || Lower(env["BITRIX24_RESPECT_VELOCITY_POLICY"]) == "true")
    ensures "BITRIX24_REQUEST_POOL_SIZE" !in env ==> BitrixFromEnv(env).value.requestPoolSize == DefaultPoolSize
    ensures "BITRIX24_REQUEST_POOL_SIZE" in env ==>
      ParseInt(env["BITRIX24_REQUEST_POOL_SIZE"]) == Some(BitrixFromEnv(env).value.requestPoolSize)
  {
    assert Lower("true") == "true";
  }

  /** MCP server settings. */
  datatype McpConfig = McpConfig(
    serverName: string,
    serverVersion: string,
    description: string,
    transport: string,
    port: int,
    host: string,
    logLevel: string)

  const McpDefaults := McpConfig(
    "bitrix24-mcp", "1.0.0", "Model Context Protocol server for Bitrix24 integration",
    "stdio", 8000, "localhost", "INFO")

  /** `MCPConfig.from_env()`: every setting falls back to its default; only the port can fail. */
  function McpFromEnv(env: map<string, string>): (r: Result<McpConfig>)
    ensures r.Ok? ==> r.value.serverName == GetEnvOr(env, "MCP_SERVER_NAME", McpDefaults.serverName)
    ensures r.Ok? ==> r.value.serverVersion == GetEnvOr(env, "MCP_SERVER_VERSION", McpDefaults.serverVersion)
    ensures r.Ok? ==> r.value.description == GetEnvOr(env, "MCP_SERVER_DESCRIPTION", McpDefaults.description)
    ensures r.Ok? ==> r.value.transport == GetEnvOr(env, "MCP_TRANSPORT", McpDefaults.transport)
    ensures r.Ok? ==> r.value.host == GetEnvOr(env, "MCP_HOST", McpDefaults.host)
    ensures r.Ok? ==> r.value.logLevel == GetEnvOr(env, "MCP_LOG_LEVEL", McpDefaults.logLevel)
    ensures r.Err? <==> "MCP_PORT" in env && ParseInt(env["MCP_PORT"]).None?
    ensures "MCP_PORT" in env && r.Ok? ==> ParseInt(env["MCP_PORT"]) == Some(r.value.port)
    ensures "MCP_PORT" !in env ==> r.Ok? && r.value.port == McpDefaults.port
  {
    var port :- EnvInt(env, "MCP_PORT", McpDefaults.port);
    Ok(McpConfig(
      GetEnvOr(env, "MCP_SERVER_NAME", McpDefaults.serverName),
      GetEnvOr(env, "MCP_SERVER_VERSION", McpDefaults.serverVersion),
      GetEnvOr(env, "MCP_SERVER_DESCRIPTION", McpDefaults.description),
      GetEnvOr(env, "MCP_TRANSPORT", McpDefaults.transport),
      port,
      GetEnvOr(env, "MCP_HOST", McpDefaults.host),
      GetEnvOr(env, "MCP_LOG_LEVEL", McpDefaults.logLevel)))
  }

  /** With nothing set, the MCP settings are the defaults. */
  lemma McpDefaultsFromEmptyEnv()
    ensures McpFromEnv(map[]) == Ok(McpDefaults)
  {
  }

  /** With nothing set, the Bitrix24 settings cannot be built. */
  lemma BitrixFromEmptyEnvFails()
    ensures BitrixFromEnv(map[]) == Err(MissingCredentials)
  {
  }

  /** A webhook alone is enough; pool size, velocity policy and SSL keep their defaults. */
  lemma WebhookOnlyEnv(url: string)
    requires url != []
    ensures BitrixFromEnv(map["BITRIX24_WEBHOOK_URL" := url]) ==
      Ok(BitrixConfig(Some(url), None, None, DefaultPoolSize, true, true))
  {
    var env := map["BITRIX24_WEBHOOK_URL" := url];
    assert Lower("true") == "true";
    assert EnvFlag(env, "BITRIX24_SSL_VERIFY");
    assert EnvFlag(env, "BITRIX24_RESPECT_VELOCITY_POLICY");
  }

  /** `get_config()`: both records, the Bitrix24 one read first. */
  function GetConfig(env: map<string, string>): (r: Result<(BitrixConfig, McpConfig)>)
    ensures r.Ok? <==> BitrixFromEnv(env).Ok? && McpFromEnv(env).Ok?
    ensures BitrixFromEnv(env).Err? ==> r == Err(BitrixFromEnv(env).error)
    ensures BitrixFromEnv(env).Ok? && McpFromEnv(env).Err? ==> r == Err(McpFromEnv(env).error)
    ensures r.Ok? ==> r.value == (BitrixFromEnv(env).value, McpFromEnv(env).value)
  {
    var b :- BitrixFromEnv(env);
    var m :- McpFromEnv(env);
    Ok((b, m))
  }
}
