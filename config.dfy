// Mobile-agent configuration: the records, their defaults and `validate`.
module Config {
  import opened Wrappers
  import opened PyStr

  datatype AgentMode = Cloud | Local | Hybrid

  datatype OllamaConfig = OllamaConfig(
    apiBase: string,
    apiKey: Option<string>,
    model: string,
    localModel: string,
    timeout: int,
    maxRetries: int,
    temperature: real,
    maxTokens: int)

  datatype ADBConfig = ADBConfig(
    adbPath: string,
    deviceSerial: Option<string>,
    screenshotDir: string,
    timeout: int)

  datatype AgentConfig = AgentConfig(
    maxSteps: int,
    retryAttempts: int,
    stepDelay: real,
    verifyActions: bool,
    contextMemorySize: int,
    enableReflection: bool,
    useComptext: bool)

  datatype MobileAgentConfig = MobileAgentConfig(
    ollama: OllamaConfig,
    adb: ADBConfig,
    agent: AgentConfig,
    mode: AgentMode,
    debug: bool,
    logLevel: string)

  const PrimaryModel := "qwen3-coder:480b"
  const BackupModel := "deepseek-v3.2:671b"
  const LocalModel := "nemotron-3-nano:30b"

  /** `AgentConfig()` */
  const DefaultAgent := AgentConfig(10, 3, 0.5, true, 5, true, true)

  /** `os.getenv(name, default)`, the environment given as a map. */
  function Env(env: map<string, string>, name: string, default: string): string
  {
    if name in env then env[name] else default
  }

  function EnvOpt(env: map<string, string>, name: string): Option<string>
  {
    if name in env then Some(env[name]) else None
  }

  /** `OllamaConfig()` under the environment `env`. */
  function DefaultOllama(env: map<string, string>): (c: OllamaConfig)
    ensures c.apiKey.Some? <==> "OLLAMA_API_KEY" in env
    ensures c.model == PrimaryModel && c.localModel == LocalModel
    ensures c.timeout == 120 && c.maxRetries == 3 && c.maxTokens == 4096
  {
    OllamaConfig(Env(env, "OLLAMA_API_BASE", "https://api.ollama.ai"), EnvOpt(env, "OLLAMA_API_KEY"),
      PrimaryModel, LocalModel, 120, 3, 0.7, 4096)
  }

  /** `ADBConfig()` under the environment `env`. */
  function DefaultADB(env: map<string, string>): (c: ADBConfig)
    ensures c.deviceSerial.Some? <==> "ANDROID_SERIAL" in env
    ensures "ADB_PATH" !in env ==> c.adbPath == "adb"
    ensures c.timeout == 30
  {
    ADBConfig(Env(env, "ADB_PATH", "adb"), EnvOpt(env, "ANDROID_SERIAL"), Env(env, "SCREENSHOT_DIR", "/tmp/mobile_agent"), 30)
  }

  /** `AgentMode(value)`: `None` where the enum constructor raises ValueError. */
  function ModeOf(value: string): (m: Option<AgentMode>)
    ensures m.Some? <==> value in {"cloud", "local", "hybrid"}
  {
    if value == "cloud" then Some(Cloud)
    else if value == "local" then Some(Local)
    else if value == "hybrid" then Some(Hybrid)
    else None
  }

  /** The enum's wire value, which `ModeOf` reads back. */
  function ModeValue(m: AgentMode): (v: string)
    ensures ModeOf(v) == Some(m)
  {
    match m
    case Cloud => "cloud"
    case Local => "local"
    case Hybrid => "hybrid"
  }

  /** `MobileAgentConfig.from_env()`: `None` when AGENT_MODE names no mode. */
  function FromEnv(env: map<string, string>): (c: Option<MobileAgentConfig>)
    ensures c.Some? <==> ModeOf(Env(env, "AGENT_MODE", "cloud")).Some?
    ensures "AGENT_MODE" !in env ==> c.Some? && c.value.mode == Cloud
    ensures c.Some? ==> c.value.agent == DefaultAgent
    ensures c.Some? ==> (c.value.debug <==> Lower(Env(env, "DEBUG", "false")) == "true")
  {
    match ModeOf(Env(env, "AGENT_MODE", "cloud"))
    case None => None
    case Some(mode) =>
      Some(MobileAgentConfig(DefaultOllama(env), DefaultADB(env), DefaultAgent, mode,
        Lower(Env(env, "DEBUG", "false")) == "true", Env(env, "LOG_LEVEL", "INFO")))
  }

  const KeyError := "OLLAMA_API_KEY is required for cloud/hybrid mode"
  const StepsError := "max_steps must be at least 1"
  const RetryError := "retry_attempts cannot be negative"

  predicate MissingKey(c: MobileAgentConfig)
  {
    (c.mode == Cloud || c.mode == Hybrid) && (c.ollama.apiKey == None || c.ollama.apiKey == Some(""))
  }

  /** `validate()`: the failed checks' messages, in the order key, steps, retries. */
  function Validate(c: MobileAgentConfig): (errors: seq<string>)
    ensures KeyError in errors <==> MissingKey(c)
    ensures StepsError in errors <==> c.agent.maxSteps < 1
    ensures RetryError in errors <==> c.agent.retryAttempts < 0
    ensures errors == [] <==> !MissingKey(c) && c.agent.maxSteps >= 1 && c.agent.retryAttempts >= 0
    ensures forall e :: e in errors ==> e in [KeyError, StepsError, RetryError]
  {
    (if MissingKey(c) then [KeyError] else [])
    + (if c.agent.maxSteps < 1 then [StepsError] else [])
    + (if c.agent.retryAttempts < 0 then [RetryError] else [])
  }

  function Rank(e: string): nat
  {
    if e == KeyError then 0 else if e == StepsError then 1 else 2
  }

  /** The messages come in the fixed order key, steps, retries, each at most once. */
  lemma ValidateOrder(c: MobileAgentConfig)
    ensures forall i, j :: 0 <= i < j < |Validate(c)| ==> Rank(Validate(c)[i]) < Rank(Validate(c)[j])
  {
  }

  /** The default agent settings pass validation in local mode, and in any
    * mode once an API key is set. */
  lemma DefaultsValid(env: map<string, string>)
    requires FromEnv(env).Some?
    requires FromEnv(env).value.mode == Local || (EnvOpt(env, "OLLAMA_API_KEY").Some? && env["OLLAMA_API_KEY"] != "")
    ensures Validate(FromEnv(env).value) == []
  {
  }
}
