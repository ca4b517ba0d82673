/**
 The agent's configuration (deploy-agent/deployd/common/config.py): per-goal settings
 over the configuration file over defaults, and the environment given to scripts.
 */
module AgentConfig {
  import opened Wrappers
  import opened DeployTypes
  import opened RunLog

  type Settings = map<string, string>

  function StageName(s: DeployStage): string {
    match s
    case UnknownStage => "UNKNOWN" case PreDownload => "PRE_DOWNLOAD" case Downloading => "DOWNLOADING"
    case PostDownload => "POST_DOWNLOAD" case Staging => "STAGING" case PreRestart => "PRE_RESTART"
    case Restarting => "RESTARTING" case PostRestart => "POST_RESTART" case ServingBuild => "SERVING_BUILD"
    case Stopping => "STOPPING" case Stopped => "STOPPED"
  }

  function OpName(op: OpCode): string {
    match op
    case Noop => "NOOP" case Deploy => "DEPLOY" case Update => "UPDATE" case Restart => "RESTART"
    case Delete => "DELETE" case Terminate => "TERMINATE" case Wait => "WAIT"
    case Rollback => "ROLLBACK" case Stop => "STOP"
  }

  const PRE_STAGE_STEPS := {"PRE_DOWNLOAD", "DOWNLOADING", "POST_DOWNLOAD", "STAGING"}

  /** They are the stages up to STAGING. */
  lemma PreStageIsEarly(stage: DeployStage)
    ensures StageName(stage) in PRE_STAGE_STEPS <==> StageRank(PreDownload) <= StageRank(stage) <= StageRank(Staging)
  {
    // Names of equal length differ in one of their first letters.
    assert "UNKNOWN"[0] != "STAGING"[0] && "STOPPED"[2] != "STAGING"[2] && "PRE_RESTART"[0] != "DOWNLOADING"[0];
    assert "POST_RESTART"[1] != "PRE_DOWNLOAD"[1] && "SERVING_BUILD"[0] != "POST_DOWNLOAD"[0];
  }

  // ---------- Settings ----------

  function Lookup(configs: Settings, reader: Settings, name: string): Option<string> {
    if name in configs then Some(configs[name]) else if name in reader then Some(reader[name]) else None
  }

  function Digits(s: string): Option<int> {
    if s == [] then None
    else
      var d := s[|s| - 1] as int - '0' as int;
      if !(0 <= d <= 9) then None
      else if |s| == 1 then Some(d)
      else
        var rest := Digits(s[..|s| - 1]);
        if rest.None? then None else Some(10 * rest.value + d)
  }

  /** Python's `int` on a decimal numeral; `None` stands for ValueError. */
  function ParseInt(s: string): Option<int> {
    if s != [] && s[0] == '-' then
      var n := Digits(s[1..]);
      if n.Some? then Some(-n.value) else None
    else Digits(s)
  }

  function TextSetting(configs: Settings, reader: Settings, name: string, default: string): string {
    var text := Lookup(configs, reader, name);
    if text.None? then default else text.value
  }

  /** `os.path.join`. */
  function PathJoin(a: string, b: string): string {
    if b != "" && b[0] == '/' then b
    else if a == "" || a[|a| - 1] == '/' then a + b
    else a + "/" + b
  }

  function IntSetting(configs: Settings, reader: Settings, name: string, default: int): Option<int> {
    var text := Lookup(configs, reader, name);
    if text.None? then Some(default) else ParseInt(text.value)
  }

  /** The executor's limits under settings over the file over the defaults; `None` stands for ValueError. */
  function ParseLimits(configs: Settings, reader: Settings): Option<Limits> {
    var timeout := IntSetting(configs, reader, "process_timeout", 1800);
    var ping := IntSetting(configs, reader, "min_running_time", 60);
    var retry := IntSetting(configs, reader, "max_retry", 3);
    var poll := IntSetting(configs, reader, "process_wait_interval", 2);
    var factor := IntSetting(configs, reader, "back_off_factor", 2);
    var sleep := IntSetting(configs, reader, "max_sleep_interval", 60);
    if timeout.None? || ping.None? || retry.None? || poll.None? || factor.None? || sleep.None? then None
    else Some(Limits(timeout.value, ping.value, retry.value, poll.value, factor.value, sleep.value))
  }

  /** A number is that of the setting, of the file if there is no setting, or else the default. */
  predicate Told(configs: Settings, reader: Settings, name: string, default: int, n: int) {
    if name in configs then ParseInt(configs[name]) == Some(n)
    else if name in reader then ParseInt(reader[name]) == Some(n)
    else n == default
  }

  /** Which setting each limit is told by. */
  lemma LimitsAreTold(configs: Settings, reader: Settings, l: Limits)
    ensures ParseLimits(configs, reader) == Some(l) <==>
              && Told(configs, reader, "process_timeout", 1800, l.maxRunningTime)
              && Told(configs, reader, "min_running_time", 60, l.minRunningTime)
              && Told(configs, reader, "max_retry", 3, l.maxRetry)
              && Told(configs, reader, "process_wait_interval", 2, l.pollInterval)
              && Told(configs, reader, "back_off_factor", 2, l.backOff)
              && Told(configs, reader, "max_sleep_interval", 60, l.maxSleepInterval)
  {
    hide ParseInt;
  }

  /** The decimal numeral of a number. */
  function Decimal(n: int): string
    decreases if n < 0 then 1 - n else n
  {
    if n < 0 then "-" + Decimal(-n)
    else if n < 10 then ["0123456789"[n]]
    else Decimal(n / 10) + ["0123456789"[n % 10]]
  }

  lemma DigitValue(d: nat)
    requires d < 10
    ensures "0123456789"[d] as int - '0' as int == d
  {
  }

  lemma {:induction false} DigitsOfDecimal(n: nat)
    ensures Decimal(n) != [] && Decimal(n)[0] != '-' && Digits(Decimal(n)) == Some(n)
    decreases n
  {
    DigitValue(n % 10);
    if n >= 10 {
      DigitsOfDecimal(n / 10);
      var s := Decimal(n);
      assert s[..|s| - 1] == Decimal(n / 10) && s[0] == Decimal(n / 10)[0];
    }
  }

  /** Reading the decimal numeral of a number gives the number. */
  lemma ParsesDecimal(n: int)
    ensures ParseInt(Decimal(n)) == Some(n)
  {
    hide Digits;
    if n < 0 {
      DigitsOfDecimal(-n);
      assert Decimal(n) == "-" + Decimal(-n);
      hide Decimal;
      assert ("-" + Decimal(-n))[1..] == Decimal(-n);
    } else {
      DigitsOfDecimal(n);
    }
  }

  /** The settings can be read as limits without an exception, and every sleep they lead to is possible. */
  predicate Usable(limits: Option<Limits>) {
    limits.Some? && Sane(limits.value)
  }

  function SettingsOf(v: StatusValue): Settings {
    if NonEmpty(v.runtimeConfig) then v.runtimeConfig.value else map[]
  }

  // ---------- The environment of the scripts ----------

  function Exported(environ: Settings, v: StatusValue): Settings
    requires v.report.Some? && v.report.value.deployId.Some? && v.report.value.deployStage.Some? && v.opCode.Some?
  {
    var report := v.report.value;
    var ids := environ["DEPLOY_ID" := report.deployId.value]["DEPLOY_STEP" := StageName(report.deployStage.value)]
                      ["OPCODE" := OpName(v.opCode.value)];
    var env := if report.envName.Some? && report.envName.value != ""
               then ids["ENV_NAME" := report.envName.value] else ids;
    var stage := if report.stageName.Some? && report.stageName.value != ""
                 then env["STAGE_NAME" := report.stageName.value] else env;
    if NonEmpty(v.scriptVariables) then stage + v.scriptVariables.value else stage
  }

  /** What is exported, variable by variable; a script variable of the same name comes last. */
  lemma ExportedSays(environ: Settings, v: StatusValue, name: string)
    requires v.report.Some? && v.report.value.deployId.Some? && v.report.value.deployStage.Some? && v.opCode.Some?
    ensures var after, report := Exported(environ, v), v.report.value;
            if NonEmpty(v.scriptVariables) && name in v.scriptVariables.value then
              Lookup(after, map[], name) == Some(v.scriptVariables.value[name])
            else if name == "DEPLOY_ID" then Lookup(after, map[], name) == report.deployId
            else if name == "DEPLOY_STEP" then Lookup(after, map[], name) == Some(StageName(report.deployStage.value))
            else if name == "OPCODE" then Lookup(after, map[], name) == Some(OpName(v.opCode.value))
            else if name == "ENV_NAME" && report.envName.Some? && report.envName.value != "" then
              Lookup(after, map[], name) == report.envName
            else if name == "STAGE_NAME" && report.stageName.Some? && report.stageName.value != "" then
              Lookup(after, map[], name) == report.stageName
            else Lookup(after, map[], name) == Lookup(environ, map[], name)
  {
    hide StageName;
    hide OpName;
  }

  /** The deploy step that a script of status `v` sees: its stage, unless a script variable of that name hides it. */
  function StepSeen(v: StatusValue): Option<string> {
    if NonEmpty(v.scriptVariables) && "DEPLOY_STEP" in v.scriptVariables.value
    then Some(v.scriptVariables.value["DEPLOY_STEP"])
    else if v.report.Some? && v.report.value.deployStage.Some? then Some(StageName(v.report.value.deployStage.value))
    else None
  }

  /** The environment's name that a script of status `v` sees, if the status gives one. */
  function NameSeen(v: StatusValue): Option<string> {
    if NonEmpty(v.scriptVariables) && "ENV_NAME" in v.scriptVariables.value
    then Some(v.scriptVariables.value["ENV_NAME"])
    else if v.report.Some? && v.report.value.envName.Some? && v.report.value.envName.value != ""
    then v.report.value.envName
    else None
  }

  /** What a status puts in effect: its settings, and its step and name for scripts. */
  datatype Effect = Effect(settings: Settings, step: Option<string>, name: Option<string>)

  function EffectOf(v: StatusValue): Effect { Effect(SettingsOf(v), StepSeen(v), NameSeen(v)) }

  predicate InEffect(configs: Settings, environ: Settings, e: Effect) {
    && configs == e.settings
    && Lookup(environ, map[], "DEPLOY_STEP") == e.step
    && (e.name.Some? ==> Lookup(environ, map[], "ENV_NAME") == e.name)
  }

  lemma ExportedStep(environ: Settings, v: StatusValue)
    requires v.report.Some? && v.report.value.deployId.Some? && v.report.value.deployStage.Some? && v.opCode.Some?
    ensures Lookup(Exported(environ, v), map[], "DEPLOY_STEP") == StepSeen(v)
    ensures NameSeen(v).Some? ==> Lookup(Exported(environ, v), map[], "ENV_NAME") == NameSeen(v)
  {
    assert "ENV_NAME" != "DEPLOY_STEP" && "STAGE_NAME" != "DEPLOY_STEP" && "OPCODE" != "DEPLOY_STEP";
    assert "STAGE_NAME" != "ENV_NAME";
  }

  class Config {
    const reader: Settings
    const filename: Option<string>
    const limitsOf: Settings -> Option<Limits>   // how settings are read over `reader`
    var configs: Settings
    var environ: Settings

    constructor (reader: Settings, filename: Option<string>, environ: Settings)
      ensures this.reader == reader && this.filename == filename && this.environ == environ && configs == map[]
      ensures forall c :: limitsOf(c) == ParseLimits(c, reader)
    {
      this.limitsOf := c => ParseLimits(c, reader);
      this.reader := reader;
      this.filename := filename;
      this.configs := map[];
      this.environ := environ;
    }

    /** Where the deploy scripts are. */
    function ScriptDirectory(): string
      reads this
    {
      TextSetting(configs, reader, "script_dir", "/data/deployd")
    }

    /** What staging links to the build; `None` stands for KeyError. */
    function Target(): Option<string>
      reads this
    {
      if "target" in configs && configs["target"] != "" then Some(configs["target"])
      else if "ENV_NAME" !in environ then None
      else Some(PathJoin(TextSetting(configs, reader, "target_default_dir", "/usr/local/jetty/webapps"),
                         environ["ENV_NAME"] + ".war"))
    }

    /** How many builds are kept; `None` stands for ValueError. */
    function Retain(): Option<int>
      reads this
    {
      IntSetting(configs, reader, "num_builds_to_retain", 2)
    }

    /** Switches the settings and the environment to those of a status. */
    method UpdateVariables(v: StatusValue)
      requires v.report.Some? && v.report.value.deployId.Some? && v.report.value.deployStage.Some? && v.opCode.Some?
      modifies this
      ensures configs == SettingsOf(v)
      ensures InEffect(configs, environ, EffectOf(v))
      ensures environ == Exported(old(environ), v)
    {
      configs := map[];
      if NonEmpty(v.runtimeConfig) {
        configs := configs + v.runtimeConfig.value;
        assert configs == v.runtimeConfig.value;
      }
      ghost var before := environ;
      var report := v.report.value;
      environ := environ["DEPLOY_ID" := report.deployId.value];
      environ := environ["DEPLOY_STEP" := StageName(report.deployStage.value)];
      environ := environ["OPCODE" := OpName(v.opCode.value)];
      if report.envName.Some? && report.envName.value != "" {
        environ := environ["ENV_NAME" := report.envName.value];
      }
      if report.stageName.Some? && report.stageName.value != "" {
        environ := environ["STAGE_NAME" := report.stageName.value];
      }
      if NonEmpty(v.scriptVariables) {
        environ := environ + v.scriptVariables.value;
      }
      ExportedStep(before, v);
    }
  }
}
