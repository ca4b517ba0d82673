/**
 The status file: how a deploy status is written to and read back from JSON
 (deploy-agent/deployd/common/types.py, deployd/types/ping_report.py,
 deployd/common/env_status.py). JSON text is not modelled; a JSON string that
 spells a stage, a status or an operation code is represented by that value.
 */
module StatusFile {
  import opened Wrappers
  import opened DeployTypes

  datatype Json =
    | JNull | JBool(b: bool) | JNum(n: int) | JText(s: string)
    | JStage(stage: DeployStage) | JStatus(status: AgentStatus) | JOp(op: OpCode)
    | JObject(fields: map<string, Json>)

  type JsonObject = map<string, Json>

  /** What the status file holds: one record for each environment. */
  type Disk = map<string, JsonObject>

  // ---------- Writing ----------

  function OfText(t: Option<string>): Json { if t.Some? then JText(t.value) else JNull }
  function OfInt(n: Option<int>): Json { if n.Some? then JNum(n.value) else JNull }
  function OfStage(s: Option<DeployStage>): Json { if s.Some? then JStage(s.value) else JNull }
  function OfStatus(s: Option<AgentStatus>): Json { if s.Some? then JStatus(s.value) else JNull }

  /** The `__dict__` of a report. */
  function ReportRecord(r: PingReport): JsonObject {
    map["deployId" := OfText(r.deployId), "envId" := OfText(r.envId), "envName" := OfText(r.envName),
        "stageName" := OfText(r.stageName), "deployStage" := OfStage(r.deployStage),
        "status" := OfStatus(r.status), "errorCode" := OfInt(r.errorCode),
        "errorMessage" := OfText(r.errorMessage), "failCount" := OfInt(r.failCount),
        "extraInfo" := OfText(r.extraInfo), "deployAlias" := OfText(r.deployAlias)]
  }

  /** The `__dict__` of a build. */
  function BuildRecord(b: BuildInfo): JsonObject {
    map["build_commit" := OfText(b.buildCommit), "build_url" := OfText(b.buildUrl),
        "build_id" := OfText(b.buildId), "build_name" := OfText(b.buildName),
        "build_repo" := OfText(b.buildRepo), "build_branch" := OfText(b.buildBranch)]
  }

  function DictRecord(m: map<string, string>): JsonObject {
    map k | k in m :: JText(m[k])
  }

  /** An attribute of a status object as `to_json` sees it. */
  datatype Attribute = Missing | Dict(m: map<string, string>) | Object(fields: JsonObject) | Scalar(value: Json)

  /** Python's truth value of a scalar. */
  predicate Truthy(j: Json) {
    match j
    case JNull => false
    case JBool(b) => b
    case JNum(n) => n != 0
    case JText(s) => s != ""
    case JObject(fields) => fields != map[]
    case JStage(_) => true
    case JStatus(_) => true
    case JOp(_) => true
  }

  /** The attributes of a status object, by name. */
  function Attributes(v: StatusValue): seq<(string, Attribute)> {
    [("report", if v.report.Some? then Object(ReportRecord(v.report.value)) else Missing),
     ("build_info", if v.buildInfo.Some? then Object(BuildRecord(v.buildInfo.value)) else Missing),
     ("runtime_config", if v.runtimeConfig.Some? then Dict(v.runtimeConfig.value) else Missing),
     ("first_deploy", if v.firstDeploy.Some? then Scalar(JBool(v.firstDeploy.value)) else Missing),
     ("op_code", if v.opCode.Some? then Scalar(JOp(v.opCode.value)) else Missing),
     ("script_variables", if v.scriptVariables.Some? then Dict(v.scriptVariables.value) else Missing)]
  }

  /** What `to_json` stores for one attribute: dictionaries always, anything else only when true. */
  function Stored(a: Attribute): Option<Json> {
    match a
    case Missing => None
    case Dict(m) => Some(JObject(DictRecord(m)))
    case Object(fields) => Some(JObject(fields))
    case Scalar(value) => if Truthy(value) then Some(value) else None
  }

  function Stow(record: JsonObject, name: string, j: Option<Json>): JsonObject {
    if j.Some? then record[name := j.value] else record
  }

  function RecordOf(attributes: seq<(string, Attribute)>): JsonObject {
    if attributes == [] then map[]
    else
      var last := attributes[|attributes| - 1];
      Stow(RecordOf(attributes[..|attributes| - 1]), last.0, Stored(last.1))
  }

  function StatusRecord(v: StatusValue): JsonObject {
    RecordOf(Attributes(v))
  }

  function DiskOf(envs: map<string, StatusValue>): Disk {
    map k | k in envs :: StatusRecord(envs[k])
  }

  // ---------- Reading; `None` stands for an exception ----------

  function Get(record: JsonObject, name: string): Json { if name in record then record[name] else JNull }
  function Text(j: Json): Option<string> { if j.JText? then Some(j.s) else None }
  function Int(j: Json): Option<int> { if j.JNum? then Some(j.n) else None }

  /** A stage is read from its name or, in old files, from its number; an unknown number raises. */
  function StageFrom(j: Json): Option<Option<DeployStage>> {
    match j
    case JStage(s) => Some(Some(s))
    case JNum(n) =>
      var all := [UnknownStage, PreDownload, Downloading, PostDownload, Staging, PreRestart,
                  Restarting, PostRestart, ServingBuild, Stopping, Stopped];
      if 0 <= n < |all| then Some(Some(all[n])) else None
    case _ => Some(None)
  }

  function StatusFrom(j: Json): Option<Option<AgentStatus>> {
    match j
    case JStatus(s) => Some(Some(s))
    case JNum(n) =>
      var all := [Succeeded, Unknown, AgentFailed, RetryableAgentFailed, ScriptFailed,
                  AbortedByService, ScriptTimeout, TooManyRetry, RuntimeMismatch, AbortedByServer];
      if 0 <= n < |all| then Some(Some(all[n])) else None
    case _ => Some(None)
  }

  function OpFrom(j: Json): Option<Option<OpCode>> {
    match j
    case JOp(op) => Some(Some(op))
    case JNum(n) =>
      var all := [Noop, Deploy, Update, Restart, Delete, Terminate, Wait, Rollback, Stop];
      if 0 <= n < |all| then Some(Some(all[n])) else None
    case _ => Some(None)
  }

  function ReportFrom(record: JsonObject): Option<PingReport> {
    var stage := StageFrom(Get(record, "deployStage"));
    var status := StatusFrom(Get(record, "status"));
    if stage.None? || status.None? then None
    else Some(PingReport(
                Text(Get(record, "deployId")), Text(Get(record, "envId")), Text(Get(record, "envName")),
                Text(Get(record, "stageName")), stage.value, status.value,
                Int(Get(record, "errorCode")), Text(Get(record, "errorMessage")),
                Int(Get(record, "failCount")), Text(Get(record, "extraInfo")),
                Text(Get(record, "deployAlias"))))
  }

  function BuildFrom(record: JsonObject): BuildInfo {
    BuildInfo(Text(Get(record, "build_commit")), Text(Get(record, "build_url")),
              Text(Get(record, "build_id")), Text(Get(record, "build_name")),
              Text(Get(record, "build_repo")), Text(Get(record, "build_branch")))
  }

  function DictFrom(j: Json): Option<map<string, string>> {
    if j.JObject? then
      Some(map k | k in j.fields :: if j.fields[k].JText? then j.fields[k].s else "")
    else None
  }

  function StatusFromRecord(record: JsonObject): Option<StatusValue> {
    var report := Get(record, "report");
    var build := Get(record, "build_info");
    var op := if "op_code" in record then OpFrom(record["op_code"]) else Some(Some(Noop));
    if (Truthy(report) && !report.JObject?) || (Truthy(build) && !build.JObject?) || op.None? then None
    else
      var r := if Truthy(report) then ReportFrom(report.fields) else None;
      if Truthy(report) && r.None? then None
      else Some(StatusValue(
                  r, if Truthy(build) then Some(BuildFrom(build.fields)) else None,
                  DictFrom(Get(record, "runtime_config")), None, op.value, None))
  }

  predicate Readable(disk: Disk) {
    forall k :: k in disk ==> StatusFromRecord(disk[k]).Some?
  }

  /** `load_envs`: one unreadable record makes the whole load come back empty. */
  function EnvsOf(disk: Disk): map<string, StatusValue> {
    if Readable(disk) then map k | k in disk :: StatusFromRecord(disk[k]).value else map[]
  }

  // ---------- Round trip ----------

  /** What survives in the file: everything but `first_deploy` and `script_variables`. */
  function Kept(v: StatusValue): StatusValue {
    v.(firstDeploy := None, scriptVariables := None)
  }

  /** What comes back: that, with NOOP for a missing operation code. */
  function Reloaded(v: StatusValue): StatusValue {
    Kept(v).(opCode := if v.opCode.Some? then v.opCode else Some(Noop))
  }

  lemma ReportRoundTrip(r: PingReport)
    ensures ReportFrom(ReportRecord(r)) == Some(r)
  {
  }

  lemma DictRoundTrip(m: map<string, string>)
    ensures DictFrom(JObject(DictRecord(m))) == Some(m)
  {
    var back := DictFrom(JObject(DictRecord(m))).value;
    assert back.Keys == m.Keys;
    assert back == m;
  }

  /** A record has what each attribute stores, under its name. */
  lemma {:induction false} RecordHas(attributes: seq<(string, Attribute)>, i: nat)
    requires i < |attributes|
    requires forall j, k :: 0 <= j < k < |attributes| ==> attributes[j].0 != attributes[k].0
    ensures var r := RecordOf(attributes); var j := Stored(attributes[i].1);
            && (attributes[i].0 in r <==> j.Some?)
            && (j.Some? ==> r[attributes[i].0] == j.value)
    decreases |attributes|
  {
    hide Stored;
    var n := |attributes| - 1;
    if i < n {
      RecordHas(attributes[..n], i);
    } else {
      OnlyNames(attributes[..n], attributes[n].0);
    }
  }

  lemma {:induction false} OnlyNames(attributes: seq<(string, Attribute)>, name: string)
    requires forall j :: 0 <= j < |attributes| ==> attributes[j].0 != name
    ensures name !in RecordOf(attributes)
    decreases |attributes|
  {
    hide Stored;
    if attributes != [] {
      OnlyNames(attributes[..|attributes| - 1], name);
    }
  }

  lemma RecordOfStatus(v: StatusValue)
    ensures var r := StatusRecord(v);
            && Get(r, "report") == (if v.report.Some? then JObject(ReportRecord(v.report.value)) else JNull)
            && Get(r, "build_info") == (if v.buildInfo.Some? then JObject(BuildRecord(v.buildInfo.value)) else JNull)
            && Get(r, "runtime_config")
               == (if v.runtimeConfig.Some? then JObject(DictRecord(v.runtimeConfig.value)) else JNull)
            && ("op_code" in r <==> v.opCode.Some?)
            && (v.opCode.Some? ==> r["op_code"] == JOp(v.opCode.value))
  {
    hide RecordOf;
    hide ReportRecord;
    hide BuildRecord;
    hide DictRecord;
    var a := Attributes(v);
    RecordHas(a, 0);
    RecordHas(a, 1);
    RecordHas(a, 2);
    RecordHas(a, 4);
  }

  lemma ReportReadBack(v: StatusValue)
    ensures var report := Get(StatusRecord(v), "report");
            && Truthy(report) == v.report.Some?
            && (v.report.Some? ==> report.JObject? && ReportFrom(report.fields) == v.report)
  {
    hide StatusRecord;
    RecordOfStatus(v);
    if v.report.Some? {
      ReportRoundTrip(v.report.value);
      assert "status" in ReportRecord(v.report.value);
    }
  }

  lemma BuildReadBack(v: StatusValue)
    ensures var build := Get(StatusRecord(v), "build_info");
            && Truthy(build) == v.buildInfo.Some?
            && (v.buildInfo.Some? ==> build.JObject? && BuildFrom(build.fields) == v.buildInfo.value)
  {
    hide StatusRecord;
    RecordOfStatus(v);
    if v.buildInfo.Some? {
      assert "build_id" in BuildRecord(v.buildInfo.value);
    }
  }

  lemma ConfigReadBack(v: StatusValue)
    ensures DictFrom(Get(StatusRecord(v), "runtime_config")) == v.runtimeConfig
  {
    hide StatusRecord;
    RecordOfStatus(v);
    if v.runtimeConfig.Some? {
      DictRoundTrip(v.runtimeConfig.value);
    }
  }

  lemma StatusRoundTrip(v: StatusValue)
    ensures StatusFromRecord(StatusRecord(v)) == Some(Reloaded(v))
  {
    hide StatusRecord;
    hide ReportFrom;
    hide BuildFrom;
    hide DictFrom;
    hide Truthy;
    RecordOfStatus(v);
    ReportReadBack(v);
    BuildReadBack(v);
    ConfigReadBack(v);
  }

  /** Loading what was dumped keeps every environment and all that `Reloaded` keeps of it. */
  lemma DiskRoundTrip(envs: map<string, StatusValue>)
    ensures EnvsOf(DiskOf(envs)) == map k | k in envs :: Reloaded(envs[k])
  {
    forall k | k in envs
      ensures StatusFromRecord(DiskOf(envs)[k]) == Some(Reloaded(envs[k]))
    {
      StatusRoundTrip(envs[k]);
    }
  }

  /** A status without an operation code comes back with NOOP, so the round trip holds exactly when there is one. */
  lemma StatusRoundTripNeedsOpCode(v: StatusValue)
    ensures StatusFromRecord(StatusRecord(v)) == Some(Kept(v)) <==> v.opCode.Some?
  {
    StatusRoundTrip(v);
  }
}
