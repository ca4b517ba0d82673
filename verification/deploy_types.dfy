/**
 The values the deploy agent exchanges with the deploy server and keeps per
 environment (deploy-agent/deployd/common/types.py and deployd/types/), and the
 pure effect of installing a goal and of recording a report on them.
 */
module DeployTypes {
  import opened Wrappers

  datatype AgentStatus =
    | Succeeded | Unknown | AgentFailed | RetryableAgentFailed | ScriptFailed
    | AbortedByService | ScriptTimeout | TooManyRetry | RuntimeMismatch | AbortedByServer

  datatype DeployStage =
    | UnknownStage | PreDownload | Downloading | PostDownload | Staging | PreRestart
    | Restarting | PostRestart | ServingBuild | Stopping | Stopped

  datatype OpCode = Noop | Deploy | Update | Restart | Delete | Terminate | Wait | Rollback | Stop

  datatype PingStatus = PlanNoChange | PlanChanged | PingFailed

  datatype DeployReport =
    DeployReport(status: AgentStatus, errorCode: int, outputMsg: Option<string>, retryTimes: int)

  datatype Build = Build(
    scmCommit: Option<string>, artifactUrl: Option<string>, buildId: Option<string>,
    buildName: Option<string>, scmRepo: Option<string>, scmBranch: Option<string>)

  datatype BuildInfo = BuildInfo(
    buildCommit: Option<string>, buildUrl: Option<string>, buildId: Option<string>,
    buildName: Option<string>, buildRepo: Option<string>, buildBranch: Option<string>)

  datatype Goal = Goal(
    deployId: string, envId: Option<string>, envName: string, stageName: Option<string>,
    deployStage: DeployStage, build: Option<Build>, deployAlias: Option<string>,
    config: Option<map<string, string>>, scriptVariables: Option<map<string, string>>,
    firstDeploy: Option<bool>)

  datatype RawResponse = Response(opCode: Option<OpCode>, deployGoal: Option<Goal>)

  /** A well-formed answer: one that carries a goal also carries an operation code. */
  type Response = r: RawResponse | r.deployGoal.Some? ==> r.opCode.Some? witness Response(None, None)

  datatype PingReport = PingReport(
    deployId: Option<string>, envId: Option<string>, envName: Option<string>,
    stageName: Option<string>, deployStage: Option<DeployStage>, status: Option<AgentStatus>,
    errorCode: Option<int>, errorMessage: Option<string>, failCount: Option<int>,
    extraInfo: Option<string>, deployAlias: Option<string>)

  const EMPTY_REPORT :=
    PingReport(None, None, None, None, None, None, Some(0), None, Some(0), None, None)

  /** The value of a `DeployStatus` object. */
  datatype StatusValue = StatusValue(
    report: Option<PingReport>, buildInfo: Option<BuildInfo>,
    runtimeConfig: Option<map<string, string>>, firstDeploy: Option<bool>,
    opCode: Option<OpCode>, scriptVariables: Option<map<string, string>>)

  const EMPTY_STATUS := StatusValue(None, None, None, None, Some(Noop), None)

  function StageRank(s: DeployStage): nat {
    match s
    case UnknownStage => 0 case PreDownload => 1 case Downloading => 2 case PostDownload => 3
    case Staging => 4 case PreRestart => 5 case Restarting => 6 case PostRestart => 7
    case ServingBuild => 8 case Stopping => 9 case Stopped => 10
  }

  // ---------- What a goal does to a status (types.py, update_by_response) ----------

  function BuildInfoOf(b: Build): BuildInfo {
    BuildInfo(b.scmCommit, b.artifactUrl, b.buildId, b.buildName, b.scmRepo, b.scmBranch)
  }

  /** A Python dictionary is "true" when it is present and not empty. */
  predicate NonEmpty(m: Option<map<string, string>>) {
    m.Some? && m.value != map[]
  }

  function ReportFor(r: PingReport, g: Goal): PingReport {
    r.(envId := g.envId, deployId := Some(g.deployId), deployStage := Some(g.deployStage),
    deployAlias := g.deployAlias, envName := Some(g.envName), status := Some(Unknown),
    stageName := g.stageName)
  }

  function Installed(v: StatusValue, r: Response): StatusValue
    requires r.deployGoal.Some?
  {
    var g := r.deployGoal.value;
    StatusValue(
      Some(ReportFor(if v.report.Some? then v.report.value else EMPTY_REPORT, g)),
      if g.build.Some? then Some(BuildInfoOf(g.build.value)) else v.buildInfo,
      if NonEmpty(g.config) then g.config else v.runtimeConfig,
      g.firstDeploy,
      r.opCode,
      if NonEmpty(g.scriptVariables) then g.scriptVariables else v.scriptVariables)
  }

  // ---------- What a report does to a status (types.py, update_by_deploy_report) ----------

  function Reported(v: StatusValue, d: DeployReport): StatusValue
    requires v.report.Some?
  {
    var status := if d.status == AbortedByServer then Unknown else d.status;
    v.(report := Some(v.report.value.(
    status := Some(status),
    errorCode := Some(d.errorCode),
    errorMessage := if status != Succeeded then d.outputMsg else None,
    failCount := Some(d.retryTimes))))
  }

  // ---------- Comparing two answers (agent.py, plan_changed) ----------

  function ChangedPlan(old_: Option<Response>, new_: Response): bool {
    if old_.None? then true
    else if old_.value.opCode != new_.opCode then true
    else if old_.value.deployGoal.None? then new_.deployGoal.Some?
    else if new_.deployGoal.None? then true
    else if old_.value.deployGoal.value.deployId != new_.deployGoal.value.deployId then true
    else if old_.value.deployGoal.value.deployStage != new_.deployGoal.value.deployStage then true
    else false
  }

  /** Two answers ask for the same thing: same operation, and the same deploy at the same stage (or no goal). */
  predicate SamePlan(a: Response, b: Response) {
    && a.opCode == b.opCode
    && (a.deployGoal.Some? <==> b.deployGoal.Some?)
    && (a.deployGoal.Some? ==>
          && a.deployGoal.value.deployId == b.deployGoal.value.deployId
          && a.deployGoal.value.deployStage == b.deployGoal.value.deployStage)
  }

  // ---------- The ASCII filter of the client (client.py, send_reports) ----------

  function Ascii(s: string): (t: string)
    ensures |t| <= |s|
  {
    if s == [] then []
    else if s[0] as int < 128 then [s[0]] + Ascii(s[1..])
    else Ascii(s[1..])
  }

  lemma {:induction false} AsciiIdempotent(s: string)
    ensures Ascii(Ascii(s)) == Ascii(s)
  {
    if s != [] {
      AsciiIdempotent(s[1..]);
      if s[0] as int < 128 {
        assert Ascii(s) == [s[0]] + Ascii(s[1..]);
        assert ([s[0]] + Ascii(s[1..]))[1..] == Ascii(s[1..]);
      }
    }
  }

  /** The filter goes over a text part by part, and leaves only ASCII. */
  lemma {:induction false} AsciiParts(s: string, t: string)
    ensures Ascii(s + t) == Ascii(s) + Ascii(t)
    ensures forall c :: c in Ascii(s) ==> c as int < 128
    decreases s
  {
    if s == "" {
      assert s + t == t;
    } else {
      assert (s + t)[1..] == s[1..] + t;
      AsciiParts(s[1..], t);
    }
  }

  /** It takes out exactly the characters beyond ASCII. */
  lemma {:induction false} AsciiFilters(s: string)
    ensures (forall c :: c in s ==> c as int < 128) ==> Ascii(s) == s
    ensures (forall c :: c in s ==> c as int >= 128) ==> Ascii(s) == ""
  {
    if s != "" {
      assert s == [s[0]] + s[1..] && s[0] in s && forall c :: c in s[1..] ==> c in s;
      AsciiFilters(s[1..]);
    }
  }

  function Clean(r: PingReport): PingReport {
    r.(errorMessage := if r.errorMessage.Some? then Some(Ascii(r.errorMessage.value)) else None)
  }

  function Cleaned(v: StatusValue): StatusValue {
    if v.report.Some? then v.(report := Some(Clean(v.report.value))) else v
  }
}
