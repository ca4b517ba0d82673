/** The mutable status of one environment (deploy-agent/deployd/common/types.py:102-198). */
module DeployStatuses {
  import opened Wrappers
  import opened DeployTypes
  import opened StatusFile

  class DeployStatus {
    var report: Option<PingReport>
    var buildInfo: Option<BuildInfo>
    var runtimeConfig: Option<map<string, string>>
    var firstDeploy: Option<bool>
    var opCode: Option<OpCode>
    var scriptVariables: Option<map<string, string>>

    function Value(): StatusValue
      reads this
    {
      StatusValue(report, buildInfo, runtimeConfig, firstDeploy, opCode, scriptVariables)
    }

    constructor ()
      ensures Value() == EMPTY_STATUS
    {
      report, buildInfo, runtimeConfig, firstDeploy := None, None, None, None;
      opCode, scriptVariables := Some(Noop), None;
    }

    constructor FromJson(record: JsonObject)
      requires StatusFromRecord(record).Some?
      ensures Value() == StatusFromRecord(record).value
    {
      report, buildInfo, firstDeploy, scriptVariables := None, None, None, None;
      var r := Get(record, "report");
      if Truthy(r) {
        report := ReportFrom(r.fields);
      }
      var b := Get(record, "build_info");
      if Truthy(b) {
        buildInfo := Some(BuildFrom(b.fields));
      }
      runtimeConfig := DictFrom(Get(record, "runtime_config"));
      opCode := if "op_code" in record then OpFrom(record["op_code"]).value else Some(Noop);
    }

    method UpdateByResponse(response: Response)
      requires response.deployGoal.Some?
      modifies this
      ensures Value() == Installed(old(Value()), response)
    {
      var goal := response.deployGoal.value;
      opCode := response.opCode;
      if report.None? {
        report := Some(EMPTY_REPORT);
      }
      var r := report.value;
      r := r.(envId := goal.envId, deployId := Some(goal.deployId), deployStage := Some(goal.deployStage));
      r := r.(deployAlias := goal.deployAlias, envName := Some(goal.envName));
      r := r.(status := Some(Unknown), stageName := goal.stageName);
      report := Some(r);
      firstDeploy := goal.firstDeploy;
      if goal.build.Some? {
        var b := goal.build.value;
        buildInfo := Some(BuildInfo(b.scmCommit, b.artifactUrl, b.buildId, b.buildName, b.scmRepo, b.scmBranch));
      }
      if NonEmpty(goal.scriptVariables) {
        scriptVariables := goal.scriptVariables;
      }
      if NonEmpty(goal.config) {
        runtimeConfig := goal.config;
      }
    }

    method UpdateByDeployReport(d: DeployReport)
      requires report.Some?
      modifies this`report
      ensures Value() == Reported(old(Value()), d)
    {
      var r := report.value;
      if d.status == AbortedByServer {
        r := r.(status := Some(Unknown));
      } else {
        r := r.(status := Some(d.status));
      }
      r := r.(errorCode := Some(d.errorCode));
      if r.status != Some(Succeeded) {
        r := r.(errorMessage := d.outputMsg);
      } else {
        r := r.(errorMessage := None);
      }
      r := r.(failCount := Some(d.retryTimes));
      report := Some(r);
    }

    /** The client strips what is not ASCII from the error message, in place. */
    method FilterMessage()
      modifies this`report
      ensures Value() == Cleaned(old(Value()))
    {
      if report.Some? && report.value.errorMessage.Some? {
        report := Some(report.value.(errorMessage := Some(Ascii(report.value.errorMessage.value))));
      }
    }

    method ToJson() returns (json: JsonObject)
      ensures json == StatusRecord(Value())
    {
      var attributes := Attributes(Value());
      json := map[];
      for i := 0 to |attributes|
        invariant json == RecordOf(attributes[..i])
      {
        assert attributes[..i + 1][..i] == attributes[..i];
        var name, attribute := attributes[i].0, attributes[i].1;
        match attribute
        case Dict(m) => json := json[name := JObject(DictRecord(m))];
        case Object(fields) => json := json[name := JObject(fields)];
        case Scalar(value) =>
          if Truthy(value) {
            json := json[name := value];
          }
        case Missing =>
      }
      assert attributes[..|attributes|] == attributes;
    }
  }
}
