/**
 The deploy agent as a state machine over the steps it takes
 (deploy-agent/deployd/agent.py, `serve_build` and what it calls). The classes in
 agent.dfy are proved to take only these steps; what holds in every run is proved
 here and in the modules that import this one.
 */
module Protocol {
  import opened Wrappers
  import opened DeployTypes
  import opened StatusFile

  /** Where the agent is between two steps. */
  datatype Phase =
    | Boot                                                       // nothing sent yet
    | Head                                                       // at the head of the serving loop
    | Working(job: Response)                                     // inside process_deploy(job)
    | Aborting(job: Response)                                    // the server replaced job while it ran
    | Returned(job: Response, d: DeployReport)                   // process_deploy(job) returned d
    | Applied(job: Response, d: DeployReport, final: bool)       // d recorded in the current status
    | Dumped(job: Response, d: DeployReport, final: bool)        // the status file was written
    | Finished

  datatype State = State(
    envs: map<string, StatusValue>,   // _envs
    curr: Option<string>,             // the key of the object that _curr_report refers to
    resp: Option<Response>,           // _response
    disk: Disk,                       // the status file
    phase: Phase)

  datatype Event =
    | Ping(answer: Option<Response>)               // send_reports, and the answer or the failure
    | Begin(job: Response)                         // process_deploy is called
    | Return(job: Response, d: DeployReport)       // it returns
    | Apply(d: DeployReport)                       // update_by_deploy_report
    | Dump(ok: bool)                               // dump_envs
    | Leave                                        // the loop ends, the last goal is installed

  predicate Active(r: Response) { r.opCode.Some? && r.opCode != Some(Noop) }

  predicate Removes(r: Response) { r.opCode == Some(Terminate) || r.opCode == Some(Delete) }

  /** The statuses with which process_deploy can end when the server did not interfere. */
  predicate Ending(s: AgentStatus) { s in {Succeeded, TooManyRetry, ScriptTimeout, AgentFailed} }

  /** The statuses after which serve_build gives up. */
  predicate Fatal(s: AgentStatus) { s in {AgentFailed, TooManyRetry, ScriptTimeout} }

  const NOTHING_TO_DO := DeployReport(Succeeded, 0, None, 0)
  const REMOVED := DeployReport(Succeeded, 0, None, 1)
  const DUMP_FAILED := DeployReport(AgentFailed, 1, Some("Failed to dump status to the disk"), 0)

  predicate Recordable(s: State) {
    s.curr.Some? ==> s.curr.value in s.envs && s.envs[s.curr.value].report.Some?
  }

  function Record(s: State, d: DeployReport): State
    requires Recordable(s)
  {
    if s.curr.None? then s
    else s.(envs := s.envs[s.curr.value := Reported(s.envs[s.curr.value], d)])
  }

  function Install(s: State, r: Response): State {
    if r.deployGoal.None? then s
    else
      var name := r.deployGoal.value.envName;
      var before := if name in s.envs then s.envs[name] else EMPTY_STATUS;
      s.(envs := s.envs[name := Installed(before, r)], curr := Some(name))
  }

  function CleanEnvs(envs: map<string, StatusValue>): map<string, StatusValue> {
    map k | k in envs :: Cleaned(envs[k])
  }

  /** The reports of a map of environments, by environment. */
  function Reports(envs: map<string, StatusValue>): map<string, Option<PingReport>> {
    map k | k in envs :: envs[k].report
  }

  /** The reports that a ping in state `s` carries. */
  function Sent(s: State): map<string, Option<PingReport>> {
    Reports(CleanEnvs(s.envs))
  }

  // ---------- The steps ----------

  predicate Enabled(s: State, e: Event) {
    match e
    case Ping(_) => s.phase.Boot? || s.phase.Dumped?
    case Begin(job) =>
      s.phase.Head? && s.resp == Some(job) && Active(job) && job.deployGoal.Some?
    case Return(job, d) =>
      (match s.phase
       case Head => s.resp == Some(job) && Active(job) && job.deployGoal.None? && d == NOTHING_TO_DO
       case Working(j) =>
         && j == job && job.deployGoal.Some?
         && (if Removes(job) then
               d == REMOVED && job.deployGoal.value.envName in s.envs && s.curr.Some? && Recordable(s)
             else Ending(d.status))
       case Aborting(j) => j == job && d.status == AbortedByServer
       case _ => false)
    case Apply(d) =>
      && Recordable(s)
      && (match s.phase
          case Working(job) => !Removes(job) && d.status in {Unknown, ScriptFailed}
          case Returned(_, d') => d == d'
          case _ => false)
    case Dump(_) => s.phase.Applied? && Recordable(s)
    case Leave => s.phase.Head? && (s.resp.None? || !Active(s.resp.value))
  }

  function Next(s: State, e: Event): State
    requires Enabled(s, e)
  {
    match e
    case Ping(answer) => Answered(s.(envs := CleanEnvs(s.envs)), answer)
    case Begin(job) => s.(phase := Working(job))
    case Return(job, d) =>
      if s.phase.Aborting? then s.(phase := Head)
      else if s.phase.Working? && Removes(job) then
        var name := job.deployGoal.value.envName;
        s.(envs := s.envs - {name},
        curr := if s.envs[s.curr.value].report.value.envName == Some(name) then None else s.curr,
        phase := Returned(job, d))
      else s.(phase := Returned(job, d))
    case Apply(d) => Record(s, d).(phase := Applied(s.phase.job, d, s.phase.Returned?))
    case Dump(ok) =>
      (if ok then s.(disk := DiskOf(s.envs)) else Record(s, DUMP_FAILED))
      .(phase := Dumped(s.phase.job, s.phase.d, s.phase.final))
    case Leave => (if s.resp.Some? then Install(s, s.resp.value) else s).(phase := Finished)
  }

  /** The state after the server's answer to a ping; `s` is in phase Boot or Dumped. */
  function Answered(s: State, answer: Option<Response>): State
    requires s.phase.Boot? || s.phase.Dumped?
  {
    var after := if s.phase.Boot? then Head
                 else if s.phase.final then (if Fatal(s.phase.d.status) then Finished else Head)
                 else if answer.Some? && ChangedPlan(s.resp, answer.value) then Aborting(s.phase.job)
                 else Working(s.phase.job);
    (if answer.Some? then Install(s, answer.value) else s).(resp := answer, phase := after)
  }

  // ---------- The effect of each step of a report ----------

  /** In the middle of a command, its progress can be recorded. */
  lemma CanReport(s: State, d: DeployReport)
    requires s.phase.Working? && !Removes(s.phase.job) && d.status in {Unknown, ScriptFailed}
    requires AllReports(s.envs) && (s.curr.Some? ==> s.curr.value in s.envs)
    ensures Enabled(s, Apply(d))
  {
  }

  lemma ApplyStep(s: State, d: DeployReport)
    requires Enabled(s, Apply(d))
    ensures Recordable(s) && (s.phase.Working? || s.phase.Returned?)
    ensures Next(s, Apply(d)) == Record(s, d).(phase := Applied(s.phase.job, d, s.phase.Returned?))
    ensures Recordable(Next(s, Apply(d)))
    ensures forall ok :: Enabled(Next(s, Apply(d)), Dump(ok))
  {
  }

  lemma DumpStep(s: State, ok: bool)
    requires Enabled(s, Dump(true))
    ensures Enabled(s, Dump(ok)) && Recordable(s) && s.phase.Applied?
    ensures Next(s, Dump(ok)) ==
            (if ok then s.(disk := DiskOf(s.envs)) else Record(s, DUMP_FAILED))
            .(phase := Dumped(s.phase.job, s.phase.d, s.phase.final))
    ensures forall answer :: Enabled(Next(s, Dump(ok)), Ping(answer))
  {
  }

  lemma RemoveStep(s: State, job: Response)
    requires s.phase == Working(job) && Removes(job) && Enabled(s, Return(job, REMOVED))
    ensures job.deployGoal.Some? && job.deployGoal.value.envName in s.envs && s.curr.Some? && Recordable(s)
    ensures var name := job.deployGoal.value.envName;
            Next(s, Return(job, REMOVED)) ==
            s.(envs := s.envs - {name},
            curr := if s.envs[s.curr.value].report.value.envName == Some(name) then None else s.curr,
            phase := Returned(job, REMOVED))
  {
  }

  lemma PingStep(s: State, answer: Option<Response>)
    requires Enabled(s, Ping(None))
    ensures Enabled(s, Ping(answer))
    ensures var sent := s.(envs := CleanEnvs(s.envs), resp := answer);
            var t := if answer.Some? then Install(sent, answer.value) else sent;
            Next(s, Ping(answer)) == t.(phase := Next(s, Ping(answer)).phase)
    ensures s.phase.Boot? ==> Next(s, Ping(answer)).phase == Head
    ensures s.phase.Dumped? && s.phase.final ==>
              Next(s, Ping(answer)).phase == if Fatal(s.phase.d.status) then Finished else Head
    ensures s.phase.Dumped? && !s.phase.final ==>
              Next(s, Ping(answer)).phase ==
              if answer.Some? && ChangedPlan(s.resp, answer.value) then Aborting(s.phase.job) else Working(s.phase.job)
  {
  }

  /** Recording, dumping and pinging: where the three steps lead. */
  lemma UpdateSteps(s: State, d: DeployReport, ok: bool, answer: Option<Response>)
    requires Enabled(s, Apply(d))
    ensures Enabled(Next(s, Apply(d)), Dump(ok))
    ensures Enabled(Next(Next(s, Apply(d)), Dump(ok)), Ping(answer))
    ensures Next(Next(s, Apply(d)), Dump(ok)).resp == s.resp
    ensures var after := Next(Next(Next(s, Apply(d)), Dump(ok)), Ping(answer));
            && after.resp == answer
            && (if s.phase.Returned? then after.phase == (if Fatal(d.status) then Finished else Head)
                else s.phase.Working? &&
                     after.phase == if answer.Some? && ChangedPlan(s.resp, answer.value) then Aborting(s.phase.job)
                                    else Working(s.phase.job))
  {
    ApplyStep(s, d);
    var s1 := Next(s, Apply(d));
    DumpStep(s1, ok);
    PingStep(Next(s1, Dump(ok)), answer);
  }

  // ---------- Runs ----------

  /** The state after the steps `t` from `s0`, if all of them can be taken. */
  function Run(s0: State, t: seq<Event>): Option<State> {
    if t == [] then Some(s0)
    else
      var before := Run(s0, t[..|t| - 1]);
      if before.Some? && Enabled(before.value, t[|t| - 1]) then Some(Next(before.value, t[|t| - 1]))
      else None
  }

  predicate Legal(s0: State, t: seq<Event>) { Run(s0, t).Some? }

  function After(s0: State, t: seq<Event>): State
    requires Legal(s0, t)
  {
    Run(s0, t).value
  }

  lemma RunIsAfter(s0: State, t: seq<Event>, s: State)
    requires Run(s0, t) == Some(s)
    ensures Legal(s0, t) && After(s0, t) == s
  {
  }

  lemma Extend(s0: State, t: seq<Event>, e: Event)
    requires Legal(s0, t) && Enabled(After(s0, t), e)
    ensures Legal(s0, t + [e]) && After(s0, t + [e]) == Next(After(s0, t), e)
  {
    assert (t + [e])[..|t|] == t;
  }

  lemma ExtendRun(s0: State, t: seq<Event>, before: State, e: Event)
    requires Run(s0, t) == Some(before) && Enabled(before, e)
    ensures Run(s0, t + [e]) == Some(Next(before, e))
  {
    assert (t + [e])[..|t|] == t;
  }

  /** Every prefix of a run is a run. */
  lemma {:induction false} PrefixLegal(s0: State, t: seq<Event>, n: nat)
    requires Legal(s0, t) && n <= |t|
    ensures Legal(s0, t[..n])
    decreases |t|
  {
    if n == |t| {
      assert t[..n] == t;
    } else {
      PrefixLegal(s0, t[..|t| - 1], n);
      assert t[..|t| - 1][..n] == t[..n];
    }
  }

  /** One step inside a run. */
  lemma StepOf(s0: State, t: seq<Event>, n: nat)
    requires Legal(s0, t) && n < |t|
    ensures Legal(s0, t[..n]) && Legal(s0, t[..n + 1])
    ensures Enabled(After(s0, t[..n]), t[n])
    ensures After(s0, t[..n + 1]) == Next(After(s0, t[..n]), t[n])
  {
    PrefixLegal(s0, t, n);
    PrefixLegal(s0, t, n + 1);
    assert t[..n + 1][..n] == t[..n];
  }

  // ---------- Comparing answers ----------

  lemma ChangedPlanMeans(previous: Option<Response>, answer: Response)
    ensures ChangedPlan(previous, answer) <==> previous.None? || !SamePlan(previous.value, answer)
  {
  }

  lemma SamePlanIsEquivalence(a: Response, b: Response, c: Response)
    ensures SamePlan(a, a)
    ensures SamePlan(a, b) <==> SamePlan(b, a)
    ensures SamePlan(a, b) && SamePlan(b, c) ==> SamePlan(a, c)
  {
  }

  // ---------- What every step keeps ----------

  predicate AllReports(envs: map<string, StatusValue>) {
    forall k :: k in envs ==> envs[k].report.Some?
  }

  /** The current status is that of `r`'s goal, as far as deploy, stage and operation go. */
  predicate InForce(s: State, r: Response)
    requires r.deployGoal.Some?
  {
    && s.curr.Some? && s.curr.value in s.envs && s.envs[s.curr.value].report.Some?
    && var v := s.envs[s.curr.value]; var g := r.deployGoal.value;
    && v.opCode == r.opCode
    && v.report.value.deployId == Some(g.deployId)
    && v.report.value.deployStage == Some(g.deployStage)
    && v.report.value.envName == s.curr
  }

  /** `r`'s goal has just been installed: its environment is current and its status UNKNOWN. */
  predicate Fresh(s: State, r: Response)
    requires r.deployGoal.Some?
  {
    && s.curr == Some(r.deployGoal.value.envName)
    && InForce(s, r)
    && var report := s.envs[s.curr.value].report.value; var g := r.deployGoal.value;
    && report.status == Some(Unknown)
    && report.envId == g.envId && report.stageName == g.stageName && report.deployAlias == g.deployAlias
  }

  /** A goal is being worked on: it is still in force, and the last answer, if any, asked for it. */
  predicate Under(s: State, job: Response) {
    && job.deployGoal.Some? && Active(job)
    && InForce(s, job)
    && (s.resp.Some? ==> SamePlan(s.resp.value, job))
    && (Removes(job) ==> s.curr == Some(job.deployGoal.value.envName))
  }

  predicate Settled(s: State, job: Response) {
    && Active(job)
    && (job.deployGoal.Some? ==> if Removes(job) then s.curr.None? else InForce(s, job))
  }

  predicate Inv(s: State) {
    && AllReports(s.envs)
    && (s.curr.Some? ==> s.curr.value in s.envs)
    && match s.phase
       case Boot => true
       case Head => s.resp.Some? && s.resp.value.deployGoal.Some? ==> Fresh(s, s.resp.value)
       case Working(job) => Under(s, job)
       case Aborting(job) =>
         && job.deployGoal.Some? && !Removes(job)
         && s.resp.Some? && (s.resp.value.deployGoal.Some? ==> Fresh(s, s.resp.value))
       case Returned(job, d) => Settled(s, job)
       case Applied(job, d, final) => if final then Settled(s, job) else Under(s, job) && !Removes(job)
       case Dumped(job, d, final) => if final then Settled(s, job) else Under(s, job) && !Removes(job)
       case Finished => true
  }

  /** A state from which the agent can start: every environment has a report, and the current one exists. */
  predicate Start(s: State) {
    s.phase.Boot? && AllReports(s.envs) && (s.curr.Some? ==> s.curr.value in s.envs)
  }

  lemma InstallFresh(s: State, r: Response)
    requires AllReports(s.envs) && (s.curr.Some? ==> s.curr.value in s.envs)
    ensures AllReports(Install(s, r).envs)
    ensures Install(s, r).curr.Some? ==> Install(s, r).curr.value in Install(s, r).envs
    ensures r.deployGoal.Some? ==> Fresh(Install(s, r), r)
  {
  }

  lemma CleanKeeps(s: State, r: Response)
    ensures AllReports(s.envs) ==> AllReports(CleanEnvs(s.envs))
    ensures CleanEnvs(s.envs).Keys == s.envs.Keys
    ensures r.deployGoal.Some? && InForce(s, r) ==> InForce(s.(envs := CleanEnvs(s.envs)), r)
  {
  }

  lemma RecordKeeps(s: State, d: DeployReport, r: Response)
    requires Recordable(s)
    ensures AllReports(s.envs) ==> AllReports(Record(s, d).envs)
    ensures Record(s, d).envs.Keys == s.envs.Keys && Record(s, d).curr == s.curr
    ensures r.deployGoal.Some? && InForce(s, r) ==> InForce(Record(s, d), r)
  {
  }

  /** A goal asked for again with the same operation, deploy and stage stays in force when it is installed again. */
  lemma SamePlanInForce(s: State, r: Response, job: Response)
    requires job.deployGoal.Some? && SamePlan(r, job) && Fresh(s, r)
    ensures InForce(s, job)
  {
  }

  lemma InvKeptByPing(s: State, answer: Option<Response>)
    requires Inv(s) && Enabled(s, Ping(answer))
    ensures Inv(Next(s, Ping(answer)))
  {
    var c := s.(envs := CleanEnvs(s.envs));
    var r := if answer.Some? then answer.value else Response(None, None);
    CleanKeeps(s, r);
    InstallFresh(c, r);
    if s.phase.Dumped? {
      var job := s.phase.job;
      CleanKeeps(s, job);
      if answer.Some? && !s.phase.final {
        ChangedPlanMeans(s.resp, r);
        if !ChangedPlan(s.resp, r) {
          SamePlanIsEquivalence(r, s.resp.value, job);
          SamePlanIsEquivalence(s.resp.value, r, job);
          SamePlanInForce(Install(c, r), r, job);
        }
      }
    }
  }

  lemma InvKept(s: State, e: Event)
    requires Inv(s) && Enabled(s, e)
    ensures Inv(Next(s, e))
  {
    match e
    case Ping(answer) => InvKeptByPing(s, answer);
    case Begin(job) =>
    case Return(job, d) =>
    case Apply(d) => RecordKeeps(s, d, s.phase.job);
    case Dump(ok) => RecordKeeps(s, DUMP_FAILED, s.phase.job);
    case Leave => if s.resp.Some? { InstallFresh(s, s.resp.value); }
  }
}
