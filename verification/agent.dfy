/**
 The deploy agent (deploy-agent/deployd/agent.py) and its executor
 (deployd/common/executor.py), which call each other: while a command runs, the
 executor pings the server through the agent, and the answer may replace the goal.
 Every method is proved to take only steps of the machine in module Protocol.
 */
module Agent {
  import opened Wrappers
  import opened DeployTypes
  import opened StatusFile
  import opened Protocol
  import opened WriteAhead
  import opened Coherence
  import opened Progress
  import opened Attribution
  import opened History
  import opened RunLog
  import opened RunPace
  import opened AgentConfig
  import opened Tuning
  import opened Work
  import opened DeployStatuses
  import opened World
  import opened StaleBuilds

  type Envs = map<string, DeployStatus>

  /** The objects have the values `vals`. */
  ghost predicate Shows(envs: Envs, vals: map<string, StatusValue>)
    reads envs.Values
  {
    envs.Keys == vals.Keys && forall k :: k in envs ==> envs[k].Value() == vals[k]
  }

  ghost predicate Distinct(envs: Envs) {
    forall a, b :: a in envs && b in envs && a != b ==> envs[a] != envs[b]
  }

  /** The status can be reported and its settings can be used. */
  ghost predicate Loadable(v: StatusValue, limitsOf: Reading) {
    v.report.Some? && Usable(limitsOf(SettingsOf(v)))
  }

  ghost predicate AllLoadable(envs: map<string, StatusValue>, limitsOf: Reading) {
    forall k :: k in envs ==> Loadable(envs[k], limitsOf)
  }

  /** The status can also be shown to scripts. */
  ghost predicate Presentable(v: StatusValue, limitsOf: Reading) {
    && Loadable(v, limitsOf)
    && v.report.value.deployId.Some? && v.report.value.deployStage.Some? && v.opCode.Some?
  }

  ghost predicate AllPresentable(envs: map<string, StatusValue>, limitsOf: Reading) {
    forall k :: k in envs ==> Presentable(envs[k], limitsOf)
  }

  /** An agent can start from the file if environment `first` is the one that Python lists first. */
  ghost predicate CanLoad(disk: Disk, first: string, limitsOf: Reading) {
    && AllLoadable(EnvsOf(disk), limitsOf)
    && (EnvsOf(disk) != map[] ==> first in EnvsOf(disk) && Presentable(EnvsOf(disk)[first], limitsOf))
  }

  /** The objects have the values `vals`, and `current` is the very object of environment `curr`. */
  ghost predicate Links(envs: Envs, current: DeployStatus?, vals: map<string, StatusValue>, curr: Option<string>)
    reads envs.Values
  {
    && Distinct(envs) && Shows(envs, vals)
    && (current == null <==> curr.None?)
    && (curr.Some? ==> curr.value in envs && envs[curr.value] == current)
  }

  /** Every status has usable settings, and the current one is shown to scripts. */
  ghost predicate Configures(config: Config, vals: map<string, StatusValue>, curr: Option<string>)
    reads config
  {
    && AllLoadable(vals, config.limitsOf)
    && Usable(config.limitsOf(config.configs))
    && (curr.Some? && curr.value in vals ==> InEffect(config.configs, config.environ, EffectOf(vals[curr.value])))
  }

  lemma PresentableMeans(v: StatusValue, limitsOf: Reading)
    requires Presentable(v, limitsOf)
    ensures v.report.Some? && v.report.value.deployId.Some? && v.report.value.deployStage.Some? && v.opCode.Some?
    ensures Usable(limitsOf(SettingsOf(v)))
  {
  }

  lemma LoadableReports(envs: map<string, StatusValue>, limitsOf: Reading)
    requires AllLoadable(envs, limitsOf)
    ensures AllReports(envs)
  {
  }

  lemma CleanLoads(s: State, limitsOf: Reading)
    requires AllLoadable(s.envs, limitsOf)
    ensures AllLoadable(CleanEnvs(s.envs), limitsOf)
    ensures s.curr.Some? && s.curr.value in s.envs ==>
              && s.curr.value in CleanEnvs(s.envs)
              && EffectOf(CleanEnvs(s.envs)[s.curr.value]) == EffectOf(s.envs[s.curr.value])
  {
  }

  lemma InstallLoads(s: State, r: Response, limitsOf: Reading)
    requires AllLoadable(s.envs, limitsOf) && r.deployGoal.Some? && Usable(limitsOf(map[]))
    requires NonEmpty(r.deployGoal.value.config) ==> Usable(limitsOf(r.deployGoal.value.config.value))
    ensures AllLoadable(Install(s, r).envs, limitsOf)
    ensures Presentable(Install(s, r).envs[r.deployGoal.value.envName], limitsOf)
  {
  }

  lemma RecordLoads(s: State, d: DeployReport, limitsOf: Reading)
    requires Recordable(s) && AllLoadable(s.envs, limitsOf)
    ensures AllLoadable(Record(s, d).envs, limitsOf)
    ensures s.curr.Some? ==> EffectOf(Record(s, d).envs[s.curr.value]) == EffectOf(s.envs[s.curr.value])
  {
  }

  // ---------- The file for the next start ----------

  /** If all statuses could be shown to scripts at first, all can now, those in the file included. */
  ghost predicate Restartable(limitsOf: Reading, s0: State, s: State) {
    && AllLoadable(EnvsOf(s.disk), limitsOf)
    && (AllPresentable(s0.envs, limitsOf) && AllPresentable(EnvsOf(s0.disk), limitsOf) ==>
          AllPresentable(s.envs, limitsOf) && AllPresentable(EnvsOf(s.disk), limitsOf))
  }

  lemma DumpPresents(envs: map<string, StatusValue>, limitsOf: Reading)
    ensures AllLoadable(envs, limitsOf) ==> AllLoadable(EnvsOf(DiskOf(envs)), limitsOf)
    ensures AllPresentable(envs, limitsOf) ==> AllPresentable(EnvsOf(DiskOf(envs)), limitsOf)
  {
    hide DiskOf;
    hide EnvsOf;
    DiskRoundTrip(envs);
  }

  lemma InstallPresents(s: State, r: Response, limitsOf: Reading)
    requires AllPresentable(s.envs, limitsOf) && AllLoadable(Install(s, r).envs, limitsOf)
    ensures AllPresentable(Install(s, r).envs, limitsOf)
  {
  }

  lemma RecordPresents(s: State, d: DeployReport, limitsOf: Reading)
    requires Recordable(s) && AllPresentable(s.envs, limitsOf)
    ensures AllPresentable(Record(s, d).envs, limitsOf)
  {
  }

  lemma PingPresents(s: State, answer: Option<Response>, limitsOf: Reading)
    requires AllPresentable(s.envs, limitsOf) && Enabled(s, Ping(answer))
    requires AllLoadable(Next(s, Ping(answer)).envs, limitsOf)
    ensures AllPresentable(Next(s, Ping(answer)).envs, limitsOf)
  {
    var c := s.(envs := CleanEnvs(s.envs));
    assert AllPresentable(c.envs, limitsOf) by {
      hide AllLoadable;
    }
    if answer.Some? {
      InstallPresents(c, answer.value, limitsOf);
    }
  }

  lemma RemovePresents(envs: map<string, StatusValue>, name: string, limitsOf: Reading)
    requires AllPresentable(envs, limitsOf)
    ensures AllPresentable(envs - {name}, limitsOf)
  {
  }

  lemma StepPresents(s: State, e: Event, limitsOf: Reading)
    requires Enabled(s, e) && AllPresentable(s.envs, limitsOf) && AllLoadable(Next(s, e).envs, limitsOf)
    ensures AllPresentable(Next(s, e).envs, limitsOf)
  {
    hide AllLoadable;
    hide AllPresentable;
    match e
    case Ping(answer) => PingPresents(s, answer, limitsOf);
    case Apply(d) => RecordPresents(s, d, limitsOf);
    case Dump(ok) => RecordPresents(s, DUMP_FAILED, limitsOf);
    case Leave => if s.resp.Some? { InstallPresents(s, s.resp.value, limitsOf); }
    case Begin(_) =>
    case Return(job, _) =>
      if s.phase.Working? && Removes(job) {
        RemovePresents(s.envs, job.deployGoal.value.envName, limitsOf);
      }
  }

  lemma StepRestarts(limitsOf: Reading, s0: State, s: State, e: Event)
    requires Enabled(s, e) && Restartable(limitsOf, s0, s)
    requires AllLoadable(s.envs, limitsOf) && AllLoadable(Next(s, e).envs, limitsOf)
    ensures Restartable(limitsOf, s0, Next(s, e))
  {
    hide AllLoadable;
    hide AllPresentable;
    hide Enabled;
    hide Next;
    hide EnvsOf;
    hide DiskOf;
    DumpPresents(s.envs, limitsOf);
    StepDisk(s, e);
    if AllPresentable(s.envs, limitsOf) {
      StepPresents(s, e, limitsOf);
    }
  }

  lemma StepDisk(s: State, e: Event)
    requires Enabled(s, e)
    ensures Next(s, e).disk == s.disk || Next(s, e).disk == DiskOf(s.envs)
  {
    hide DiskOf;
  }

  // ---------- The price of a run ----------

  /** The cost of a round of the serving loop. */
  function RoundCost(l: Limits): int { RunCost(l) + 5 }

  /** What was spent is no more than the price of the run's rounds and the first ping, if the limits stay `l`. */
  ghost predicate Paid(limitsOf: Reading, m0: Option<Limits>, s0: State, t: seq<Event>, l: Limits, spent: int)
    requires Legal(s0, t)
  {
    LimitsStay(limitsOf, m0, s0, t, l) && TimeLimited(l) ==> spent <= 1 + Rounds(t) * RoundCost(l)
  }

  lemma PaidFirst(limitsOf: Reading, m0: Option<Limits>, s0: State, t: seq<Event>, l: Limits, spent: int)
    requires Legal(s0, t) && spent <= 1
    ensures Paid(limitsOf, m0, s0, t, l, spent)
  {
    CostPositive(l);
    Product(Rounds(t), RoundCost(l));
  }

  lemma FewerCost(k: int, n: int, l: Limits)
    requires k <= n
    ensures k * RoundCost(l) <= n * RoundCost(l)
  {
    CostPositive(l);
    assert n * RoundCost(l) == k * RoundCost(l) + (n - k) * RoundCost(l);
    Product(n - k, RoundCost(l));
  }

  lemma OneMoreRound(k: nat, more: nat, cost: int)
    requires more > k && cost >= 0
    ensures k * cost + cost <= more * cost
  {
    assert more * cost == k * cost + cost + (more - k - 1) * cost;
    Product(more - k - 1, cost);
  }

  /** More rounds, of which one was played with limits `l` if these stayed. */
  lemma PaidMore(limitsOf: Reading, m0: Option<Limits>, s0: State, t: seq<Event>, u: seq<Event>, l: Limits,
                 spent: int, used: int)
    requires Legal(s0, u) && t <= u && Rounds(u) > Rounds(t)
    requires Legal(s0, t) && Paid(limitsOf, m0, s0, t, l, spent)
    requires LimitsStay(limitsOf, m0, s0, u, l) && TimeLimited(l) ==> used <= RoundCost(l)
    ensures Paid(limitsOf, m0, s0, u, l, spent + used)
  {
    hide Rounds;
    hide RunCost;
    hide LimitsStay;
    hide Run;
    if LimitsStay(limitsOf, m0, s0, u, l) && TimeLimited(l) {
      StayOn(limitsOf, m0, s0, t, u, l);
      CostPositive(l);
      OneMoreRound(Rounds(t), Rounds(u), RoundCost(l));
    }
  }

  /** The status file on disk (common/env_status.py). */
  class EnvStatus {
    const world: World

    constructor (world: World)
      ensures this.world == world
    {
      this.world := world;
    }

    /** New status objects with the file's contents; an unreadable file gives none. */
    method LoadEnvs() returns (envs: Envs)
      ensures Distinct(envs) && Shows(envs, EnvsOf(world.disk))
      ensures forall k :: k in envs ==> fresh(envs[k])
    {
      envs := map[];
      if Readable(world.disk) {
        var names := world.disk.Keys;
        while names != {}
          invariant names <= world.disk.Keys && envs.Keys == world.disk.Keys - names
          invariant Distinct(envs)
          invariant forall k :: k in envs ==> fresh(envs[k]) && envs[k].Value() == StatusFromRecord(world.disk[k]).value
          decreases names
        {
          var name :| name in names;
          var status := new DeployStatus.FromJson(world.disk[name]);
          envs := envs[name := status];
          names := names - {name};
        }
      }
    }

    /** Overwrites the file with the statuses, or fails and leaves it. */
    method DumpEnvs(envs: Envs, ghost vals: map<string, StatusValue>) returns (r: Step<bool>)
      requires Shows(envs, vals)
      modifies world`budget, world`disk
      ensures r.Done? ==>
                && old(world.budget) >= 1 && world.budget == old(world.budget) - 1
                && world.disk == if r.value then DiskOf(vals) else old(world.disk)
      ensures r.Crashed? ==> world.budget == old(world.budget) == 0 && world.disk == old(world.disk)
    {
      hide StatusRecord;
      var data: Disk := map[];
      var names := envs.Keys;
      while names != {}
        invariant names <= envs.Keys && data.Keys == envs.Keys - names
        invariant forall k :: k in data ==> data[k] == StatusRecord(vals[k])
        invariant world.budget == old(world.budget) && world.disk == old(world.disk)
        decreases names
      {
        var name :| name in names;
        var json := envs[name].ToJson();
        data := data[name := json];
        names := names - {name};
      }
      var _ :- world.Interact();
      var ok: bool := *;
      if ok {
        world.disk := data;
      }
      return Done(ok);
    }
  }

  /** The connection to the deploy server (client/client.py). */
  class Client {
    const world: World
    const config: Config

    constructor (world: World, config: Config)
      ensures this.world == world && this.config == config
    {
      this.world := world;
      this.config := config;
    }

    /** An answer that can be installed without an exception: its settings are usable. */
    ghost predicate Installable(r: Response) {
      r.deployGoal.Some? && NonEmpty(r.deployGoal.value.config) ==>
        Usable(config.limitsOf(r.deployGoal.value.config.value))
    }

    /** Filters the error messages, sends the reports, and brings back an answer or nothing. */
    method SendReports(envs: Envs, ghost vals: map<string, StatusValue>) returns (r: Step<Option<Response>>)
      requires Distinct(envs) && Shows(envs, vals)
      modifies world`budget, envs.Values
      ensures r.Done? ==>
                && old(world.budget) >= 1 && world.budget == old(world.budget) - 1
                && (r.value.Some? ==> Installable(r.value.value))
      ensures r.Crashed? ==> world.budget == old(world.budget) == 0
      ensures Shows(envs, CleanEnvs(vals))
    {
      var names := envs.Keys;
      while names != {}
        invariant names <= envs.Keys
        invariant forall k :: k in envs ==> envs[k].Value() == if k in names then vals[k] else Cleaned(vals[k])
        invariant world.budget == old(world.budget)
        decreases names
      {
        var name :| name in names;
        envs[name].FilterMessage();
        names := names - {name};
      }
      var _ :- world.Interact();
      var answer: Option<Response> := *;
      if answer.Some? && answer.value.deployGoal.Some? && NonEmpty(answer.value.deployGoal.value.config)
         && !Usable(config.limitsOf(answer.value.deployGoal.value.config.value)) {
        answer := None;
      }
      return Done(answer);
    }
  }

  /** How watching a process ended: by its exit code, with the state of the bookkeeping, or by stopping it. */
  datatype Watched = Exit(code: int, start: int, report: DeployReport) | Stopped(report: DeployReport)

  /** What a check on a running process decides. */
  datatype Checked = GoesOn(start: int, report: DeployReport) | Halted(report: DeployReport)

  /** How an attempt ended: by a failure, or with the whole run. */
  datatype Attempted = Failing(start: int, report: DeployReport) | Over(report: DeployReport)

  /** Runs commands and deploy scripts (common/executor.py). */
  class Executor {
    const agent: DeployAgent     // the callback
    const world: World
    const config: Config
    var limits: Limits

    constructor (agent: DeployAgent, world: World, config: Config)
      requires Usable(config.limitsOf(config.configs))
      ensures this.agent == agent && this.world == world && this.config == config
      ensures Sane(limits) && Some(limits) == config.limitsOf(config.configs)
    {
      this.agent := agent;
      this.world := world;
      this.config := config;
      this.limits := config.limitsOf(config.configs).value;
    }

    method UpdateConfigs()
      requires Usable(config.limitsOf(config.configs))
      modifies this
      ensures Some(limits) == config.limitsOf(config.configs) && Sane(limits)
    {
      limits := config.limitsOf(config.configs).value;
    }

    method GetSleepInterval(start: int, interval: int) returns (d: int)
      ensures d == Min(interval, Max(limits.minRunningTime - Seconds(world.clock - start), 1))
    {
      var now := world.clock;
      var maxSleepSeconds := limits.minRunningTime - Seconds(now - start);
      d := Min(interval, Max(maxSleepSeconds, 1));
    }

    /** The agent this executor works for is inside process_deploy, on a goal that is not a removal. */
    ghost predicate Engaged()
      reads this, agent, agent.world, agent.envs.Values, agent.config, agent.executor
    {
      && agent.executor == this && agent.world == world && agent.config == config
      && agent.Valid() && world.Consistent()
      && agent.state.phase.Working? && !Removes(agent.state.phase.job)
    }

    /** Reports to the server when it has not heard for long enough; a changed plan aborts the command. */
    method PingServerIfPossible(start: int, report: DeployReport) returns (r: Step<(int, DeployReport)>)
      requires Engaged() && report.status in {Unknown, ScriptFailed}
      modifies agent, world, config, this, agent.envs.Values
      ensures agent.Recorded() && agent.Kept() && world.Consistent()
      ensures world.clock == old(world.clock)
      ensures r.Crashed? ==> world.budget == 0 && old(world.budget) <= 1 && world.log == old(world.log)
      ensures r.Done? ==>
                && agent.Valid() && Sane(limits)
                && var due := Seconds(world.clock - start) >= old(limits.minRunningTime);
                if !due then
                  && r.value == (start, report)
                  && world.log == old(world.log) && world.budget == old(world.budget)
                  && agent.state == old(agent.state) && limits == old(limits)
                else
                  && old(world.budget) >= 2 && world.budget == old(world.budget) - 2
                  && |world.log| == |old(world.log)| + 1 && Last(world.log).Pinged?
                  && var ping := Last(world.log);
                  && world.log == old(world.log) + [Pinged(ping.result, world.clock, limits)]
                  && r.value.0 == world.clock
                  && (if ping.result == PlanChanged then
                        r.value.1 == report.(status := AbortedByServer)
                        && agent.state.phase == Aborting(old(agent.state.phase.job))
                      else
                        r.value.1 == report && agent.state.phase == old(agent.state.phase))
    {
      hide World.Consistent;
      hide Next;
      hide Enabled;
      hide DeployAgent.Valid;
      hide DeployAgent.Recorded;
      agent.CanReportNow(report);
      agent.ValidIsRecorded();
      var now := world.clock;
      var processedTime := Seconds(now - start);
      agent.ExecutorIsSane();
      if processedTime >= limits.minRunningTime {
        var result :- agent.UpdateDeployStatus(report);
        agent.ExecutorIsSane();
        agent.Heed(result);
        agent.ValidIsRecorded();
        if result == PlanChanged {
          return Done((now, report.(status := AbortedByServer)));
        }
        return Done((now, report));
      }
      return Done((start, report));
    }

    /** The ghost account `p` of a run agrees with the variables of `run_cmd` and with the world. */
    ghost predicate Accounts(base: Log, total: int, p: Pace, start: int, initStart: int, report: DeployReport)
      reads world, this
    {
      && world.log == base + p.log && world.clock == p.now && world.budget + p.spent == total
      && start == p.start && initStart == p.initStart
      && report.status in {Unknown, ScriptFailed} && report.retryTimes == p.retries >= 0
    }

    /** The same, with the account of the run: the ping, if there was one, is on it. */
    method PingAccounted(ghost base: Log, ghost p: Pace, start: int, report: DeployReport)
      returns (r: Step<(int, DeployReport)>, ghost q: Pace)
      requires Engaged() && report.status in {Unknown, ScriptFailed}
      requires world.log == base + p.log && world.clock == p.now && start == p.start
      modifies agent, world, config, this, agent.envs.Values
      ensures agent.Recorded() && agent.Kept() && world.Consistent()
      ensures world.clock == old(world.clock) && world.log == base + q.log && LastCode(q.log) == LastCode(p.log)
      ensures r.Crashed? ==> world.budget == 0 && old(world.budget) <= 1 && q == p
      ensures r.Done? ==>
                && agent.Valid() && Sane(limits)
                && r.value.0 == q.start
                && if q == p then
                     && Seconds(Silence(p)) < limits.minRunningTime && limits == old(limits)
                     && r.value.1 == report && world.budget == old(world.budget)
                     && agent.state.phase == old(agent.state.phase)
                   else
                     && old(world.budget) >= 2 && world.budget == old(world.budget) - 2
                     && |q.log| == |p.log| + 1 && Last(q.log).Pinged?
                     && var result := Last(q.log).result;
                     && q == Add(p, Pinged(result, p.now, limits)).(start := p.now)
                     && (if result == PlanChanged then
                           r.value.1 == report.(status := AbortedByServer)
                           && agent.state.phase == Aborting(old(agent.state.phase.job))
                         else r.value.1 == report && agent.state.phase == old(agent.state.phase))
    {
      hide World.Consistent;
      hide DeployAgent.Valid;
      hide DeployAgent.Recorded;
      q := p;
      r := PingServerIfPossible(start, report);
      if r.Done? && |world.log| > |base + p.log| {
        CodeStays(p.log, Last(world.log));
        q := Add(p, Last(world.log)).(start := p.now);
      }
    }

    /** A running process that may go on is left alone for a while and polled again. */
    method SleepAndPoll(ghost base: Log, ghost total: int, ghost p: Pace, ghost l: Limits, ghost cmd: seq<string>,
                        start: int, initStart: int, report: DeployReport, ghost used: nat)
      returns (r: Step<Option<int>>, ghost q: Pace)
      requires Busy(p, l) && Within(p, l, cmd) && Believes(p, l, limits) && used <= 2
      requires Accounts(base, total - used, p, start, initStart, report)
      requires p.start == p.now || Seconds(Silence(p)) < limits.minRunningTime
      requires Seconds(Elapsed(p)) < limits.maxRunningTime
      requires world.Consistent()
      modifies world`budget, world`clock, world`log
      ensures world.Consistent()
      ensures world.log == base + q.log
      ensures q.retries == p.retries && q.interval == p.interval && q.t0 == p.t0
      ensures r.Crashed? ==> world.budget == 0 && Afforded(q, l, total)
      ensures r.Done? ==>
                && old(world.budget) > world.budget
                && Polled(q, l, cmd, limits, r.value)
                && Accounts(base, total, q, start, initStart, report)
                && (r.value.None? ==> LastCode(q.log) == LastCode(p.log))
    {
      hide LastCode;
      hide Busy;
      hide Within;
      hide Believes;
      hide Afforded;
      hide Polled;
      hide Seconds;
      hide Min;
      hide Max;
      hide World.Consistent;
      q := p;
      WatchAffords(p, l, cmd, used);
      var d := GetSleepInterval(start, limits.pollInterval);
      WatchSleep(p, l, cmd, limits, d, used + 2);
      var _ :- world.Sleep(d);
      CodeStays(p.log, Slept(d, p.now));
      q := Add(p, Slept(d, p.now)).(now := p.now + d, spent := p.spent + used + 2);
      WatchAffords(q, l, cmd, -1);
      var code :- world.Poll();
      PollKeeps(q, l, cmd, limits, code);
      q := q.(log := q.log + PollLog(code, q.now));
      return Done(code), q;
    }

    /** Reports on a running process and stops it if the server changed the plan or its time is up. */
    method Check(ghost base: Log, ghost total: int, ghost p0: Pace, ghost l: Limits, ghost cmd: seq<string>,
                 start0: int, initStart: int, report0: DeployReport)
      returns (r: Step<Checked>, ghost p: Pace, ghost used: nat)
      requires Engaged() && Accounts(base, total, p0, start0, initStart, report0)
      requires Believes(p0, l, limits) && Busy(p0, l) && Within(p0, l, cmd) && report0.errorCode == LastCode(p0.log)
      modifies agent, world, config, this, agent.envs.Values
      ensures agent.Recorded() && agent.Kept() && world.Consistent()
      ensures world.log == base + p.log && world.budget <= old(world.budget)
      ensures p.retries == p0.retries && p.interval == p0.interval && p.t0 == p0.t0
      ensures r.Crashed? ==> world.budget == 0 && Afforded(p, l, total)
      ensures r.Done? ==>
                match r.value
                case GoesOn(start, report) =>
                  && Engaged() && agent.state.phase == old(agent.state.phase) && used <= 2
                  && Busy(p, l) && Within(p, l, cmd) && Believes(p, l, limits)
                  && Accounts(base, total - used, p, start, initStart, report)
                  && report.errorCode == LastCode(p.log)
                  && (p.start == p.now || Seconds(Silence(p)) < limits.minRunningTime)
                  && Seconds(Elapsed(p)) < limits.maxRunningTime
                case Halted(report) =>
                  && agent.Valid() && RunOver(p, l, cmd, report) && world.clock == p.now
                  && Afforded(p, l, total - world.budget)
                  && report.status in {AbortedByServer, ScriptTimeout}
                  && agent.state.phase == (if report.status == AbortedByServer then Aborting(old(agent.state.phase.job))
                                           else old(agent.state.phase))
    {
      hide World.Consistent;
      hide Busy;
      hide Within;
      hide Believes;
      hide RunOver;
      hide Afforded;
      hide Seconds;
      hide LastCode;
      hide DeployAgent.Valid;
      hide DeployAgent.Recorded;
      p, used := p0, 0;
      WatchAffords(p, l, cmd, 0);
      WatchAffords(p, l, cmd, 1);
      var pinged, q := PingAccounted(base, p, start0, report0);
      if pinged.Crashed? {
        return Crashed, p, 0;
      }
      var start, report := pinged.value.0, pinged.value.1;
      if report.status == AbortedByServer {
        world.Kill();
        WatchAbort(p, l, cmd, limits, report);
        p := p.(log := q.log + [Killed(p.now)]);
        return Done(Halted(report)), p, 0;
      }
      if q != p {
        used := 2;
        WatchPing(p, l, cmd, Last(q.log).result, limits);
        p := q;
      }
      if Seconds(world.clock - initStart) >= limits.maxRunningTime {
        world.Kill();
        var text := world.Output();
        report := report.(outputMsg := text, status := ScriptTimeout, errorCode := 1);
        WatchTimeout(p, l, cmd, limits, used, report);
        p := Add(p, Killed(p.now));
        return Done(Halted(report)), p, 0;
      }
      return Done(GoesOn(start, report)), p, used;
    }

    /** A running process is watched until it ends or is stopped: `run_cmd`'s inner loop. */
    method Watch(ghost base: Log, ghost total: int, ghost p0: Pace, ghost l: Limits, ghost cmd: seq<string>,
                 start0: int, initStart: int, report0: DeployReport)
      returns (r: Step<Watched>, ghost p: Pace)
      requires Engaged() && Accounts(base, total + 1, p0, start0, initStart, report0)
      requires Believes(p0, l, limits) && Busy(p0, l) && Within(p0, l, cmd) && report0.errorCode == LastCode(p0.log)
      modifies agent, world, config, this, agent.envs.Values
      ensures agent.Recorded() && agent.Kept() && world.Consistent()
      ensures world.log == base + p.log && world.budget <= old(world.budget)
      ensures p.retries == p0.retries && p.interval == p0.interval && p.t0 == p0.t0
      ensures r.Crashed? ==> world.budget == 0 && Afforded(p, l, total)
      ensures r.Done? ==>
                match r.value
                case Exit(code, start, report) =>
                  && Engaged() && agent.state.phase == old(agent.state.phase)
                  && Polled(p, l, cmd, limits, Some(code))
                  && Accounts(base, total, p, start, initStart, report)
                case Stopped(report) =>
                  && agent.Valid() && RunOver(p, l, cmd, report) && world.clock == p.now
                  && Afforded(p, l, total - world.budget)
                  && report.status in {AbortedByServer, ScriptTimeout}
                  && agent.state.phase == (if report.status == AbortedByServer then Aborting(old(agent.state.phase.job))
                                           else old(agent.state.phase))
    {
      hide World.Consistent;
      hide Busy;
      hide Within;
      hide Believes;
      hide RunOver;
      hide Afforded;
      hide Steady;
      hide Seconds;
      hide Min;
      hide Max;
      hide Last;
      hide LastCode;
      hide Front;
      hide Removes;
      hide Polled;
      hide Run;
      hide Legal;
      hide Start;
      hide DeployAgent.Valid;
      hide DeployAgent.Recorded;
      var start, report := start0, report0;
      p := p0;
      WatchAffords(p, l, cmd, -1);
      agent.ValidIsRecorded();
      var polled :- world.Poll();
      PollKeeps(p, l, cmd, limits, polled);
      p := p.(log := p.log + PollLog(polled, p.now));
      var code := Done(polled);
      while code.value.None?
        invariant Engaged() && agent.Kept() && agent.state.phase == old(agent.state.phase)
        invariant code.Done? && Polled(p, l, cmd, limits, code.value)
        invariant code.value.None? ==> report.errorCode == LastCode(p.log)
        invariant Accounts(base, total, p, start, initStart, report)
        invariant p.retries == p0.retries && p.interval == p0.interval && p.t0 == p0.t0
        invariant world.budget <= old(world.budget)
        decreases world.budget
      {
        StillRuns(p, l, cmd, limits);
        ghost var used;
        var checked;
        checked, p, used := Check(base, total, p, l, cmd, start, initStart, report);
        if checked.Crashed? {
          return Crashed, p;
        }
        if checked.value.Halted? {
          return Done(Watched.Stopped(checked.value.report)), p;
        }
        start, report := checked.value.start, checked.value.report;
        agent.ValidIsRecorded();
        code, p := SleepAndPoll(base, total, p, l, cmd, start, initStart, report, used);
        if code.Crashed? {
          return Crashed, p;
        }
      }
      agent.ValidIsRecorded();
      return Done(Exit(code.value.value, start, report)), p;
    }

    /** The first part of the wait: until the next ping is due, or the interval is over. */
    method SleepFirst(ghost base: Log, ghost total: int, ghost p0: Pace, ghost l: Limits, ghost cmd: seq<string>,
                      start: int, ghost report: DeployReport, interval: int)
      returns (r: Step<int>, ghost p: Pace)
      requires Accounts(base, total, p0, start, p0.initStart, report) && world.Consistent()
      requires Retrying(p0, l, cmd, limits) && interval == p0.interval >= 0
      modifies world`budget, world`clock, world`log
      ensures world.log == base + p.log && world.budget <= old(world.budget) && world.Consistent()
      ensures p.retries == p0.retries && p.initStart == p0.initStart && p.t0 == p0.t0 && p.interval == p0.interval
      ensures LastCode(p.log) == LastCode(p0.log)
      ensures r.Crashed? ==> world.budget == 0 && Afforded(p, l, total)
      ensures r.Done? ==>
                && HalfWaited(p, l, cmd, limits, r.value)
                && Accounts(base, total, p, start, p.initStart, report)
    {
      hide World.Consistent;
      hide Retrying;
      hide HalfWaited;
      hide Afforded;
      hide LastCode;
      hide Seconds;
      hide Min;
      hide Max;
      p := p0;
      RetryAffords(p, l, cmd, limits);
      var sleepTime := GetSleepInterval(start, interval);
      WaitSleeps(p, l, cmd, limits, sleepTime);
      var _ :- world.Sleep(sleepTime);
      CodeStays(p.log, Slept(sleepTime, p.now));
      p := Add(p, Slept(sleepTime, p.now)).(now := p.now + sleepTime, spent := p.spent + 1);
      return Done(sleepTime), p;
    }

    /** The wait after a failed attempt: `run_cmd` sleeps, pings if it is due, and sleeps the rest of the interval. */
    method BackOff(ghost base: Log, ghost total: int, ghost p0: Pace, ghost l: Limits, ghost cmd: seq<string>,
                   start0: int, report0: DeployReport, interval: int)
      returns (r: Step<(int, DeployReport, int)>, ghost p: Pace)
      requires Engaged() && Accounts(base, total, p0, start0, p0.initStart, report0)
      requires Retrying(p0, l, cmd, limits) && interval == p0.interval >= 0 && report0.errorCode == LastCode(p0.log)
      modifies agent, world, config, this, agent.envs.Values
      ensures agent.Recorded() && agent.Kept() && world.Consistent()
      ensures world.log == base + p.log
      ensures p.retries == p0.retries && p.initStart == p0.initStart && p.t0 == p0.t0
      ensures world.budget <= old(world.budget)
      ensures r.Crashed? ==> world.budget == 0 && Afforded(p, l, total)
      ensures r.Done? ==>
                && agent.Valid()
                && var (start, report, next) := r.value;
                if report.status == AbortedByServer then
                  RunOver(p, l, cmd, report) && world.clock == p.now
                  && Afforded(p, l, total - world.budget)
                  && agent.state.phase == Aborting(old(agent.state.phase.job))
                else
                  && CanStart(p, l, cmd, limits) && next == p.interval
                  && Accounts(base, total, p, start, p.initStart, report) && report == report0
                  && report.errorCode == LastCode(p.log)
                  && Engaged() && agent.state.phase == old(agent.state.phase)
    {
      hide World.Consistent;
      hide Removes;
      hide Run;
      hide Legal;
      hide Start;
      hide Front;
      hide Books;
      hide LastCode;
      hide Retrying;
      hide CanStart;
      hide HalfWaited;
      hide FullyPinged;
      hide RunOver;
      hide Afforded;
      hide Steady;
      hide Seconds;
      hide Min;
      hide Max;
      hide DeployAgent.Valid;
      hide DeployAgent.Recorded;
      var start, report := start0, report0;
      p := p0;
      agent.ValidIsRecorded();
      var slept;
      slept, p := SleepFirst(base, total, p, l, cmd, start, report, interval);
      if slept.Crashed? {
        return Crashed, p;
      }
      var sleepTime := slept.value;
      HalfAffords(p, l, cmd, limits, sleepTime);
      ghost var before := limits;
      var pinged, q := PingAccounted(base, p, start, report);
      if pinged.Crashed? {
        return Crashed, p;
      }
      start, report := pinged.value.0, pinged.value.1;
      if report.status == AbortedByServer {
        WaitAborts(p, l, cmd, before, sleepTime, limits, report);
        p := p.(log := q.log);
        agent.ValidIsRecorded();
        return Done((start, report, interval)), p;
      }
      if q == p {
        WaitNotPinged(p, l, cmd, limits, sleepTime);
      } else {
        WaitPings(p, l, cmd, before, sleepTime, Last(q.log).result, limits);
        p := q.(spent := q.spent + 2);
      }
      agent.ValidIsRecorded();
      var next;
      next, p := RestOfWait(base, total, p, l, cmd, start, report, interval, sleepTime);
      if next.Crashed? {
        return Crashed, p;
      }
      return Done((start, report, next.value)), p;
    }

    /** The second part of the wait, and the next interval. */
    method RestOfWait(ghost base: Log, ghost total: int, ghost p0: Pace, ghost l: Limits, ghost cmd: seq<string>,
                      ghost start: int, ghost report: DeployReport, interval: int, sleepTime: int)
      returns (r: Step<int>, ghost p: Pace)
      requires Accounts(base, total, p0, start, p0.initStart, report)
      requires FullyPinged(p0, l, cmd, limits, sleepTime) && interval == p0.interval
      requires world.Consistent()
      modifies world`budget, world`clock, world`log
      ensures world.Consistent()
      ensures world.log == base + p.log && world.budget <= old(world.budget)
      ensures p.retries == p0.retries && p.initStart == p0.initStart && p.t0 == p0.t0
      ensures LastCode(p.log) == LastCode(p0.log)
      ensures r.Crashed? ==> world.budget == 0 && Afforded(p, l, total)
      ensures r.Done? ==>
                && CanStart(p, l, cmd, limits) && r.value == p.interval
                && Accounts(base, total, p, start, p.initStart, report)
    {
      hide World.Consistent;
      hide CanStart;
      hide FullyPinged;
      hide Afforded;
      hide LastCode;
      hide Min;
      p := p0;
      WaitEnds(p, l, cmd, limits, sleepTime);
      PingedAffords(p, l, cmd, limits, sleepTime);
      var next := Min(interval * limits.backOff, limits.maxSleepInterval);
      if interval - sleepTime > 0 {
        var _ :- world.Sleep(interval - sleepTime);
        CodeStays(p.log, Slept(interval - sleepTime, p.now));
        p := Add(p, Slept(interval - sleepTime, p.now)).(now := p.now + (interval - sleepTime), spent := p.spent + 1);
      }
      p := p.(interval := next);
      return Done(next), p;
    }

    /** One attempt: the process is started and watched. */
    method Attempt(ghost base: Log, ghost total: int, ghost p0: Pace, ghost l: Limits, cmd: seq<string>,
                   start0: int, initStart: int, report0: DeployReport)
      returns (r: Step<Attempted>, ghost p: Pace)
      requires Engaged() && Accounts(base, total, p0, start0, initStart, report0)
      requires CanStart(p0, l, cmd, limits) && p0.retries < limits.maxRetry && report0.errorCode == LastCode(p0.log)
      modifies agent, world, config, this, agent.envs.Values
      ensures agent.Recorded() && agent.Kept() && world.Consistent()
      ensures world.log == base + p.log
      ensures p.t0 == p0.t0 && p.interval == p0.interval >= 0
      ensures r.Crashed? ==> world.budget == 0 && Afforded(p, l, total)
      ensures r.Done? ==> old(world.budget) > world.budget
      ensures r.Done? ==>
                match r.value
                case Failing(start, report) =>
                  && Engaged() && agent.state.phase == old(agent.state.phase)
                  && HasFailed(p, l, cmd, limits) && p.retries == p0.retries + 1 && p.initStart == p.now
                  && Accounts(base, total, p, start, p.now, report.(retryTimes := report.retryTimes + 1))
                  && report.errorCode == LastCode(p.log)
                case Over(report) =>
                  && agent.Valid() && RunOver(p, l, cmd, report) && world.clock == p.now
                  && Afforded(p, l, total - world.budget)
                  && agent.state.phase == (if report.status == AbortedByServer then Aborting(old(agent.state.phase.job))
                                           else old(agent.state.phase))
    {
      hide World.Consistent;
      hide Busy;
      hide Within;
      hide Believes;
      hide Polled;
      hide HasFailed;
      hide CanStart;
      hide RunOver;
      hide Afforded;
      hide LastCode;
      hide DeployAgent.Valid;
      hide DeployAgent.Recorded;
      p := p0;
      var start, report := start0, report0;
      StartAffords(p, l, cmd, limits);
      agent.ValidIsRecorded();
      var started :- world.Popen(cmd);
      if started {
        RunStarts(p, l, cmd, limits);
        CodeStays(p.log, Started(cmd, p.now));
        p := Add(p, Started(cmd, p.now)).(began := p.now, spent := p.spent + 2);
        var watched;
        watched, p := Watch(base, total, p, l, cmd, start, initStart, report);
        if watched.Crashed? {
          return Crashed, p;
        }
        if watched.value.Stopped? {
          return Done(Over(watched.value.report)), p;
        }
        start, report := watched.value.start, watched.value.report;
        var text := world.Output();
        report := report.(errorCode := watched.value.code, outputMsg := text);
        if watched.value.code == 0 {
          report := report.(status := Succeeded);
          RunEndsWell(p, l, cmd, limits, report);
          agent.ValidIsRecorded();
          return Done(Over(report)), p;
        }
        RunFails(p, l, cmd, limits, watched.value.code);
        p := p.(retries := p.retries + 1, initStart := p.now);
      } else {
        RunDoesNotStart(p, l, cmd, limits);
        p := Add(p, NotStarted(p.now)).(retries := p.retries + 1, initStart := p.now, spent := p.spent + 1);
        var text := world.Output();
        report := report.(errorCode := 1, outputMsg := text);
      }
      agent.ValidIsRecorded();
      return Done(Failing(start, report)), p;
    }

    /** What this run has added to the log since it had `n` events. */
    ghost function Since(n: nat): Log
      reads world
    {
      if n <= |world.log| then world.log[n..] else []
    }

    lemma SinceBase(base: Log, log: Log)
      requires world.log == base + log
      ensures Since(|base|) == log && base <= world.log
    {
    }

    /**
     Runs a command, again and again if it fails, until it succeeds, runs for too long,
     has failed too often, or the server changes the plan.
     */
    method RunCmd(cmd: seq<string>) returns (r: Step<DeployReport>)
      requires Engaged() && Sane(limits)
      modifies agent, world, config, this, agent.envs.Values
      ensures agent.Recorded() && agent.Kept() && world.Consistent() && old(world.log) <= world.log
      ensures world.budget <= old(world.budget)
      ensures r.Done? && r.value.status == AbortedByServer ==> world.budget < old(world.budget)
      // One of four outcomes, told by the log; no process is left behind.
      ensures r.Done? ==>
                && agent.Valid()
                && Outcome(Since(|old(world.log)|), cmd, r.value)
                && agent.state.phase == (if r.value.status == AbortedByServer then Aborting(old(agent.state.phase.job))
                                         else old(agent.state.phase))
      // Retries, timeout, back-off and pings, as long as no ping changes the limits.
      ensures r.Done? && Fixed(Since(|old(world.log)|), old(limits)) ==>
                SteadyOutcome(Since(|old(world.log)|), old(limits), old(world.clock), world.clock, r.value)
      // It comes to an end after a bounded number of interactions.
      ensures TimeLimited(old(limits)) && Fixed(Since(|old(world.log)|), old(limits)) ==>
                && old(world.budget) - world.budget <= RunCost(old(limits))
                && (old(world.budget) > RunCost(old(limits)) ==> r.Done?)
    {
      hide World.Consistent;
      hide Busy;
      hide Within;
      hide Believes;
      hide Polled;
      hide Retrying;
      hide HasFailed;
      hide CanStart;
      hide RunOver;
      hide Afforded;
      hide Steady;
      hide Outcome;
      hide SteadyOutcome;
      hide RunCost;
      hide TimeLimited;
      hide Fixed;
      hide Sane;
      hide Failure;
      hide Last;
      hide LastCode;
      hide OnlyRuns;
      hide Removes;
      hide Max;
      hide Executor.Since;
      hide DeployAgent.Valid;
      hide DeployAgent.Recorded;
      ghost var base, total, l, t0 := world.log, world.budget, limits, world.clock;
      var report := DeployReport(Unknown, 0, None, 0);
      var processInterval := limits.pollInterval;
      var start, initStart := world.clock, world.clock;
      var totalRetry := 0;
      ghost var p := Pace([], t0, t0, t0, t0, t0, 0, l.pollInterval, 0);
      Begins(l, cmd, t0);
      agent.ValidIsRecorded();
      while totalRetry < limits.maxRetry
        invariant Engaged() && agent.Kept() && agent.state.phase == old(agent.state.phase)
        invariant CanStart(p, l, cmd, limits) && p.t0 == t0
        invariant Accounts(base, total, p, start, initStart, report) && report.errorCode == LastCode(p.log)
        invariant totalRetry == p.retries && processInterval == p.interval
        invariant world.budget <= old(world.budget)
        decreases world.budget
      {
        var attempted, q := Attempt(base, total, p, l, cmd, start, initStart, report);
        SinceBase(base, q.log);
        p := q;
        if attempted.Crashed? {
          RunCosts(p, l, total);
          return Crashed;
        }
        if attempted.value.Over? {
          RunSaid(p, l, cmd, attempted.value.report);
          RunCosts(p, l, total - world.budget);
          return Done(attempted.value.report);
        }
        start, report := attempted.value.start, attempted.value.report;
        report := report.(status := ScriptFailed, retryTimes := report.retryTimes + 1);
        totalRetry := totalRetry + 1;
        if totalRetry >= limits.maxRetry {
          report := report.(status := TooManyRetry);
          RunGivesUp(p, l, cmd, limits, report);
          RunSaid(p, l, cmd, report);
          RunCosts(p, l, p.spent);
          return Done(report);
        }
        initStart := world.clock;
        RunRetries(p, l, cmd, limits);
        var waited;
        waited, p := BackOff(base, total, p, l, cmd, start, report, processInterval);
        SinceBase(base, p.log);
        if waited.Crashed? {
          RunCosts(p, l, total);
          return Crashed;
        }
        start, report, processInterval := waited.value.0, waited.value.1, waited.value.2;
        if report.status == AbortedByServer {
          RunSaid(p, l, cmd, report);
          RunCosts(p, l, total - world.budget);
          return Done(report);
        }
      }
      report := report.(status := TooManyRetry);
      RunNeverStarts(p, l, cmd, limits, report);
      RunSaid(p, l, cmd, report);
      RunCosts(p, l, p.spent);
      SinceBase(base, p.log);
      agent.ValidIsRecorded();
      return Done(report);
    }

    /** Runs the command of a stage that the agent reserves for itself. */
    method RunReserved(cmd: seq<string>) returns (r: Step<DeployReport>)
      requires Engaged() && Sane(limits)
      modifies agent, world, config, this, agent.envs.Values
      ensures agent.Recorded() && agent.Kept() && world.Consistent() && old(world.log) <= world.log
      ensures world.budget <= old(world.budget)
      ensures r.Done? && r.value.status == AbortedByServer ==> world.budget < old(world.budget)
      ensures r.Done? ==>
                && agent.Valid()
                && (r.value.status == AbortedByServer || Protocol.Ending(r.value.status))
                && agent.state.phase == (if r.value.status == AbortedByServer then Aborting(old(agent.state.phase.job))
                                         else old(agent.state.phase))
                && OnlyRuns(Since(|old(world.log)|), cmd) && Outcome(Since(|old(world.log)|), cmd, r.value)
      ensures TimeLimited(old(limits)) && Fixed(Since(|old(world.log)|), old(limits)) ==>
                && old(world.budget) - world.budget <= RunCost(old(limits)) + 3
                && (old(world.budget) > RunCost(old(limits)) + 3 ==> r.Done?)
    {
      hide World.Consistent;
      hide DeployAgent.Valid;
      hide DeployAgent.Recorded;
      hide Outcome;
      hide SteadyOutcome;
      hide RunCost;
      hide Fixed;
      hide OnlyRuns;
      hide TimeLimited;
      r := RunCmd(cmd);
      if r.Done? {
        OutcomeEnds(Since(|old(world.log)|), cmd, r.value);
      }
    }

    /** Looks for the script of a stage; what is missing may already decide the outcome. */
    method FindScript() returns (r: Step<Option<DeployReport>>)
      requires world.Consistent()
      modifies world`budget, world`log
      ensures world.Consistent()
      ensures old(world.log) <= world.log && 0 <= old(world.budget) - world.budget <= 3
      ensures r.Crashed? ==> world.budget == 0 && old(world.budget) < 3
      ensures r.Done? ==> Looked(Since(|old(world.log)|), Lookup(config.environ, map[], "DEPLOY_STEP"), r.value)
    {
      var deployStep := Lookup(config.environ, map[], "DEPLOY_STEP");
      var text := world.Output();
      ghost var base := world.log;
      var directoryExists :- world.Probe();
      ghost var looks := [Last(world.log)];
      SinceBase(base, looks);
      if !directoryExists {
        if deployStep.Some? && deployStep.value in PRE_STAGE_STEPS {
          return Done(Some(DeployReport(Succeeded, 0, None, 0)));
        }
        return Done(Some(DeployReport(AgentFailed, 1, text, 1)));
      }
      var scriptExists :- world.Probe();
      looks := looks + [Last(world.log)];
      SinceBase(base, looks);
      if !scriptExists {
        if deployStep == Some("RESTARTING") {
          return Done(Some(DeployReport(AgentFailed, 1, text, 1)));
        }
        return Done(Some(DeployReport(Succeeded, 0, None, 0)));
      }
      var executable :- world.Probe();
      looks := looks + [Last(world.log)];
      SinceBase(base, looks);
      if !executable {
        return Done(Some(DeployReport(AgentFailed, 1, text, 0)));
      }
      return Done(None);
    }

    /** Runs the script of a stage, if there is one. */
    method ExecuteCommand(stage: DeployStage) returns (r: Step<DeployReport>)
      requires Engaged() && Sane(limits)
      modifies agent, world, config, this, agent.envs.Values
      ensures agent.Recorded() && agent.Kept() && world.Consistent() && old(world.log) <= world.log
      ensures world.budget <= old(world.budget)
      ensures r.Done? && r.value.status == AbortedByServer ==> world.budget < old(world.budget)
      ensures r.Done? ==>
                && agent.Valid()
                && (r.value.status == AbortedByServer || Protocol.Ending(r.value.status))
                && agent.state.phase == (if r.value.status == AbortedByServer then Aborting(old(agent.state.phase.job))
                                         else old(agent.state.phase))
                && var cmd := Words(ScriptPath(old(config.ScriptDirectory()), stage));
                   && OnlyRuns(Since(|old(world.log)|), cmd)
                   && Executed(Since(|old(world.log)|), Lookup(old(config.environ), map[], "DEPLOY_STEP"), cmd, r.value)
      ensures TimeLimited(old(limits)) && Fixed(Since(|old(world.log)|), old(limits)) ==>
                && old(world.budget) - world.budget <= RunCost(old(limits)) + 3
                && (old(world.budget) > RunCost(old(limits)) + 3 ==> r.Done?)
    {
      hide World.Consistent;
      hide DeployAgent.Valid;
      hide DeployAgent.Recorded;
      hide Outcome;
      hide StageName;
      hide RunCost;
      hide Looked;
      hide Executed;
      hide Fixed;
      hide OnlyRuns;
      CostPositive(limits);
      agent.ValidIsRecorded();
      ghost var base, step := world.log, Lookup(config.environ, map[], "DEPLOY_STEP");
      var cmd := Words(ScriptPath(config.ScriptDirectory(), stage));
      var found :- FindScript();
      ghost var looks := world.log[|base|..];
      assert world.log == base + looks && Since(|base|) == looks;
      LookedMeans(looks, step, found, cmd);
      if found.Some? {
        return Done(found.value);
      }
      r := RunCmd(cmd);
      ghost var run := world.log[|base + looks|..];
      assert Since(|base|) == looks + run && Since(|base + looks|) == run;
      if Fixed(looks + run, old(limits)) {
        FixedParts(looks, run, old(limits));
      }
      if r.Done? {
        OutcomeEnds(run, cmd, r.value);
        OnlyRunsAfter(looks, run, cmd);
        RunExecutes(looks, run, step, cmd, r.value);
      }
    }
  }

  /** The agent: its environments, the current one, and the server's last answer. */
  class DeployAgent {
    const world: World
    const config: Config
    const client: Client
    const envStatus: EnvStatus
    var executor: Executor?
    var envs: Envs
    var currReport: DeployStatus?
    var response: Option<Response>

    ghost var state: State               // the agent as a state of the machine
    ghost var init: State                // the state serve_build started in
    ghost var trace: seq<Event>          // the steps taken since
    ghost var startLimits: Option<Limits> // the limits in force before the first of them
    ghost var works: Stretches   // the work on the goals concluded, by the step that concludes it
    ghost var startLog: nat              // the events on the world's log before the first of them
    ghost var startPings: nat            // the pings on the world's log before the first of them

    /** Starts from the status file, of which Python lists environment `first` first. */
    constructor (world: World, config: Config, first: string)
      requires Usable(config.limitsOf(map[])) && Usable(config.limitsOf(config.configs))
      requires CanLoad(world.disk, first, config.limitsOf)
      modifies config
      ensures this.world == world && this.config == config && executor == null
      ensures Valid() && trace == [] && init == state && FromDisk(init) && init.resp.None?
      ensures init.envs == EnvsOf(init.disk) && startLimits == config.limitsOf(config.configs)
      ensures config.configs == if state.curr.Some? then SettingsOf(state.envs[first]) else old(config.configs)
      ensures forall k :: k in envs ==> fresh(envs[k])
    {
      this.world := world;
      this.config := config;
      client := new Client(world, config);
      envStatus := new EnvStatus(world);
      executor, currReport, response, envs := null, null, None, map[];
      new;
      LoadStatusFile(first);
    }

    /** The executor, if there is one, is this agent's. */
    ghost predicate Equipped()
      reads this, executor
    {
      && client.world == world && client.config == config && envStatus.world == world
      && Usable(config.limitsOf(map[]))
      && (response.Some? ==> client.Installable(response.value))
      && (executor != null ==>
            && executor.agent == this && executor.world == world && executor.config == config
            && Sane(executor.limits))
    }

    /** The objects are as `state` says; `currReport` is the very object in the map. */
    ghost predicate Linked()
      reads this, world`disk, envs.Values
    {
      && Links(envs, currReport, state.envs, state.curr)
      && state.resp == response
      && state.disk == world.disk
    }

    /** Scripts and settings follow the current status. */
    ghost predicate Configured()
      reads this, config
    {
      Configures(config, state.envs, state.curr)
    }

    /** The limits in force: the executor's, once there is one. */
    ghost function Limiting(): Option<Limits>
      reads this, config, executor
    {
      if executor == null then config.limitsOf(config.configs) else Some(executor.limits)
    }

    /** Those that the steps have led to. */
    ghost predicate Tuned()
      reads this, config, executor
    {
      Legal(init, trace) && Limiting() == LimitsAfter(config.limitsOf, startLimits, init, trace)
    }

    /** If the limits have stayed, every ping has noted them. */
    ghost predicate Heeded()
      reads this, world`heard
    {
      && Legal(init, trace) && startPings <= |world.heard|
      && forall l, i :: LimitsStay(config.limitsOf, startLimits, init, trace, l) && startPings <= i < |world.heard| ==>
                          world.heard[i] == l
    }

    /** The agent has only taken steps of the machine. */
    ghost predicate Valid()
      reads this, world`disk, world`heard, envs.Values, config, executor
    {
      && Equipped() && Linked() && Configured()
      && Start(init) && Run(init, trace) == Some(state)
      && Tuned() && Heeded() && Restartable(config.limitsOf, init, state)
    }

    /**
     What remains true if the process stops: the steps taken were steps of the machine, the
     file is as they left it, and an agent can start from it.
     */
    ghost predicate Recorded()
      reads this, world`disk, world`heard
    {
      && Start(init) && Legal(init, trace) && After(init, trace).disk == world.disk
      && Heeded() && Restartable(config.limitsOf, init, After(init, trace))
    }

    lemma ValidIsRecorded()
      requires Valid()
      ensures Recorded()
    {
    }

    lemma CanReportNow(d: DeployReport)
      requires Valid() && state.phase.Working? && !Removes(state.phase.job) && d.status in {Unknown, ScriptFailed}
      ensures Enabled(state, Apply(d))
    {
      hide AllLoadable;
      hide EffectOf;
      hide InEffect;
      LoadableReports(state.envs, config.limitsOf);
      CanReport(state, d);
    }

    lemma ExecutorIsSane()
      requires Valid() && executor != null
      ensures Sane(executor.limits)
    {
    }

    /** The steps go on, and nothing but new objects joins the agent. */
    twostate predicate Onward()
      reads this
    {
      && init == old(init) && startLimits == old(startLimits) && startPings == old(startPings)
      && startLog == old(startLog)
      && executor == old(executor) && old(trace) <= trace
      && forall k :: k in envs ==> envs[k] in old(envs.Values) || fresh(envs[k])
    }

    /** So they do, and no goal is begun or returned from. */
    twostate predicate Kept()
      reads this
    {
      Onward() && Turns(trace) == Turns(old(trace)) && works == old(works)
    }

    /** Step `e` leads from state `was` to the present one. */
    ghost method Commit(was: State, e: Event)
      requires Equipped() && Linked() && Configured() && Start(init)
      requires Run(init, trace) == Some(was) && Enabled(was, e) && AllLoadable(was.envs, config.limitsOf)
      requires state.(phase := Next(was, e).phase) == Next(was, e)
      requires Heeded() && Restartable(config.limitsOf, init, was)
      requires Limiting() == Retuned(config.limitsOf, state, e, LimitsAfter(config.limitsOf, startLimits, init, trace))
      modifies this`trace, this`state
      ensures trace == old(trace) + [e]
      ensures state == Next(was, e) && Valid()
    {
      hide Links;
      hide Run;
      hide Start;
      hide AllLoadable;
      hide Client.Installable;
      hide Sane;
      hide AgentConfig.Usable;
      hide Shows;
      hide Distinct;
      hide EffectOf;
      hide InEffect;
      hide Next;
      hide Enabled;
      hide LimitsAfter;
      hide LimitsStay;
      hide Restartable;
      ExtendRun(init, trace, was, e);
      RetunedBy(config.limitsOf, startLimits, init, trace, e);
      StepRestarts(config.limitsOf, init, was, e);
      state := state.(phase := Next(was, e).phase);
      trace := trace + [e];
    }

    /** A ping has been noted. */
    ghost method Heed(result: PingStatus)
      requires Valid() && executor != null && world.Consistent()
      modifies world`log, world`heard
      ensures Valid() && world.Consistent()
      ensures world.log == old(world.log) + [Pinged(result, world.clock, executor.limits)]
    {
      hide Links;
      hide Run;
      hide Start;
      hide Configures;
      hide Client.Installable;
      hide Restartable;
      world.NotePing(result, executor.limits);
    }

    /** Forgets what is in memory and starts over from the status file, of which Python lists `first` first. */
    method LoadStatusFile(first: string)
      requires Equipped() && Usable(config.limitsOf(config.configs))
      requires CanLoad(world.disk, first, config.limitsOf)
      modifies this`envs, this`currReport, this`state, this`init, this`trace, this`startLimits, this`startPings, config
      ensures Valid() && trace == [] && init == state && FromDisk(init)
      ensures init.envs == EnvsOf(init.disk) && startLimits == Limiting() && startPings == |world.heard|
      ensures config.configs == if state.curr.Some? then SettingsOf(state.envs[first]) else old(config.configs)
      ensures response == old(response) && executor == old(executor)
      ensures forall k :: k in envs ==> fresh(envs[k])
    {
      hide AllLoadable;
      hide Presentable;
      hide EnvsOf;
      hide FromDisk;
      hide Start;
      hide AllReports;
      hide DeployAgent.Linked;
      hide DeployAgent.Configured;
      hide Client.Installable;
      hide Sane;
      envs := envStatus.LoadEnvs();
      ghost var vals := EnvsOf(world.disk);
      PickCurrent(vals, first);
      LoadableReports(vals, config.limitsOf);
      LoadedStarts(world.disk, state.curr, response);
      OpenAccount();
    }

    /** The account of a run begins. */
    ghost method OpenAccount()
      requires Equipped() && Linked() && Configured() && Start(state)
      requires AllLoadable(EnvsOf(state.disk), config.limitsOf)
      modifies this`init, this`trace, this`startLimits, this`startPings
      ensures Valid() && init == state && trace == [] && startLimits == Limiting() && startPings == |world.heard|
    {
      hide Links;
      hide Configures;
      hide Start;
      hide AllLoadable;
      hide AllPresentable;
      hide EnvsOf;
      hide Client.Installable;
      init, trace, startLimits, startPings := state, [], Limiting(), |world.heard|;
    }

    /** Makes the environment listed first current. */
    method PickCurrent(ghost vals: map<string, StatusValue>, first: string)
      requires Distinct(envs) && Shows(envs, vals) && AllLoadable(vals, config.limitsOf)
      requires vals != map[] ==> first in vals && Presentable(vals[first], config.limitsOf)
      requires Usable(config.limitsOf(config.configs))
      modifies this`currReport, this`state, config
      ensures Linked() && Configured()
      ensures state == State(vals, if vals == map[] then None else Some(first), response, world.disk, Boot)
      ensures config.configs == if vals == map[] then old(config.configs) else SettingsOf(vals[first])
    {
      hide Presentable;
      hide AllLoadable;
      hide EffectOf;
      hide InEffect;
      hide AgentConfig.Usable;
      hide SettingsOf;
      state := State(vals, None, response, world.disk, Boot);
      currReport := null;
      if envs != map[] {
        assert envs.Keys == vals.Keys && first in envs;
        PresentableMeans(vals[first], config.limitsOf);
        currReport := envs[first];
        state := state.(curr := Some(first));
        config.UpdateVariables(currReport.Value());
      }
    }

    /** Records a report in the current status, if there is one. */
    method RecordReport(d: DeployReport)
      requires Linked() && Configured() && Recordable(state)
      modifies this`state, currReport
      ensures Linked() && Configured() && state == Record(old(state), d)
    {
      hide EffectOf;
      hide AllLoadable;
      hide InEffect;
      hide Reported;
      RecordLoads(state, d, config.limitsOf);
      if currReport != null {
        currReport.UpdateByDeployReport(d);
      }
      state := Record(state, d);
    }

    method ApplyReport(d: DeployReport)
      requires Valid() && Enabled(state, Apply(d))
      modifies this`state, this`trace, currReport
      ensures Valid() && state == Next(old(state), Apply(d)) && trace == old(trace) + [Apply(d)]
    {
      hide Next;
      hide Enabled;
      hide Record;
      hide AllLoadable;
      hide EffectOf;
      hide InEffect;
      ghost var before := state;
      ApplyStep(before, d);
      RecordReport(d);
      Commit(before, Apply(d));
    }

    /** Writes the status file; if that fails, the current status becomes AGENT_FAILED. */
    method DumpStatus() returns (r: Step<()>)
      requires Valid() && Enabled(state, Dump(true))
      modifies this`state, this`trace, currReport, world`budget, world`disk
      ensures r.Crashed? ==> world.budget == old(world.budget) == 0 && Valid() && trace == old(trace)
      ensures r.Done? ==>
                && Valid()
                && old(world.budget) >= 1 && world.budget == old(world.budget) - 1
                && |trace| == |old(trace)| + 1 && trace == old(trace) + [trace[|trace| - 1]]
                && trace[|trace| - 1].Dump? && state == Next(old(state), trace[|trace| - 1])
    {
      hide Run;
      hide Start;
      hide CleanEnvs;
      hide Fatal;
      hide Shows;
      hide Restartable;
      hide LimitsAfter;
      hide LimitsStay;
      hide Client.Installable;
      hide Sane;
      hide AgentConfig.Usable;
      hide Distinct;
      hide Next;
      hide Enabled;
      hide Record;
      hide AllLoadable;
      hide EffectOf;
      hide InEffect;
      hide DiskOf;
      ghost var before := state;
      var ok :- envStatus.DumpEnvs(envs, state.envs);
      DumpStep(before, ok);
      if ok {
        state := state.(disk := world.disk);
      } else {
        RecordReport(DUMP_FAILED);
      }
      Commit(before, Dump(ok));
      return Done(());
    }

    method UpdatePingReports(d: DeployReport) returns (r: Step<()>)
      requires Valid() && Enabled(state, Apply(d))
      modifies this`state, this`trace, currReport, world`budget, world`disk
      ensures Recorded() && old(trace) <= trace && Turns(trace) == Turns(old(trace))
      ensures r.Crashed? ==> world.budget == old(world.budget) == 0
      ensures r.Done? ==>
                && Valid()
                && old(world.budget) >= 1 && world.budget == old(world.budget) - 1
                && |trace| == |old(trace)| + 2 && trace == old(trace) + [Apply(d)] + [trace[|trace| - 1]]
                && trace[|trace| - 1].Dump? && state == Next(Next(old(state), Apply(d)), trace[|trace| - 1])
    {
      hide Next;
      hide AllLoadable;
      hide EffectOf;
      hide InEffect;
      hide Enabled;
      hide Turns;
      ApplyStep(state, d);
      TurnsMore(trace, Apply(d));
      ApplyReport(d);
      ghost var applied := trace;
      var _ :- DumpStatus();
      TurnsMore(applied, trace[|trace| - 1]);
      return Done(());
    }

    /** Updates the status of the goal's environment, a new one if need be. */
    method UpdateEnv(r: Response)
      requires Distinct(envs) && Shows(envs, state.envs) && r.deployGoal.Some?
      modifies this`envs, envs.Values
      ensures Distinct(envs) && Shows(envs, Install(state, r).envs)
      ensures r.deployGoal.value.envName in envs
      ensures forall k :: k in envs ==> envs[k] in old(envs.Values) || fresh(envs[k])
    {
      hide Installed;
      var name := r.deployGoal.value.envName;
      if name !in envs {
        var status := new DeployStatus();
        envs := envs[name := status];
      }
      envs[name].UpdateByResponse(r);
    }

    /** Makes an environment the current one: scripts, settings and limits follow it. */
    method SwitchTo(name: string)
      requires Equipped() && executor != null
      requires Distinct(envs) && Shows(envs, state.envs) && state.resp == response && state.disk == world.disk
      requires name in envs && state.curr == Some(name) && AllLoadable(state.envs, config.limitsOf)
      requires Presentable(state.envs[name], config.limitsOf)
      modifies this`currReport, config, executor
      ensures Equipped() && Linked() && Configured()
      ensures Some(executor.limits) == config.limitsOf(SettingsOf(state.envs[name]))
    {
      hide EffectOf;
      hide InEffect;
      currReport := envs[name];
      config.UpdateVariables(currReport.Value());
      executor.UpdateConfigs();
    }

    /** Makes the answer's goal, if any, the current status. */
    method UpdateInternalDeployGoal(r: Response)
      requires Equipped() && Linked() && Configured() && executor != null && client.Installable(r)
      modifies this`envs, this`currReport, this`state, config, executor, envs.Values
      ensures Equipped() && Linked() && Configured() && state == Install(old(state), r)
      ensures r.deployGoal.None? ==> executor.limits == old(executor.limits)
      ensures r.deployGoal.Some? ==>
                && state.curr.Some? && state.curr.value in state.envs
                && Some(executor.limits) == config.limitsOf(SettingsOf(state.envs[state.curr.value]))
      ensures forall k :: k in envs ==> envs[k] in old(envs.Values) || fresh(envs[k])
    {
      hide Sane;
      hide Shows;
      hide Distinct;
      hide EffectOf;
      hide InEffect;
      hide Installed;
      hide AllLoadable;
      if r.deployGoal.None? {
        return;
      }
      InstallLoads(state, r, config.limitsOf);
      UpdateEnv(r);
      state := Install(state, r);
      SwitchTo(r.deployGoal.value.envName);
    }

    /** The statuses have been filtered; the answer becomes the last one and its goal, if any, the current status. */
    method TakeAnswer(answer: Option<Response>)
      requires Equipped() && executor != null && (answer.Some? ==> client.Installable(answer.value))
      requires Links(envs, currReport, CleanEnvs(state.envs), state.curr) && state.disk == world.disk
      requires Configures(config, CleanEnvs(state.envs), state.curr)
      modifies this`envs, this`currReport, this`state, this`response, config, executor, envs.Values
      ensures Equipped() && Linked() && Configured()
      ensures var sent := old(state).(envs := CleanEnvs(old(state).envs), resp := answer);
              state == if answer.Some? then Install(sent, answer.value) else sent
      ensures Limiting() == Retuned(config.limitsOf, state, Ping(answer), old(Limiting()))
      ensures forall k :: k in envs ==> envs[k] in old(envs.Values) || fresh(envs[k])
    {
      hide Retuned;
      hide EffectOf;
      hide AllLoadable;
      hide InEffect;
      hide Cleaned;
      hide Install;
      hide AgentConfig.Usable;
      hide Distinct;
      hide Shows;
      hide Client.Installable;
      hide Sane;
      ghost var m := Limiting();
      response := answer;
      state := state.(envs := CleanEnvs(state.envs), resp := answer);
      if answer.Some? {
        InstallAnswers(state, answer.value);
        UpdateInternalDeployGoal(answer.value);
      }
      RetunedByPing(config.limitsOf, state, answer, m);
    }

    lemma InstallAnswers(s: State, r: Response)
      ensures Install(s, r).resp == s.resp
    {
    }

    /** Sends the reports and installs the answer. */
    method PingServer() returns (r: Step<Option<Response>>)
      requires Valid() && executor != null && Enabled(state, Ping(None))
      modifies this`envs, this`currReport, this`state, this`trace, this`response
      modifies config, executor, world`budget, envs.Values
      ensures Recorded()
      ensures r.Crashed? ==> world.budget == old(world.budget) == 0 && trace == old(trace)
      ensures r.Done? ==>
                && Valid()
                && old(world.budget) >= 1 && world.budget == old(world.budget) - 1
                && trace == old(trace) + [Ping(r.value)] && state == Next(old(state), Ping(r.value))
      ensures forall k :: k in envs ==> envs[k] in old(envs.Values) || fresh(envs[k])
    {
      hide Restartable;
      hide Retuned;
      hide LimitsAfter;
      hide LimitsStay;
      hide Next;
      hide Enabled;
      hide EffectOf;
      hide AllLoadable;
      hide InEffect;
      hide Cleaned;
      hide Install;
      hide Run;
      hide Start;
      hide AgentConfig.Usable;
      hide Distinct;
      hide Shows;
      hide Client.Installable;
      hide Sane;
      ghost var before := state;
      CleanLoads(state, config.limitsOf);
      var answer :- client.SendReports(envs, state.envs);
      TakeAnswer(answer);
      PingStep(before, answer);
      Commit(before, Ping(answer));
      return Done(answer);
    }

    lemma CurrentIsListed()
      requires Valid()
      ensures currReport != null ==> currReport in envs.Values
    {
      hide Configures;
      hide Restartable;
      hide Run;
      hide Start;
      hide LimitsAfter;
      hide LimitsStay;
      if currReport != null {
        assert envs[state.curr.value] == currReport;
      }
    }

    /** Records a report, writes the file, pings the server and installs its answer. */
    method UpdateDeployStatus(d: DeployReport) returns (r: Step<PingStatus>)
      requires Valid() && executor != null && Enabled(state, Apply(d))
      modifies this, world`budget, world`disk, config, executor, envs.Values
      ensures Recorded() && Kept()
      ensures r.Crashed? ==> world.budget == 0 && old(world.budget) <= 1
      ensures r.Done? ==>
                && Valid()
                && old(world.budget) >= 2 && world.budget == old(world.budget) - 2
                && |trace| == |old(trace)| + 3
                && trace == old(trace) + [Apply(d)] + [trace[|trace| - 2]] + [Ping(response)]
                && trace[|trace| - 2].Dump?
                && (r.value == PingFailed <==> response.None?)
                && (if old(state).phase.Returned? then state.phase == (if Fatal(d.status) then Finished else Head)
                    else if r.value == PlanChanged then state.phase == Aborting(old(state).phase.job)
                    else state.phase == old(state).phase)
    {
      hide Links;
      hide DeployAgent.Tuned;
      hide DeployAgent.Heeded;
      hide LimitsAfter;
      hide LimitsStay;
      hide Fatal;
      hide Restartable;
      hide Next;
      hide Enabled;
      hide EffectOf;
      hide AllLoadable;
      hide InEffect;
      hide Install;
      hide Run;
      hide ChangedPlan;
      hide Shows;
      hide Equipped;
      hide Configured;
      hide Start;
      hide Turns;
      ghost var before := state;
      UpdateSteps(state, d, true, None);
      UpdateSteps(state, d, false, None);
      CurrentIsListed();
      var _ :- UpdatePingReports(d);
      ghost var ok, reported := trace[|trace| - 1].ok, trace;
      var previous := response;
      var answer :- PingServer();
      TurnsMore(reported, Ping(answer));
      UpdateSteps(before, d, ok, answer);
      if answer.None? {
        return Done(PingFailed);
      }
      var planChanged := ChangedPlan(previous, answer.value);
      return Done(if planChanged then PlanChanged else PlanNoChange);
    }

    /** The step that a script sees is the stage of the goal being worked on, unless a script variable hides it. */
    lemma StepIsStage()
      requires Valid() && state.phase.Working?
      ensures state.phase.job.deployGoal.Some? && state.curr.Some? && state.curr.value in state.envs
      ensures var v := state.envs[state.curr.value];
              !(NonEmpty(v.scriptVariables) && "DEPLOY_STEP" in v.scriptVariables.value) ==>
                Lookup(config.environ, map[], "DEPLOY_STEP")
                == Some(StageName(state.phase.job.deployGoal.value.deployStage))
    {
      InvAlways(init, trace);
    }

    /** Removes an environment for a DELETE or TERMINATE goal. */
    method RemoveEnv(job: Response)
      requires Valid() && state.phase == Working(job) && Removes(job) && job.deployGoal.Some?
      modifies this`envs, this`currReport, this`state, this`trace
      ensures Valid() && trace == old(trace) + [Return(job, REMOVED)] && state == Next(old(state), Return(job, REMOVED))
      ensures envs.Values <= old(envs.Values)
    {
      hide LimitsAfter;
      hide LimitsStay;
      hide Sane;
      hide Client.Installable;
      hide AgentConfig.Usable;
      hide Next;
      hide Enabled;
      hide Loadable;
      hide Restartable;
      hide EffectOf;
      hide InEffect;
      hide Run;
      hide Start;
      RunIsAfter(init, trace, state);
      RemovalFindsItsEnvironment(init, trace, job);
      RemoveStep(state, job);
      ghost var before := state;
      var name := job.deployGoal.value.envName;
      if name in envs {
        envs := envs - {name};
      } else {
        assert false;
      }
      if currReport.report.value.envName == Some(name) {
        currReport := null;
      }
      state := Next(before, Return(job, REMOVED)).(phase := state.phase);
      Commit(before, Return(job, REMOVED));
    }

    /** An exception is reported as AGENT_FAILED. */
    ghost function OutcomeOf(d: Option<DeployReport>): DeployReport {
      if d.Some? then d.value else DeployReport(AgentFailed, 1, None, 1)
    }

    /** Downloads a build: None stands for an exception (no build, no url, no build id). */
    function DownloadScript(goal: Goal, envName: Option<string>): Option<seq<string>> {
      if goal.build.None? || goal.build.value.artifactUrl.None? || goal.build.value.artifactUrl.value == "" then None
      else if goal.build.value.buildId.None? || envName.None? then None
      else Some(["deploy-downloader"] + (if config.filename.Some? then ["-f", config.filename.value] else [])
                + ["-v", goal.build.value.buildId.value, "-u", goal.build.value.artifactUrl.value, "-e", envName.value])
    }

    /** Stages the build that the current status remembers. */
    function StagingScript(v: StatusValue): Option<seq<string>>
      reads config
    {
      if v.buildInfo.None? || v.buildInfo.value.buildId.None? then None
      else if v.report.None? || v.report.value.envName.None? then None
      else if config.Target().None? then None
      else Some(["deploy-stager"] + (if config.filename.Some? then ["-f", config.filename.value] else [])
                + ["-v", v.buildInfo.value.buildId.value, "-t", config.Target().value]
                + ["-e", v.report.value.envName.value])
    }

    /** Whether `d` can end process_deploy in the agent's present state. */
    ghost predicate Ended(job: Response, d: DeployReport)
      reads this
    {
      if d.status == AbortedByServer then state.phase == Aborting(job)
      else state.phase == Working(job) && Protocol.Ending(d.status)
    }

    /** Where the agent works now. */
    ghost function PlaceNow(): Place
      reads this, config
    {
      var env := if state.curr.Some? then state.curr.value else "";
      Place(config.filename, config.ScriptDirectory(), config.Target(), env,
            NewestBuildId(init, trace, env), Lookup(config.environ, map[], "DEPLOY_STEP"))
    }

    /** The current status of a goal being worked on. */
    lemma CurrentStatus()
      requires Valid() && state.phase.Working?
      ensures state.curr.Some? && state.curr.value in envs && currReport == envs[state.curr.value]
      ensures state.curr.value in state.envs && currReport.Value() == state.envs[state.curr.value]
      ensures currReport.report.Some?
    {
      hide AllLoadable;
      hide EffectOf;
      hide InEffect;
      InvAlways(init, trace);
    }

    /** The build that is staged is that of the newest goal for the environment that carried one. */
    lemma StagesNewestBuild()
      requires Valid() && state.phase.Working?
      ensures state.curr.Some? && currReport != null
      ensures currReport.buildInfo == LastCarried(init, trace, state.curr.value, InstalledBuild, CarriedBuild)
    {
      hide LastCarried;
      hide AllLoadable;
      hide EffectOf;
      hide InEffect;
      CurrentStatus();
      HistoryRefined(init, trace, state.curr.value);
      assert currReport.Value().buildInfo == currReport.buildInfo;
    }

    /**
     Wherever the agent's process stops: the status file gives back the reports sent last
     or those about to be sent, and every outcome in memory is attributed to its goal.
     */
    lemma WhereverItStops(owner: string -> string)
      requires Recorded() && FromDisk(init)
      ensures DumpsSucceed(trace) ==>
                var reports := Reports(CleanEnvs(EnvsOf(world.disk))); var s := After(init, trace);
                LastSent(init, trace) == Some(reports) || (Enabled(s, Ping(None)) && Sent(s) == reports)
      ensures GoalGiven(trace) && AllOwned(trace, owner) ==> AllAttributed(init, trace)
      ensures init.envs == EnvsOf(init.disk) && AllPresentable(init.envs, config.limitsOf) ==>
                AllPresentable(EnvsOf(world.disk), config.limitsOf)
    {
      hide LastSent;
      hide AllAttributed;
      if DumpsSucceed(trace) {
        CrashRecovery(init, trace);
      }
      if GoalGiven(trace) && AllOwned(trace, owner) {
        OutcomesAttributed(init, trace, owner);
      }
    }

    /** The environment's build is the newest that was asked for. */
    lemma BuildIsNewest(env: string)
      requires Valid() && env in state.envs
      ensures NewestBuildId(init, trace, env) ==
              if state.envs[env].buildInfo.Some? then state.envs[env].buildInfo.value.buildId else None
    {
      hide Links;
      hide Configures;
      hide Restartable;
      hide LimitsAfter;
      hide LimitsStay;
      hide LastCarried;
      RunIsAfter(init, trace, state);
      RemembersLast(init, trace, LoadedBuildId, GoalBuildId);
      assert LoadedBuildId(After(init, trace).envs[env]) == LastCarried(init, trace, env, LoadedBuildId, GoalBuildId);
    }

    /** The current status is that of the current environment. */
    lemma CurrentName()
      requires Valid() && state.phase.Working?
      ensures state.curr.Some? && state.curr.value in state.envs
      ensures state.envs[state.curr.value].report.Some?
      ensures state.envs[state.curr.value].report.value.envName == state.curr
    {
      hide Links;
      hide Configures;
      hide Restartable;
      RunIsAfter(init, trace, state);
      InvAlways(init, trace);
    }

    /** What is asked for, from what the agent has at hand. */
    lemma CommandIs(job: Response)
      requires Valid() && state.phase == Working(job) && job.deployGoal.Some?
      ensures currReport != null && currReport.report.Some?
      ensures PlaceNow().step == Lookup(config.environ, map[], "DEPLOY_STEP")
      ensures var goal := job.deployGoal.value;
              Asked(PlaceNow(), goal) ==
              if goal.deployStage == Downloading then DownloadScript(goal, currReport.report.value.envName)
              else if goal.deployStage == Staging then StagingScript(currReport.Value())
              else Some(Words(ScriptPath(config.ScriptDirectory(), goal.deployStage)))
    {
      hide DeployAgent.Valid;
      hide NewestBuildId;
      hide Words;
      hide ScriptPath;
      CurrentStatus();
      CurrentName();
      BuildIsNewest(state.curr.value);
      var v, goal := state.envs[state.curr.value], job.deployGoal.value;
      assert currReport.report == v.report && currReport.Value() == v;
      if goal.deployStage == Downloading {
        DownloadIsAsked(PlaceNow(), goal);
      } else if goal.deployStage == Staging {
        StagingIsAsked(PlaceNow(), goal, v);
      }
    }

    lemma DownloadIsAsked(p: Place, goal: Goal)
      requires p.filename == config.filename && goal.deployStage == Downloading
      ensures DownloadScript(goal, Some(p.env)) == Asked(p, goal)
    {
      if goal.build.Some? && goal.build.value.artifactUrl.Some? && goal.build.value.buildId.Some? {
        var id, url := goal.build.value.buildId.value, goal.build.value.artifactUrl.value;
        var arguments := ["-v", id, "-u", url, "-e", p.env];
        assert ["deploy-downloader"] + [] + arguments == ["deploy-downloader"] + arguments;
        if p.filename.Some? {
          assert ["deploy-downloader"] + ["-f", p.filename.value] + arguments
                 == ["deploy-downloader", "-f", p.filename.value] + arguments;
        }
      }
    }

    lemma StagingIsAsked(p: Place, goal: Goal, v: StatusValue)
      requires p.filename == config.filename && p.target == config.Target() && goal.deployStage == Staging
      requires v.report.Some? && v.report.value.envName == Some(p.env)
      requires p.staged == if v.buildInfo.Some? then v.buildInfo.value.buildId else None
      ensures StagingScript(v) == Asked(p, goal)
    {
      if p.staged.Some? && p.target.Some? {
        var arguments := ["-v", p.staged.value, "-t", p.target.value, "-e", p.env];
        assert ["deploy-stager"] + [] + ["-v", p.staged.value, "-t", p.target.value] + ["-e", p.env]
               == ["deploy-stager"] + arguments;
        if p.filename.Some? {
          assert ["deploy-stager"] + ["-f", p.filename.value] + ["-v", p.staged.value, "-t", p.target.value]
                 + ["-e", p.env]
                 == ["deploy-stager", "-f", p.filename.value] + arguments;
        }
      }
    }

    /** Works on a goal that is not a removal. `None` stands for an exception. */
    method RunStage(job: Response) returns (r: Step<Option<DeployReport>>)
      requires Valid() && executor != null && state.phase == Working(job) && !Removes(job) && job.deployGoal.Some?
      requires executor.agent == this && executor.world == world && executor.config == config && Sane(executor.limits)
      requires world.Consistent()
      modifies this, world, config, executor, envs.Values
      ensures Recorded() && Kept() && old(world.log) <= world.log && world.Consistent()
      ensures world.budget <= old(world.budget)
      ensures r.Done? ==> Valid()
      ensures r.Done? && r.value.None? ==> state == old(state) && Asked(old(PlaceNow()), job.deployGoal.value).None?
      ensures r.Done? && r.value.Some? ==>
                && Ended(job, r.value.value)
                && (r.value.value.status == AbortedByServer ==> world.budget < old(world.budget))
      // The command that the goal asks for was run, and nothing else, and decides; or there is none.
      ensures r.Done? ==>
                Decided(old(PlaceNow()), job.deployGoal.value, world.log[|old(world.log)|..], OutcomeOf(r.value))
      ensures var l := old(executor.limits);
              TimeLimited(l) && Fixed(world.log[|old(world.log)|..], l) ==>
                && old(world.budget) - world.budget <= RunCost(l) + 3
                && (old(world.budget) > RunCost(l) + 3 ==> r.Done?)
    {
      hide World.Consistent;
      hide DeployAgent.DownloadScript;
      hide DeployAgent.StagingScript;
      hide AllLoadable;
      hide Removes;
      hide InForce;
      hide Usable;
      hide Fixed;
      hide OnlyRuns;
      hide TimeLimited;
      hide Executed;
      hide Sane;
      hide Words;
      hide StageName;
      hide RunCost;
      hide DeployAgent.Valid;
      hide DeployAgent.Recorded;
      hide DeployAgent.PlaceNow;
      hide Asked;
      hide ScriptPath;
      hide InEffect;
      hide Outcome;
      hide SteadyOutcome;
      CostPositive(executor.limits);
      CommandIs(job);
      ValidIsRecorded();
      var goal := job.deployGoal.value;
      var done: Step<DeployReport>;
      if goal.deployStage == Downloading || goal.deployStage == Staging {
        var cmd := if goal.deployStage == Downloading then DownloadScript(goal, currReport.report.value.envName)
                   else StagingScript(currReport.Value());
        if cmd.None? {
          return Done(None);
        }
        done := executor.RunReserved(cmd.value);
      } else {
        done := executor.ExecuteCommand(goal.deployStage);
      }
      var d :- done;
      return Done(Some(d));
    }

    /** Does what the server asks for. `None` stands for an exception. */
    method ProcessDeploy(job: Response) returns (r: Step<Option<DeployReport>>)
      requires Valid() && executor != null && state.phase == Working(job) && job.deployGoal.Some?
      requires world.Consistent()
      modifies this, world, config, executor, envs.Values
      ensures Recorded() && Onward() && (!Removes(job) ==> Kept())
      ensures old(world.log) <= world.log && world.Consistent() && works == old(works)
      ensures r.Crashed? ==> !Removes(job)
      ensures world.budget <= old(world.budget)
      ensures r.Done? ==> Valid()
      ensures r.Done? && Removes(job) ==>
                && r.value == Some(REMOVED) && state.phase == Returned(job, REMOVED)
                && job.deployGoal.value.envName !in envs
                && state.envs == old(state).envs - {job.deployGoal.value.envName}
      ensures r.Done? && !Removes(job) && r.value.None? ==>
                state == old(state) && Asked(old(PlaceNow()), job.deployGoal.value).None?
      ensures r.Done? && !Removes(job) ==>
                && Ended(job, OutcomeOf(r.value))
                && (OutcomeOf(r.value).status == AbortedByServer ==> world.budget < old(world.budget))
      ensures r.Done? && !Removes(job) ==>
                Decided(old(PlaceNow()), job.deployGoal.value, world.log[|old(world.log)|..], OutcomeOf(r.value))
      ensures r.Done? && Removes(job) ==> trace == old(trace) + [Return(job, REMOVED)]
      ensures var l := old(executor.limits);
              TimeLimited(l) && Fixed(world.log[|old(world.log)|..], l) ==>
                && old(world.budget) - world.budget <= RunCost(l) + 3
                && (old(world.budget) > RunCost(l) + 3 ==> r.Done?)
    {
      hide Decided;
      hide Asked;
      hide Turns;
      hide DeployAgent.PlaceNow;
      hide World.Consistent;
      hide RunCost;
      hide AgentConfig.Usable;
      ExecutorIsSane();
      CostPositive(executor.limits);
      hide DeployAgent.Recorded;
      hide AllLoadable;
      hide EffectOf;
      hide InEffect;
      hide Run;
      hide Start;
      hide Next;
      if job.opCode == Some(Terminate) || job.opCode == Some(Delete) {
        RunIsAfter(init, trace, state);
        RemovalFindsItsEnvironment(init, trace, job);
        RemoveStep(state, job);
        RemoveEnv(job);
        ValidIsRecorded();
        return Done(Some(REMOVED));
      }
      r := RunStage(job);
    }

    /** After process_deploy has returned, what it returned can be recorded. */
    lemma ReturnedCanReport()
      requires Valid() && state.phase.Returned?
      ensures Enabled(state, Apply(state.phase.d))
    {
      hide AllLoadable;
      hide EffectOf;
      hide InEffect;
      LoadableReports(state.envs, config.limitsOf);
    }

    /** One step that changes nothing but the phase. */
    ghost method Mark(e: Event)
      requires Valid() && Enabled(state, e)
      requires (e.Begin? || e.Return?) && state.(phase := Next(state, e).phase) == Next(state, e)
      modifies this`trace, this`state
      ensures trace == old(trace) + [e]
      ensures state == Next(old(state), e) && Valid()
    {
      hide AllLoadable;
      hide EffectOf;
      hide InEffect;
      hide Next;
      hide Enabled;
      Commit(state, e);
    }

    /** What can happen at the head of the loop. */
    lemma HeadCan(job: Response)
      requires Valid() && state.phase.Head? && response == Some(job) && Active(job)
      ensures job.deployGoal.Some? ==>
                Enabled(state, Begin(job)) && Next(state, Begin(job)) == state.(phase := Working(job))
      ensures job.deployGoal.None? ==>
                && Enabled(state, Return(job, NOTHING_TO_DO))
                && Next(state, Return(job, NOTHING_TO_DO)) == state.(phase := Returned(job, NOTHING_TO_DO))
    {
      hide AllLoadable;
      hide EffectOf;
      hide InEffect;
    }

    /** How work on a goal that is not a removal can end. */
    lemma WorkingCan(job: Response, d: DeployReport)
      requires Ended(job, d) && !Removes(job) && job.deployGoal.Some?
      ensures Enabled(state, Return(job, d))
      ensures Next(state, Return(job, d)) ==
              state.(phase := if d.status == AbortedByServer then Head else Returned(job, d))
    {
    }

    /** One step that concludes a goal, with the work that was done on it. */
    ghost method Conclude(e: Event, w: Stretch)
      requires Valid() && Enabled(state, e)
      requires e.Return? && state.(phase := Next(state, e).phase) == Next(state, e)
      modifies this`trace, this`state, this`works
      ensures trace == old(trace) + [e] && works == old(works)[|old(trace)| := w]
      ensures state == Next(old(state), e) && Valid()
    {
      hide Links;
      hide EffectOf;
      hide InEffect;
      hide AllLoadable;
      hide Restartable;
      hide LimitsAfter;
      hide LimitsStay;
      hide Run;
      hide Start;
      hide Next;
      hide Enabled;
      works := works[|trace| := w];
      Commit(state, e);
    }

    /** Every goal concluded in this run was worked on. */
    ghost predicate Accounted()
      reads this, world`log
    {
      Worked(config.reader, config.filename, init, trace, startLog, world.log, works)
    }

    /** There is no goal to work on. */
    ghost method ReturnNothing(job: Response)
      requires Valid() && state.phase.Head? && response == Some(job) && Active(job) && job.deployGoal.None?
      requires Accounted()
      modifies this`trace, this`state
      ensures Valid() && Recorded() && Accounted() && state == old(state).(phase := Returned(job, NOTHING_TO_DO))
      ensures old(trace) <= trace && Rounds(trace) > Rounds(old(trace))
    {
      hide DeployAgent.Valid;
      hide DeployAgent.Recorded;
      hide Worked;
      hide Rounds;
      hide Enabled;
      hide Next;
      ghost var t := trace;
      HeadCan(job);
      Mark(Return(job, NOTHING_TO_DO));
      RoundAdds(t, Return(job, NOTHING_TO_DO));
      NoMoreWork(t, world.log);
      ValidIsRecorded();
    }

    /** A goal is taken up, in its own environment. */
    ghost method TakeUp(job: Response)
      requires Valid() && state.phase.Head? && response == Some(job) && Active(job) && job.deployGoal.Some?
      modifies this`trace, this`state
      ensures Valid() && trace == old(trace) + [Begin(job)] && state == old(state).(phase := Working(job))
      ensures Rounds(trace) > Rounds(old(trace))
      ensures PlaceIs(config.reader, config.filename, init, trace, job.deployGoal.value, PlaceNow())
    {
      hide DeployAgent.Valid;
      hide PlaceIs;
      hide DeployAgent.PlaceNow;
      hide Rounds;
      hide Enabled;
      hide Next;
      ghost var t := trace;
      HeadCan(job);
      Mark(Begin(job));
      RoundAdds(t, Begin(job));
      BeginsThere(t, job);
    }

    /** A goal begun with step `|t|`, on which the work since the log was `log` was done, is returned from. */
    ghost method SettleWork(job: Response, d: DeployReport, done: Option<DeployReport>,
                            t: seq<Event>, log: Log, place: Place)
      requires Valid() && Ended(job, OutcomeOf(done)) && !Removes(job) && job.deployGoal.Some?
      requires Worked(config.reader, config.filename, init, t, startLog, log, works)
      requires t + [Begin(job)] <= trace && log <= world.log && Turns(trace) == Turns(t + [Begin(job)])
      requires PlaceIs(config.reader, config.filename, init, t + [Begin(job)], job.deployGoal.value, place)
      requires Decided(place, job.deployGoal.value, world.log[|log|..], OutcomeOf(done))
      requires if done.Some? then d == done.value
               else Broken(d, 1) && Asked(place, job.deployGoal.value).None?
      modifies this`trace, this`state, this`works
      ensures Valid() && Accounted() && trace == old(trace) + [Return(job, d)]
      ensures state == old(state).(phase := if d.status == AbortedByServer then Head else Returned(job, d))
    {
      hide DeployAgent.Valid;
      hide Worked;
      hide Turns;
      hide PlaceIs;
      hide Decided;
      hide Asked;
      hide Enabled;
      hide Next;
      ghost var u, ws := trace, works;
      WorkingCan(job, d);
      Conclude(Return(job, d), Stretch(|t|, |log|, |world.log|, place));
      SameDecided(place, job.deployGoal.value, world.log[|log|..], OutcomeOf(done), d);
      WorkedMore(config.reader, config.filename, init, t, startLog, log, ws, u, world.log, job, d, place);
    }

    /** No goal has been concluded yet. */
    ghost method BeginWork()
      requires Valid() && trace == []
      modifies this`works, this`startLog
      ensures Valid() && Accounted() && startLog == |world.log|
    {
      hide Links;
      hide Configures;
      hide AllLoadable;
      hide Restartable;
      hide LimitsAfter;
      hide LimitsStay;
      hide Run;
      hide Start;
      works, startLog := map[], |world.log|;
    }

    /** Nothing was concluded since the steps were `t` and the log was `log`. */
    lemma NoMoreWork(t: seq<Event>, log: Log)
      requires Worked(config.reader, config.filename, init, t, startLog, log, works) && t <= trace && log <= world.log
      requires forall k :: |t| <= k < |trace| ==> !Concludes(trace[k])
      ensures Accounted()
    {
      WorkedOn(config.reader, config.filename, init, t, startLog, log, works, trace, world.log);
    }

    /** A goal that was just begun is worked on in its own environment. */
    lemma BeginsThere(t: seq<Event>, job: Response)
      requires Valid() && trace == t + [Begin(job)] && job.deployGoal.Some?
      ensures PlaceIs(config.reader, config.filename, init, trace, job.deployGoal.value, PlaceNow())
    {
      hide Restartable;
      hide LimitsAfter;
      hide LimitsStay;
      hide NewestBuildId;
      hide AllLoadable;
      RunIsAfter(init, trace, state);
      LoopHead(init, trace, |t|);
      StepOf(init, trace, |t|);
      assert trace[..|t| + 1] == trace;
      assert TargetIs(config.configs, config.reader, NameSeen(state.envs[state.curr.value]), config.Target()) by {
        var directory := TextSetting(config.configs, config.reader, "target_default_dir", "/usr/local/jetty/webapps");
        assert SettingIs(config.configs, config.reader, "target_default_dir", "/usr/local/jetty/webapps", directory);
        if "ENV_NAME" in config.environ {
          assert InDirectory(directory, config.environ["ENV_NAME"] + ".war",
                             PathJoin(directory, config.environ["ENV_NAME"] + ".war"));
        }
      }
    }

    lemma SameDecided(p: Place, g: Goal, log: Log, d: DeployReport, e: DeployReport)
      requires Decided(p, g, log, d) && (e == d || (Asked(p, g).None? && Broken(e, 1)))
      ensures Decided(p, g, log, e)
    {
    }

    /** The goal of an answer is worked on, if it has one. `None` means that the server replaced it meanwhile. */
    method WorkOn(job: Response) returns (r: Step<Option<DeployReport>>)
      requires Valid() && executor != null && state.phase.Head? && response == Some(job) && Active(job)
      requires Accounted() && world.Consistent()
      modifies this, world, config, executor, envs.Values
      ensures Recorded() && Onward() && Accounted() && old(world.log) <= world.log && world.Consistent()
      ensures world.budget <= old(world.budget)
      ensures Rounds(trace) > Rounds(old(trace))
      ensures r.Done? ==> Valid() && if r.value.None? then state.phase.Head? && world.budget < old(world.budget)
                                     else state.phase == Returned(job, r.value.value)
      ensures var l := old(executor.limits);
              TimeLimited(l) && Fixed(world.log[|old(world.log)|..], l) ==>
                && old(world.budget) - world.budget <= RunCost(l) + 3
                && (old(world.budget) > RunCost(l) + 3 ==> r.Done?)
    {
      hide DeployAgent.Ended;
      hide Asked;
      hide Run;
      hide Legal;
      hide Start;
      hide World.Consistent;
      hide RunCost;
      hide Next;
      hide Enabled;
      hide DeployAgent.Valid;
      hide DeployAgent.Recorded;
      hide AgentConfig.Usable;
      hide Rounds;
      hide Round;
      hide Sane;
      hide TimeLimited;
      hide Fixed;
      hide Worked;
      hide Turns;
      hide Decided;
      hide PlaceIs;
      hide DeployAgent.PlaceNow;
      ExecutorIsSane();
      CostPositive(executor.limits);
      ValidIsRecorded();
      ghost var t, log := trace, world.log;
      if job.deployGoal.None? {
        ReturnNothing(job);
        return Done(Some(NOTHING_TO_DO));
      }
      TakeUp(job);
      ghost var begun, place := trace, PlaceNow();
      var done := ProcessDeploy(job);
      RoundsGrow(begun, trace);
      if done.Crashed? {
        NoTurns(begun, trace);
        NoMoreWork(t, log);
        return Crashed;
      }
      if job.opCode == Some(Terminate) || job.opCode == Some(Delete) {
        NoMoreWork(t, log);
        return Done(done.value);
      }
      var d: DeployReport;
      if done.value.Some? {
        d := done.value.value;
      } else {
        var text := world.Output();
        d := DeployReport(AgentFailed, 1, text, 1);
      }
      ghost var u := trace;
      SettleWork(job, d, done.value, t, log, place);
      RoundsGrow(u, trace);
      ValidIsRecorded();
      return Done(if d.status == AbortedByServer then None else Some(d));
    }

    /** One round of the serving loop. Says whether the loop goes on. */
    method ServeRound() returns (r: Step<bool>)
      requires Valid() && executor != null && state.phase.Head? && response.Some? && Active(response.value)
      requires Accounted() && world.Consistent()
      modifies this, world, config, executor, envs.Values
      ensures Recorded() && Onward() && Accounted() && old(world.log) <= world.log && world.Consistent()
      ensures world.budget <= old(world.budget) && Rounds(trace) > Rounds(old(trace))
      ensures r.Done? ==>
                && Valid() && world.budget < old(world.budget)
                && if r.value then state.phase.Head? else state.phase.Finished?
      ensures var l := old(executor.limits);
              TimeLimited(l) && Fixed(world.log[|old(world.log)|..], l) ==>
                && old(world.budget) - world.budget <= RoundCost(l)
                && (old(world.budget) > RoundCost(l) ==> r.Done?)
    {
      hide World.Consistent;
      hide RunCost;
      hide Enabled;
      hide DeployAgent.Valid;
      hide DeployAgent.Recorded;
      var worked :- WorkOn(response.value);
      if worked.None? {
        return Done(true);
      }
      ReturnedCanReport();
      ghost var t := trace;
      var updated := UpdateDeployStatus(worked.value);
      RoundsGrow(t, trace);
      NoTurns(t, trace);
      NoMoreWork(t, world.log);
      if updated.Crashed? {
        return Crashed;
      }
      return Done(worked.value.status !in {AgentFailed, TooManyRetry, ScriptTimeout});
    }

    /** What a round may use if the limits stay `l`: they were in force before it, and every ping in it notes them. */
    lemma RoundIsFixed(l: Limits, t: seq<Event>, base: Log, more: Log, m: Limits)
      requires Recorded() && world.Consistent() && world.log == base + more && startPings <= |Heard(base)|
      requires t <= trace && Legal(init, t) && LimitsAfter(config.limitsOf, startLimits, init, t) == Some(m)
      ensures LimitsStay(config.limitsOf, startLimits, init, trace, l) ==> m == l && Fixed(more, l)
    {
      hide Run;
      hide Start;
      hide Restartable;
      if LimitsStay(config.limitsOf, startLimits, init, trace, l) {
        StayOn(config.limitsOf, startLimits, init, t, trace, l);
        HeardIsFixed(base, more, l);
      }
    }

    /** A round, with its account: what the rounds so far have cost. */
    method ServePaid(ghost l: Limits, ghost total: int) returns (r: Step<bool>)
      requires Valid() && executor != null && state.phase.Head? && response.Some? && Active(response.value)
      requires Accounted() && world.Consistent() && world.budget <= total
      requires Paid(config.limitsOf, startLimits, init, trace, l, total - world.budget)
      modifies this, world, config, executor, envs.Values
      ensures Recorded() && Onward() && Accounted() && old(world.log) <= world.log
      ensures world.Consistent() && world.budget <= total
      ensures r.Done? ==>
                && Valid() && world.budget < old(world.budget)
                && if r.value then state.phase.Head? else state.phase.Finished?
      ensures Paid(config.limitsOf, startLimits, init, trace, l, if r.Done? then total - world.budget else total)
    {
      hide World.Consistent;
      hide RunCost;
      hide RoundCost;
      hide DeployAgent.Valid;
      hide DeployAgent.Recorded;
      hide Paid;
      hide Rounds;
      hide LimitsStay;
      hide Fixed;
      ghost var t, spent, m, base := trace, total - world.budget, executor.limits, world.log;
      ValidIsTuned();
      r := ServeRound();
      ghost var used := if r.Crashed? then old(world.budget) else old(world.budget) - world.budget;
      assert world.log == base + world.log[|base|..];
      RecordedIsLegal();
      RoundIsFixed(l, t, base, world.log[|base|..], m);
      PaidMore(config.limitsOf, startLimits, init, t, trace, l, spent, used);
    }

    lemma ValidIsTuned()
      requires Valid() && executor != null && world.Consistent()
      ensures Legal(init, trace) && LimitsAfter(config.limitsOf, startLimits, init, trace) == Some(executor.limits)
      ensures startPings <= |Heard(world.log)|
    {
    }

    /** The builds that the environments refer to. */
    ghost function ReferredTo(vals: map<string, StatusValue>): set<string> {
      set k | k in vals && vals[k].buildInfo.Some? && vals[k].buildInfo.value.buildId.Some?
      :: vals[k].buildInfo.value.buildId.value
    }

    /** Stale builds are looked for only if there is a current status and some environment has a build. */
    ghost predicate LooksForStale(s: State) {
      s.curr.Some? && exists k :: k in s.envs && s.envs[k].buildInfo.Some?
    }

    /** Of the builds `listed`, exactly the stale ones to which no environment refers are gone from `left`. */
    ghost predicate Cleans(s: State, listed: seq<Local>, left: seq<Local>, retain: Option<int>) {
      if LooksForStale(s) then
        && retain.Some?
        && forall b :: b in left <==>
                         b in listed && (b.name in ReferredTo(s.envs) || b !in Oldest(listed, retain.value))
      else left == listed
    }

    /**
     Removes the oldest builds beyond the number to retain, except those that environments
     refer to. False stands for an exception: the number to retain is none.
     */
    method CleanStaleBuilds() returns (ok: bool)
      requires Valid() && DistinctNames(world.builds)
      modifies world`builds
      ensures Valid() && DistinctNames(world.builds)
      ensures ok <==> state.curr.None? || config.Retain().Some?
      ensures !ok ==> world.builds == old(world.builds)
      ensures ok ==> Cleans(state, old(world.builds), world.builds, config.Retain())
    {
      hide AllLoadable;
      hide EffectOf;
      hide InEffect;
      hide DistinctNames;
      hide Oldest;
      hide Run;
      hide Start;
      LoadableReports(state.envs, config.limitsOf);
      if envs == map[] || currReport == null || currReport.report.None? {
        return true;
      }
      var toKeep := set k | k in envs && envs[k].buildInfo.Some? :: envs[k].buildInfo.value.buildId;
      var retain := config.Retain();
      if retain.None? {
        return false;
      }
      var names := set k | k in envs && envs[k].buildInfo.Some? && envs[k].buildInfo.value.buildId.Some?
                   :: envs[k].buildInfo.value.buildId.value;
      assert names == ReferredTo(state.envs);
      assert toKeep != {} <==> LooksForStale(state) by {
        if k :| k in envs && envs[k].buildInfo.Some? {
          assert envs[k].buildInfo.value.buildId in toKeep;
        }
      }
      if toKeep != {} {
        var left := CleanStaleFiles(world.builds, names, retain.value);
        world.builds := left;
      }
      return true;
    }

    /** The scripts may have left anything in the directory of the builds. */
    method LookAtBuilds()
      modifies world`builds
      ensures DistinctNames(world.builds)
    {
      world.builds := *;
      if !DistinctNames(world.builds) {
        world.builds := [];
      }
    }

    /**
     The loop is over: stale builds are removed, and the goal of the last answer is
     installed. False stands for an exception before that.
     */
    method Finish() returns (ok: bool, ghost listed: seq<Local>)
      requires Valid() && executor != null && Enabled(state, Leave)
      modifies this`envs, this`currReport, this`state, this`trace, config, executor, world`builds, envs.Values
      ensures Valid()
      ensures ok <==> old(state).curr.None? || old(config.Retain()).Some?
      ensures !ok ==>
                state == old(state) && trace == old(trace) && world.builds == listed && config.Retain().None?
      ensures ok ==> state == Next(old(state), Leave) && trace == old(trace) + [Leave]
      ensures ok ==> Cleans(old(state), listed, world.builds, old(config.Retain()))
      ensures forall k :: k in envs ==> envs[k] in old(envs.Values) || fresh(envs[k])
      ensures DistinctNames(world.builds) && DistinctNames(listed)
    {
      hide Retuned;
      hide Next;
      hide Enabled;
      hide Shows;
      hide Distinct;
      hide Client.Installable;
      hide Sane;
      hide CleanEnvs;
      hide Restartable;
      hide LimitsAfter;
      hide LimitsStay;
      hide AllLoadable;
      hide EffectOf;
      hide InEffect;
      hide DistinctNames;
      hide Installed;
      hide Run;
      hide Start;
      hide Oldest;
      hide DeployAgent.Cleans;
      LookAtBuilds();
      listed := world.builds;
      ok := CleanStaleBuilds();
      if !ok {
        return;
      }
      ghost var before := state;
      if response.Some? && response.value.deployGoal.Some? {
        UpdateInternalDeployGoal(response.value);
      }
      RetunedByLeave(config.limitsOf, before, state, LimitsAfter(config.limitsOf, startLimits, init, trace));
      Commit(before, Leave);
    }

    method GetExecutor()
      requires Valid()
      modifies this`executor
      ensures Valid() && executor != null
      ensures old(executor) != null ==> executor == old(executor)
      ensures old(executor) == null ==> fresh(executor)
    {
      hide AllLoadable;
      hide EffectOf;
      hide InEffect;
      hide Run;
      hide Start;
      if executor == null {
        executor := new Executor(this, world, config);
      }
    }

    lemma BootCan()
      requires state.phase.Boot?
      ensures Enabled(state, Ping(None)) && forall answer :: Next(state, Ping(answer)).phase.Head?
    {
    }

    lemma LeaveCan()
      requires Valid() && state.phase.Head? && !(response.Some? && Active(response.value))
      ensures Enabled(state, Leave) && Next(state, Leave).phase.Finished?
    {
      hide Links;
      hide Configures;
      hide Restartable;
      hide Run;
      hide Start;
    }

    /** What a run that did not end says of the budget it had. */
    lemma NotEnough(l: Limits, env: string, total: int)
      requires Recorded() && Paid(config.limitsOf, startLimits, init, trace, l, total)
      ensures LimitsStay(config.limitsOf, startLimits, init, trace, l) && TimeLimited(l) ==>
                && total <= 1 + Rounds(trace) * RoundCost(l)
                && (ServerObeys(init, trace, env) ==>
                      total <= 1 + (ALL_STAGES + Progress.Failures(trace)) * RoundCost(l))
    {
      hide LimitsStay;
      hide ServerObeys;
      hide Restartable;
      hide TimeLimited;
      hide Rounds;
      hide RoundCost;
      hide Progress.Failures;
      hide Run;
      hide Start;
      if ServerObeys(init, trace, env) {
        RoundsBounded(init, trace, env);
        FewerCost(Rounds(trace), ALL_STAGES + Progress.Failures(trace), l);
      }
    }

    /** The start of serving: an executor, and a ping. */
    method FirstPing(ghost l: Limits) returns (r: Step<()>)
      requires Valid() && state.phase.Boot? && trace == [] && world.Consistent()
      modifies this, world`budget, config, executor, envs.Values
      ensures Recorded() && init == old(init) && startLimits == old(startLimits) && world.Consistent()
      ensures Accounted() && startLog == |world.log| && world.budget <= old(world.budget)
      ensures executor == old(executor) || fresh(executor)
      ensures forall k :: k in envs ==> envs[k] in old(envs.Values) || fresh(envs[k])
      ensures r.Done? ==> Valid() && executor != null && state.phase.Head?
      ensures r.Crashed? ==> world.budget == 0
      ensures Legal(init, trace) && Paid(config.limitsOf, startLimits, init, trace, l, old(world.budget) - world.budget)
    {
      hide World.Consistent;
      hide RunCost;
      hide RoundCost;
      hide Enabled;
      hide Next;
      hide DeployAgent.Valid;
      hide DeployAgent.Recorded;
      hide LimitsStay;
      hide Paid;
      hide Rounds;
      hide Legal;
      hide Worked;
      BeginWork();
      ValidIsRecorded();
      GetExecutor();
      ValidIsRecorded();
      BootCan();
      ghost var t := trace;
      var answer := PingServer();
      NoMoreWork(t, world.log);
      RecordedIsLegal();
      PaidFirst(config.limitsOf, startLimits, init, trace, l, old(world.budget) - world.budget);
      return if answer.Done? then Done(()) else Crashed;
    }

    /**
     Serves goals until the server has none left or a goal fails. Every step, of it and of
     what it calls, is one of the machine's; so whatever Protocol, Coherence, Attribution,
     WriteAhead, History and Progress prove of runs holds of `init` and `trace`.
     */
    method ServeBuild(ghost l: Limits, ghost env: string) returns (r: Step<()>)
      requires Valid() && state.phase.Boot? && trace == [] && world.Consistent()
      modifies this, world, config, executor, envs.Values
      ensures Recorded() && init == old(init) && startLimits == old(startLimits) && old(world.log) <= world.log
      // Every goal that was concluded was worked on: its own part of the log has its command, which decided.
      ensures Accounted() && startLog == |old(world.log)|
      // It ends because there is nothing to do or a goal failed, or at the exception for an unreadable
      // number of builds to retain.
      ensures r.Done? ==> Valid() && (state.phase.Finished?
                                       || (Enabled(state, Leave) && config.Retain().None?))
      // If the limits stay in this run, it ends after at most so many interactions a round; and against a
      // server that drives one environment up the stages, after at most a round a stage and one a failed ping.
      ensures LimitsStay(config.limitsOf, startLimits, init, trace, l) && TimeLimited(l) ==>
                && (old(world.budget) > 1 + Rounds(trace) * RoundCost(l) ==> r.Done?)
                && ((ServerObeys(init, trace, env)
                     && old(world.budget) > 1 + (ALL_STAGES + Progress.Failures(trace)) * RoundCost(l)) ==> r.Done?)
    {
      hide Turns;
      hide LastCarried;
      hide Run;
      hide Start;
      hide World.Consistent;
      hide RunCost;
      hide Enabled;
      hide Next;
      hide DeployAgent.Valid;
      hide DeployAgent.Recorded;
      hide RoundCost;
      hide LimitsStay;
      hide Paid;
      hide Rounds;
      hide ServerObeys;
      hide Progress.Failures;
      hide Legal;
      hide DistinctNames;
      hide Worked;
      ghost var total := world.budget;
      var answer := FirstPing(l);
      RecordedIsLegal();
      if answer.Crashed? {
        NotEnough(l, env, total);
        return Crashed;
      }
      while response.Some? && Active(response.value)
        invariant Valid() && Recorded() && executor != null && state.phase.Head? && world.Consistent()
        invariant Accounted() && startLog == |old(world.log)|
        invariant init == old(init) && startLimits == old(startLimits) && old(world.log) <= world.log
        invariant executor == old(executor) || fresh(executor)
        invariant forall k :: k in envs ==> envs[k] in old(envs.Values) || fresh(envs[k])
        invariant world.budget <= total
        invariant Legal(init, trace) && Paid(config.limitsOf, startLimits, init, trace, l, total - world.budget)
        decreases world.budget
      {
        var more := ServePaid(l, total);
        RecordedIsLegal();
        if more.Crashed? {
          NotEnough(l, env, total);
          return Crashed;
        }
        if !more.value {
          return Done(());
        }
      }
      LeaveCan();
      ghost var t := trace;
      var ok, _ := Finish();
      NoMoreWork(t, world.log);
      ValidIsRecorded();
      return Done(());
    }

    lemma RecordedIsLegal()
      requires Recorded()
      ensures Legal(init, trace)
    {
    }
  }
}
