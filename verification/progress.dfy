/**
 Progress: against a server that drives one environment up the deploy stages, the
 serving loop takes up only finitely many goals, in stage order
 (deploy-agent/deployd/agent.py:93-119, deployd/types/deploy_stage.py:40-52).
 */
module Progress {
  import opened Wrappers
  import opened DeployTypes
  import opened StatusFile
  import opened Protocol
  import opened Coherence

  /** `r` asks for a stage of `env`, SERVING_BUILD at the latest. */
  predicate AsksStage(r: Response, env: string) {
    && Active(r) && !Removes(r) && r.deployGoal.Some?
    && r.deployGoal.value.envName == env && StageRank(r.deployGoal.value.deployStage) <= StageRank(ServingBuild)
  }

  function Stage(r: Response): nat
    requires r.deployGoal.Some?
  {
    StageRank(r.deployGoal.value.deployStage)
  }

  /**
   What the server answers to the report of `env`: after SUCCEEDED the goal of a higher
   stage, and nothing more to do at SERVING_BUILD; nothing more to do after a failure;
   otherwise the same goal again. With no report yet, any goal.
   */
  predicate Obeys(s: State, r: Response, env: string) {
    if !Active(r) then true
    else
      && AsksStage(r, env)
      && (env in s.envs && s.envs[env].report.Some? && s.phase.Dumped? ==>
            var v := s.envs[env]; var report := v.report.value;
            && report.status.Some? && report.deployStage.Some?
            && !Fatal(report.status.value)
            && if report.status.value == Succeeded then
                 report.deployStage.value != ServingBuild && Stage(r) > StageRank(report.deployStage.value)
               else
                 && r.opCode == v.opCode
                 && Some(r.deployGoal.value.deployId) == report.deployId
                 && Some(r.deployGoal.value.deployStage) == report.deployStage)
  }

  predicate ServerObeys(s0: State, t: seq<Event>, env: string)
    requires Legal(s0, t)
  {
    if t == [] then true
    else
      var e := t[|t| - 1];
      ServerObeys(s0, t[..|t| - 1], env) &&
      (e.Ping? && e.answer.Some? ==> Obeys(After(s0, t[..|t| - 1]), e.answer.value, env))
  }

  /** The step starts a round of the serving loop: a goal is taken up, or there is none to take up. */
  predicate Round(e: Event) { e.Begin? || (e.Return? && e.job.deployGoal.None?) }

  function Rounds(t: seq<Event>): nat {
    if t == [] then 0 else Rounds(t[..|t| - 1]) + if Round(t[|t| - 1]) then 1 else 0
  }

  lemma {:induction false} RoundsGrow(t: seq<Event>, u: seq<Event>)
    requires t <= u
    ensures Rounds(t) <= Rounds(u)
    decreases |u|
  {
    if t != u {
      assert t <= u[..|u| - 1];
      RoundsGrow(t, u[..|u| - 1]);
    } else {
    }
  }

  lemma RoundAdds(t: seq<Event>, e: Event)
    requires Round(e)
    ensures Rounds(t + [e]) == Rounds(t) + 1
  {
    assert (t + [e])[..|t|] == t;
  }

  function Failures(t: seq<Event>): nat {
    if t == [] then 0 else Failures(t[..|t| - 1]) + if t[|t| - 1] == Ping(None) then 1 else 0
  }

  /** The stage taken up last. */
  function LastStage(t: seq<Event>): nat {
    if t == [] then 0
    else if t[|t| - 1].Begin? && t[|t| - 1].job.deployGoal.Some? then Stage(t[|t| - 1].job)
    else LastStage(t[..|t| - 1])
  }

  const ALL_STAGES := 9

  function NextGoals(r: Option<Response>): nat {
    if r.Some? && Active(r.value) && r.value.deployGoal.Some? && Stage(r.value) <= 8
    then ALL_STAGES - Stage(r.value) else 0
  }

  function Left(job: Response): nat {
    if job.deployGoal.Some? && Stage(job) <= 8 then 8 - Stage(job) else 0
  }

  /** How many more goals can be taken up, unless another ping fails. */
  function Remaining(s: State): nat {
    match s.phase
    case Boot => ALL_STAGES
    case Head => NextGoals(s.resp)
    case Working(job) => Left(job) + if s.resp.None? then 1 else 0
    case Aborting(_) => NextGoals(s.resp)
    case Returned(job, _) => Left(job)
    case Applied(job, _, final) => Left(job) + if !final && s.resp.None? then 1 else 0
    case Dumped(job, _, final) => Left(job) + if !final && s.resp.None? then 1 else 0
    case Finished => 0
  }

  predicate StatusIs(s: State, env: string, d: DeployReport) {
    env in s.envs && s.envs[env].report.Some? &&
    s.envs[env].report.value.status in {Some(d.status), Some(AgentFailed)}
  }

  /**
   The single environment is current, and its recorded status is the report's, or
   AGENT_FAILED after a failed dump.
   */
  predicate Driven(s: State, env: string) {
    && (!s.phase.Boot? && s.resp.Some? && Active(s.resp.value) ==> AsksStage(s.resp.value, env))
    && (s.phase.Working? || s.phase.Returned? || s.phase.Applied? || s.phase.Dumped? ==>
          AsksStage(s.phase.job, env) && s.curr == Some(env) && env in s.envs && s.envs[env].report.Some?)
    && (s.phase.Returned? ==> Ending(s.phase.d.status))
    && (s.phase.Applied? || s.phase.Dumped? ==>
          && (if s.phase.final then Ending(s.phase.d.status) else s.phase.d.status in {Unknown, ScriptFailed})
          && StatusIs(s, env, s.phase.d))
  }

  predicate StageFloor(s: State, floor: nat) {
    match s.phase
    case Boot => floor == 0
    case Head => s.resp.Some? && Active(s.resp.value) && s.resp.value.deployGoal.Some? ==> floor <= Stage(s.resp.value)
    case Aborting(_) =>
      s.resp.Some? && Active(s.resp.value) && s.resp.value.deployGoal.Some? ==> floor <= Stage(s.resp.value)
    case Finished => true
    case _ => s.phase.job.deployGoal.Some? && floor <= Stage(s.phase.job)
  }

  lemma PingProgress(s: State, answer: Option<Response>, env: string, floor: nat)
    requires Inv(s) && Enabled(s, Ping(answer)) && Driven(s, env) && StageFloor(s, floor)
    requires answer.Some? ==> Obeys(s, answer.value, env)
    ensures var s' := Next(s, Ping(answer));
            && Driven(s', env) && StageFloor(s', floor)
            && Remaining(s') <= Remaining(s) + if answer.None? then 1 else 0
  {
    if answer.Some? {
      ChangedPlanMeans(s.resp, answer.value);
    }
  }

  lemma StepProgress(s: State, e: Event, env: string, floor: nat)
    requires Inv(s) && Enabled(s, e) && Driven(s, env) && StageFloor(s, floor)
    requires e.Ping? && e.answer.Some? ==> Obeys(s, e.answer.value, env)
    ensures var s' := Next(s, e);
            && Driven(s', env)
            && StageFloor(s', if e.Begin? && e.job.deployGoal.Some? then Stage(e.job) else floor)
            && Remaining(s') + (if Round(e) then 1 else 0) <= Remaining(s) + (if e == Ping(None) then 1 else 0)
            && (Round(e) ==> e.Begin? && e.job.deployGoal.Some? && floor <= Stage(e.job))
  {
    match e
    case Ping(answer) => PingProgress(s, answer, env, floor);
    case Begin(job) =>
    case Return(job, d) =>
    case Apply(d) =>
    case Dump(ok) =>
    case Leave =>
  }

  lemma {:induction false} ProgressAlways(s0: State, t: seq<Event>, env: string)
    requires Start(s0) && Legal(s0, t) && ServerObeys(s0, t, env)
    ensures var s := After(s0, t);
            && Driven(s, env)
            && StageFloor(s, LastStage(t))
            && Rounds(t) + Remaining(s) <= ALL_STAGES + Failures(t)
  {
    if t != [] {
      var n := |t| - 1;
      StepOf(s0, t, n);
      assert t[..n + 1] == t;
      ProgressAlways(s0, t[..n], env);
      InvAlways(s0, t[..n]);
      StepProgress(After(s0, t[..n]), t[n], env, LastStage(t[..n]));
    }
  }

  /** Progress: the loop goes round at most once for each stage and once more for each failed ping. */
  lemma RoundsBounded(s0: State, t: seq<Event>, env: string)
    requires Start(s0) && Legal(s0, t) && ServerObeys(s0, t, env)
    ensures Rounds(t) <= ALL_STAGES + Failures(t)
  {
    ProgressAlways(s0, t, env);
  }

  lemma {:induction false} ObeysPrefix(s0: State, t: seq<Event>, env: string, n: nat)
    requires Legal(s0, t) && ServerObeys(s0, t, env) && n <= |t|
    ensures Legal(s0, t[..n]) && ServerObeys(s0, t[..n], env)
    decreases |t|
  {
    if n == |t| {
      assert t[..n] == t;
    } else {
      StepOf(s0, t, |t| - 1);
      ObeysPrefix(s0, t[..|t| - 1], env, n);
      assert t[..|t| - 1][..n] == t[..n];
    }
  }

  /** Stages are taken up in non-decreasing order. */
  lemma {:induction false} StagesInOrder(s0: State, t: seq<Event>, env: string, i: nat, j: nat)
    requires Start(s0) && Legal(s0, t) && ServerObeys(s0, t, env)
    requires i < j < |t| && t[i].Begin? && t[j].Begin?
    ensures t[i].job.deployGoal.Some? && t[j].job.deployGoal.Some?
    ensures Stage(t[i].job) <= Stage(t[j].job)
  {
    ObeysPrefix(s0, t, env, j);
    FloorGrows(s0, t[..j], env, i);
    StepOf(s0, t, j);
    InvAlways(s0, t[..j]);
    ProgressAlways(s0, t[..j], env);
    StepProgress(After(s0, t[..j]), t[j], env, LastStage(t[..j]));
  }

  /** The stage taken up at step `i` is a lower bound on the stage taken up last. */
  lemma {:induction false} FloorGrows(s0: State, t: seq<Event>, env: string, i: nat)
    requires Start(s0) && Legal(s0, t) && ServerObeys(s0, t, env)
    requires i < |t| && t[i].Begin?
    ensures t[i].job.deployGoal.Some? && Stage(t[i].job) <= LastStage(t)
    decreases |t|
  {
    var n := |t|;
    StepOf(s0, t, n - 1);
    assert t[..n - 1 + 1] == t;
    ProgressAlways(s0, t[..n - 1], env);
    InvAlways(s0, t[..n - 1]);
    StepProgress(After(s0, t[..n - 1]), t[n - 1], env, LastStage(t[..n - 1]));
    if i < n - 1 {
      FloorGrows(s0, t[..n - 1], env, i);
    }
  }
}
