/**
 Attribution: which statuses a report may carry, and why
 (deploy-agent/deployd/agent.py:93-119, 219-240, 268-297).
 */
module Attribution {
  import opened Wrappers
  import opened DeployTypes
  import opened StatusFile
  import opened Protocol
  import opened Coherence

  /** The statuses by which the server believes that a stage ended on its own. */
  predicate Claimed(s: Option<AgentStatus>) {
    s in {Some(Succeeded), Some(TooManyRetry), Some(ScriptTimeout)}
  }

  predicate Installs(e: Event, name: string) {
    e.Ping? && e.answer.Some? && e.answer.value.deployGoal.Some? && e.answer.value.deployGoal.value.envName == name
  }

  /** No goal for `name` was installed in `t` from step `from` on. */
  predicate Untouched(t: seq<Event>, name: string, from: nat) {
    forall m :: from <= m < |t| ==> !Installs(t[m], name)
  }

  /** Step `j` is process_deploy returning, on a goal with the ids and stage of report `r` of `name`, `r`'s status. */
  predicate Earned(t: seq<Event>, j: nat, name: string, r: PingReport) {
    && j < |t| && t[j].Return? && t[j].job.deployGoal.Some?
    && var g := t[j].job.deployGoal.value;
    && g.envName == name
    && r.deployId == Some(g.deployId)
    && r.deployStage == Some(g.deployStage)
    && r.status == Some(t[j].d.status)
    && Untouched(t, name, j + 1)
  }

  /** The report of `name` still is, but for the ASCII filter, the one the agent started with. */
  predicate Loaded(s0: State, t: seq<Event>, name: string, r: PingReport) {
    && name in s0.envs && s0.envs[name].report.Some?
    && Clean(r) == Clean(s0.envs[name].report.value)
    && Untouched(t, name, 0)
  }

  ghost predicate Attributed(s0: State, t: seq<Event>, name: string, r: PingReport) {
    Claimed(r.status) ==> Loaded(s0, t, name, r) || exists j: nat :: Earned(t, j, name, r)
  }

  ghost predicate AllAttributed(s0: State, t: seq<Event>)
    requires Legal(s0, t)
  {
    forall name :: name in After(s0, t).envs && After(s0, t).envs[name].report.Some? ==>
                     Attributed(s0, t, name, After(s0, t).envs[name].report.value)
  }

  // ---------- What is assumed of the server ----------

  /** Every answer that is not a NOOP carries a goal. */
  predicate GoalGiven(t: seq<Event>) {
    forall i :: 0 <= i < |t| && t[i].Ping? && t[i].answer.Some? && Active(t[i].answer.value) ==>
                  t[i].answer.value.deployGoal.Some?
  }

  /** A deploy belongs to one environment. */
  predicate Owned(r: Response, owner: string -> string) {
    r.deployGoal.Some? ==> r.deployGoal.value.envName == owner(r.deployGoal.value.deployId)
  }

  predicate AllOwned(t: seq<Event>, owner: string -> string) {
    forall i :: 0 <= i < |t| && t[i].Ping? && t[i].answer.Some? ==> Owned(t[i].answer.value, owner)
  }

  // ---------- The goal worked on belongs to the current environment ----------

  predicate OwnedJob(s: State, job: Response, owner: string -> string) {
    job.deployGoal.Some? && Owned(job, owner) && (!Removes(job) ==> s.curr == Some(job.deployGoal.value.envName))
  }

  predicate OwnedState(s: State, owner: string -> string) {
    match s.phase
    case Boot => true
    case Head => s.resp.Some? ==> Owned(s.resp.value, owner) && (Active(s.resp.value) ==> s.resp.value.deployGoal.Some?)
    case Working(job) => OwnedJob(s, job, owner)
    case Aborting(job) =>
      s.resp.Some? ==> Owned(s.resp.value, owner) && (Active(s.resp.value) ==> s.resp.value.deployGoal.Some?)
    case Returned(job, _) => OwnedJob(s, job, owner)
    case Applied(job, _, _) => OwnedJob(s, job, owner)
    case Dumped(job, _, _) => OwnedJob(s, job, owner)
    case Finished => true
  }

  lemma OwnedStep(s: State, e: Event, owner: string -> string)
    requires Inv(s) && Enabled(s, e) && OwnedState(s, owner)
    requires e.Ping? && e.answer.Some? ==>
               Owned(e.answer.value, owner) && (Active(e.answer.value) ==> e.answer.value.deployGoal.Some?)
    ensures OwnedState(Next(s, e), owner)
  {
    if e.Ping? && e.answer.Some? && s.phase.Dumped? && !s.phase.final {
      ChangedPlanMeans(s.resp, e.answer.value);
    }
  }

  lemma {:induction false} OwnedAlways(s0: State, t: seq<Event>, owner: string -> string)
    requires Start(s0) && Legal(s0, t) && GoalGiven(t) && AllOwned(t, owner)
    ensures OwnedState(After(s0, t), owner)
  {
    if t != [] {
      var n := |t| - 1;
      StepOf(s0, t, n);
      assert t[..n + 1] == t;
      OwnedAlways(s0, t[..n], owner);
      InvAlways(s0, t[..n]);
      OwnedStep(After(s0, t[..n]), t[n], owner);
    }
  }

  // ---------- One step ----------

  /** A report that a step leaves alone, but for the filter, keeps its attribution. */
  lemma Carried(s0: State, t: seq<Event>, e: Event, name: string, before: PingReport, after: PingReport)
    requires Attributed(s0, t, name, before)
    requires Clean(before) == Clean(after)
    requires !Installs(e, name)
    ensures Attributed(s0, t + [e], name, after)
  {
    if Claimed(after.status) {
      if Loaded(s0, t, name, before) {
        assert Loaded(s0, t + [e], name, after);
      } else {
        var j: nat :| Earned(t, j, name, before);
        assert Earned(t + [e], j, name, after);
      }
    }
  }

  lemma FilterKeeps(r: PingReport)
    ensures Clean(Clean(r)) == Clean(r)
  {
    if r.errorMessage.Some? {
      AsciiIdempotent(r.errorMessage.value);
    }
  }

  ghost predicate Step(s0: State, t: seq<Event>, e: Event) {
    Legal(s0, t) && Enabled(After(s0, t), e) && Inv(After(s0, t)) && AllAttributed(s0, t)
  }

  lemma PingKeeps(s0: State, t: seq<Event>, answer: Option<Response>)
    requires Step(s0, t, Ping(answer))
    ensures Legal(s0, t + [Ping(answer)]) && AllAttributed(s0, t + [Ping(answer)])
  {
    var s, e := After(s0, t), Ping(answer);
    Extend(s0, t, e);
    var s' := After(s0, t + [e]);
    forall name | name in s'.envs && s'.envs[name].report.Some?
      ensures Attributed(s0, t + [e], name, s'.envs[name].report.value)
    {
      if !Installs(e, name) {
        FilterKeeps(s.envs[name].report.value);
        Carried(s0, t, e, name, s.envs[name].report.value, s'.envs[name].report.value);
      } else {
        assert s'.envs[name].report.value.status == Some(Unknown);
      }
    }
  }

  /** The final report of a goal: what it claims was returned one step ago, on that goal. */
  lemma FinalReportEarned(s0: State, t: seq<Event>, d: DeployReport, owner: string -> string)
    requires Step(s0, t, Apply(d)) && After(s0, t).phase.Returned? && OwnedState(After(s0, t), owner)
    requires t != [] && t[|t| - 1] == Return(After(s0, t).phase.job, d)
    requires After(s0, t).curr.Some?
    ensures var s' := Next(After(s0, t), Apply(d));
            Attributed(s0, t + [Apply(d)], s'.curr.value, s'.envs[s'.curr.value].report.value)
  {
    var s, e := After(s0, t), Apply(d);
    var s' := Next(s, e);
    var r := s'.envs[s.curr.value].report.value;
    if Claimed(r.status) {
      assert Earned(t + [e], |t| - 1, s.curr.value, r);
    }
  }

  lemma ApplyKeeps(s0: State, t: seq<Event>, d: DeployReport, owner: string -> string)
    requires Step(s0, t, Apply(d)) && OwnedState(After(s0, t), owner)
    requires After(s0, t).phase.Returned? ==> t != [] && t[|t| - 1] == Return(After(s0, t).phase.job, d)
    ensures Legal(s0, t + [Apply(d)]) && AllAttributed(s0, t + [Apply(d)])
  {
    var s, e := After(s0, t), Apply(d);
    Extend(s0, t, e);
    var s' := After(s0, t + [e]);
    forall name | name in s'.envs && s'.envs[name].report.Some?
      ensures Attributed(s0, t + [e], name, s'.envs[name].report.value)
    {
      if s.curr != Some(name) {
        Carried(s0, t, e, name, s.envs[name].report.value, s'.envs[name].report.value);
      } else if s.phase.Returned? {
        FinalReportEarned(s0, t, d, owner);
      }
    }
  }

  lemma OtherStepKeeps(s0: State, t: seq<Event>, e: Event)
    requires Step(s0, t, e) && !e.Ping? && !e.Apply?
    ensures Legal(s0, t + [e]) && AllAttributed(s0, t + [e])
  {
    hide Next;
    hide Enabled;
    hide Attributed;
    var s := After(s0, t);
    Extend(s0, t, e);
    var s' := After(s0, t + [e]);
    forall name | name in s'.envs && s'.envs[name].report.Some?
      ensures Attributed(s0, t + [e], name, s'.envs[name].report.value)
    {
      OtherStepClaims(s, e, name);
      if name in s.envs && s'.envs[name].report == s.envs[name].report {
        Carried(s0, t, e, name, s.envs[name].report.value, s'.envs[name].report.value);
      } else {
        NothingClaimed(s0, t + [e], name, s'.envs[name].report.value);
      }
    }
  }

  /** A dump, the last installation and the other steps change a report only to one that claims nothing. */
  lemma OtherStepClaims(s: State, e: Event, name: string)
    requires Enabled(s, e) && !e.Ping? && !e.Apply?
    requires name in Next(s, e).envs && Next(s, e).envs[name].report.Some?
    ensures (name in s.envs && Next(s, e).envs[name].report == s.envs[name].report)
            || !Claimed(Next(s, e).envs[name].report.value.status)
  {
  }

  lemma NothingClaimed(s0: State, t: seq<Event>, name: string, r: PingReport)
    requires !Claimed(r.status)
    ensures Attributed(s0, t, name, r)
  {
  }

  /** A final report is about to be recorded only right after process_deploy returned it. */
  lemma ReturnedLast(s0: State, t: seq<Event>)
    requires Start(s0) && Legal(s0, t) && After(s0, t).phase.Returned?
    ensures t != [] && t[|t| - 1] == Return(After(s0, t).phase.job, After(s0, t).phase.d)
  {
    StepOf(s0, t, |t| - 1);
    assert t[..|t| - 1 + 1] == t;
  }

  /**
   Attribution. Whatever the adversary does with pings, dumps and processes: a report
   that claims an outcome is either still the loaded one, or process_deploy returned
   exactly that outcome on a goal with exactly those ids and that stage, and no goal for
   that environment was installed since.
   */
  lemma {:induction false} OutcomesAttributed(s0: State, t: seq<Event>, owner: string -> string)
    requires Start(s0) && Legal(s0, t) && GoalGiven(t) && AllOwned(t, owner)
    ensures AllAttributed(s0, t)
  {
    if t == [] {
    } else {
      var n := |t| - 1;
      var before := t[..n];
      StepOf(s0, t, n);
      assert t[..n + 1] == t && t == before + [t[n]];
      OutcomesAttributed(s0, before, owner);
      InvAlways(s0, before);
      OwnedAlways(s0, before, owner);
      match t[n] {
        case Ping(answer) => PingKeeps(s0, before, answer);
        case Apply(d) =>
          if After(s0, before).phase.Returned? {
            ReturnedLast(s0, before);
          }
          ApplyKeeps(s0, before, d, owner);
        case _ => OtherStepKeeps(s0, before, t[n]);
      }
    }
  }

  /** The same, for what the server is told: every ping of every run. */
  lemma PingsAttributed(s0: State, t: seq<Event>, i: nat, name: string, owner: string -> string)
    requires Start(s0) && Legal(s0, t) && GoalGiven(t) && AllOwned(t, owner)
    requires i < |t| && t[i].Ping?
    requires Legal(s0, t[..i]) && name in Sent(After(s0, t[..i]))
    ensures var sent := Sent(After(s0, t[..i]))[name];
            sent.Some? && Attributed(s0, t[..i], name, sent.value)
  {
    var before := t[..i];
    InvAlways(s0, before);
    OutcomesAttributed(s0, before, owner);
    var r := After(s0, before).envs[name].report.value;
    FilterKeeps(r);
    if Claimed(r.status) {
      if Loaded(s0, before, name, r) {
        assert Loaded(s0, before, name, Clean(r));
      } else {
        var j: nat :| Earned(before, j, name, r);
        assert Earned(before, j, name, Clean(r));
      }
    }
  }

  // ---------- Both assumptions are needed ----------

  const BLANK := State(map[], None, None, map[], Boot)

  const IN_PROGRESS := DeployReport(Unknown, 0, None, 0)

  /** A run up to the middle of a command for `a`, with the status file just written. */
  function MidRun(a: Response): seq<Event> {
    [Ping(Some(a))] + [Begin(a)] + [Apply(IN_PROGRESS)] + [Dump(true)]
  }

  lemma MidRunLegal(a: Response)
    requires a.deployGoal.Some? && Active(a) && !Removes(a)
    ensures Legal(BLANK, MidRun(a))
    ensures After(BLANK, MidRun(a)).phase == Dumped(a, IN_PROGRESS, false)
    ensures After(BLANK, MidRun(a)).resp == Some(a)
  {
    assert Run(BLANK, []) == Some(BLANK);
    assert [] + [Ping(Some(a))] == [Ping(Some(a))];
    Extend(BLANK, [], Ping(Some(a)));
    Extend(BLANK, [Ping(Some(a))], Begin(a));
    Extend(BLANK, [Ping(Some(a))] + [Begin(a)], Apply(IN_PROGRESS));
    Extend(BLANK, [Ping(Some(a))] + [Begin(a)] + [Apply(IN_PROGRESS)], Dump(true));
  }

  /** With one deploy id used by two environments, a result lands on the wrong one. */
  lemma SharedDeployIdMisattributes(a: Response, b: Response)
    requires a.deployGoal.Some? && Active(a) && !Removes(a) && SamePlan(b, a)
    requires a.deployGoal.value.envName != b.deployGoal.value.envName
    ensures var t := MidRun(a) + [Ping(Some(b))] + [Return(a, NOTHING_TO_DO)] + [Apply(NOTHING_TO_DO)];
            Start(BLANK) && Legal(BLANK, t) && GoalGiven(t) && !AllAttributed(BLANK, t)
  {
    MidRunLegal(a);
    var t1 := MidRun(a) + [Ping(Some(b))];
    GoalStability(BLANK, MidRun(a), a, IN_PROGRESS, Some(b));
    var t2 := t1 + [Return(a, NOTHING_TO_DO)];
    Extend(BLANK, t1, Return(a, NOTHING_TO_DO));
    var t := t2 + [Apply(NOTHING_TO_DO)];
    Extend(BLANK, t2, Apply(NOTHING_TO_DO));
    ResultOnOther(t, a, b);
  }

  lemma ResultOnOther(t: seq<Event>, a: Response, b: Response)
    requires Legal(BLANK, t) && a.deployGoal.Some? && b.deployGoal.Some?
    requires t == MidRun(a) + [Ping(Some(b))] + [Return(a, NOTHING_TO_DO)] + [Apply(NOTHING_TO_DO)]
    requires a.deployGoal.value.envName != b.deployGoal.value.envName
    requires After(BLANK, t).curr == Some(b.deployGoal.value.envName)
    requires After(BLANK, t).curr.value in After(BLANK, t).envs
    requires var v := After(BLANK, t).envs[b.deployGoal.value.envName];
             v.report.Some? && v.report.value.status == Some(Succeeded)
    ensures !AllAttributed(BLANK, t)
  {
    var name := b.deployGoal.value.envName;
    var r := After(BLANK, t).envs[name].report.value;
    assert t[|t| - 2] == Return(a, NOTHING_TO_DO);
    assert forall j: nat :: !Earned(t, j, name, r);
    assert !Attributed(BLANK, t, name, r);
  }

  /** An answer that is not a NOOP and carries no goal marks the current, loaded status SUCCEEDED. */
  lemma MissingGoalMisattributes(s0: State, name: string, r: Response, owner: string -> string)
    requires Start(s0) && s0.curr == Some(name) && Active(r) && r.deployGoal.None?
    requires !Claimed(s0.envs[name].report.value.status)
    ensures var t := [Ping(Some(r))] + [Return(r, NOTHING_TO_DO)] + [Apply(NOTHING_TO_DO)];
            Legal(s0, t) && AllOwned(t, owner) && !AllAttributed(s0, t)
  {
    var t0 := [Ping(Some(r))];
    assert [] + t0 == t0;
    assert Run(s0, []) == Some(s0);
    Extend(s0, [], Ping(Some(r)));
    var t1 := t0 + [Return(r, NOTHING_TO_DO)];
    Extend(s0, t0, Return(r, NOTHING_TO_DO));
    var t := t1 + [Apply(NOTHING_TO_DO)];
    Extend(s0, t1, Apply(NOTHING_TO_DO));
    var report := After(s0, t).envs[name].report.value;
    assert report.status == Some(Succeeded);
    assert forall j: nat :: !Earned(t, j, name, report);
    assert !Attributed(s0, t, name, report);
  }
}
