/**
 What an environment remembers: its build, configuration and script variables are
 those of the newest goal that carried them (deploy-agent/deployd/common/types.py:123-152,
 deployd/agent.py:153-163, 268-280).
 */
module History {
  import opened Wrappers
  import opened DeployTypes
  import opened StatusFile
  import opened Protocol
  import opened Coherence
  import opened Attribution

  /** Step `e` is the removal of environment `name` by a DELETE or TERMINATE goal. */
  predicate Drops(e: Event, name: string) {
    e.Return? && e.job.deployGoal.Some? && Removes(e.job) && e.job.deployGoal.value.envName == name
  }

  /**
   The last value that the goals for `name` carried since `name` was last removed, or
   the value the agent started with. Only the answers and the removals are looked at.
   */
  function LastCarried<T>(s0: State, t: seq<Event>, name: string,
                          get: StatusValue -> Option<T>, pick: Goal -> Option<T>): Option<T>
  {
    if t == [] then (if name in s0.envs then get(s0.envs[name]) else None)
    else
      var e := t[|t| - 1];
      if Drops(e, name) then None
      else if Installs(e, name) && pick(e.answer.value.deployGoal.value).Some? then
        pick(e.answer.value.deployGoal.value)
      else LastCarried(s0, t[..|t| - 1], name, get, pick)
  }

  /** Environment `name` was loaded or installed, and not removed since. */
  predicate Known(s0: State, t: seq<Event>, name: string) {
    if t == [] then name in s0.envs
    else !Drops(t[|t| - 1], name) && (Installs(t[|t| - 1], name) || Known(s0, t[..|t| - 1], name))
  }

  /** `get` reads from a status what `pick` reads from the goals installed in it. */
  ghost predicate Tracks<T(!new)>(get: StatusValue -> Option<T>, pick: Goal -> Option<T>) {
    && get(EMPTY_STATUS) == None
    && (forall v: StatusValue, r: Response | r.deployGoal.Some? ::
          get(Installed(v, r)) == if pick(r.deployGoal.value).Some? then pick(r.deployGoal.value) else get(v))
    && (forall v: StatusValue, d: DeployReport | v.report.Some? :: get(Reported(v, d)) == get(v))
    && (forall v: StatusValue :: get(Cleaned(v)) == get(v))
  }

  function InstalledBuild(v: StatusValue): Option<BuildInfo> { v.buildInfo }
  function CarriedBuild(g: Goal): Option<BuildInfo> {
    if g.build.Some? then Some(BuildInfoOf(g.build.value)) else None
  }
  function InstalledConfig(v: StatusValue): Option<map<string, string>> { v.runtimeConfig }
  function CarriedConfig(g: Goal): Option<map<string, string>> { if NonEmpty(g.config) then g.config else None }
  function InstalledVariables(v: StatusValue): Option<map<string, string>> { v.scriptVariables }
  function CarriedVariables(g: Goal): Option<map<string, string>> {
    if NonEmpty(g.scriptVariables) then g.scriptVariables else None
  }

  /** At the loop head, what the last answer carried is already in its environment. */
  ghost predicate Taken<T(!new)>(s: State, get: StatusValue -> Option<T>, pick: Goal -> Option<T>) {
    (s.phase.Head? || s.phase.Aborting?) && s.resp.Some? && s.resp.value.deployGoal.Some? ==>
      var g := s.resp.value.deployGoal.value;
      g.envName in s.envs && (pick(g).Some? ==> get(s.envs[g.envName]) == pick(g))
  }

  lemma TakenKept<T(!new)>(s: State, e: Event, get: StatusValue -> Option<T>, pick: Goal -> Option<T>)
    requires Tracks(get, pick) && Inv(s) && Enabled(s, e) && Taken(s, get, pick)
    ensures Taken(Next(s, e), get, pick)
  {
  }

  ghost predicate Remembers<T(!new)>(s0: State, t: seq<Event>, get: StatusValue -> Option<T>, pick: Goal -> Option<T>)
    requires Legal(s0, t)
  {
    forall name :: name in After(s0, t).envs ==>
                     get(After(s0, t).envs[name]) == LastCarried(s0, t, name, get, pick)
  }

  lemma RemembersStep<T(!new)>(s0: State, t: seq<Event>, e: Event,
                               get: StatusValue -> Option<T>, pick: Goal -> Option<T>)
    requires Tracks(get, pick) && Legal(s0, t) && Inv(After(s0, t)) && Enabled(After(s0, t), e)
    requires Taken(After(s0, t), get, pick) && Remembers(s0, t, get, pick)
    requires forall name :: name !in After(s0, t).envs ==> LastCarried(s0, t, name, get, pick) == None
    ensures Legal(s0, t + [e]) && Remembers(s0, t + [e], get, pick)
    ensures forall name :: name !in After(s0, t + [e]).envs ==> LastCarried(s0, t + [e], name, get, pick) == None
  {
    var s := After(s0, t);
    Extend(s0, t, e);
    assert (t + [e])[..|t|] == t;
    var s' := After(s0, t + [e]);
    forall name
      ensures name in s'.envs ==> get(s'.envs[name]) == LastCarried(s0, t + [e], name, get, pick)
      ensures name !in s'.envs ==> LastCarried(s0, t + [e], name, get, pick) == None
    {
      match e
      case Ping(answer) =>
      case Begin(job) =>
      case Return(job, d) =>
      case Apply(d) =>
      case Dump(ok) =>
      case Leave =>
        if s.resp.Some? && s.resp.value.deployGoal.Some? && s.resp.value.deployGoal.value.envName == name {
          var r: Response := s.resp.value;
          assert s'.envs[name] == Installed(s.envs[name], r);
          assert get(s'.envs[name])
                 == if pick(r.deployGoal.value).Some? then pick(r.deployGoal.value) else get(s.envs[name]);
        }
    }
  }

  /** History refinement, for any part of a status that goals carry. */
  lemma {:induction false} RemembersLast<T(!new)>(
    s0: State, t: seq<Event>, get: StatusValue -> Option<T>, pick: Goal -> Option<T>)
    requires Tracks(get, pick) && Start(s0) && Legal(s0, t)
    ensures Remembers(s0, t, get, pick) && Taken(After(s0, t), get, pick)
    ensures forall name :: name !in After(s0, t).envs ==> LastCarried(s0, t, name, get, pick) == None
  {
    if t != [] {
      var n := |t| - 1;
      StepOf(s0, t, n);
      assert t[..n + 1] == t && t == t[..n] + [t[n]];
      RemembersLast(s0, t[..n], get, pick);
      InvAlways(s0, t[..n]);
      TakenKept(After(s0, t[..n]), t[n], get, pick);
      RemembersStep(s0, t[..n], t[n], get, pick);
    }
  }

  /** In every run, an environment's build, configuration and variables are the last ones its goals carried. */
  lemma HistoryRefined(s0: State, t: seq<Event>, name: string)
    requires Start(s0) && Legal(s0, t) && name in After(s0, t).envs
    ensures var v := After(s0, t).envs[name];
            && v.buildInfo == LastCarried(s0, t, name, InstalledBuild, CarriedBuild)
            && v.runtimeConfig == LastCarried(s0, t, name, InstalledConfig, CarriedConfig)
            && v.scriptVariables == LastCarried(s0, t, name, InstalledVariables, CarriedVariables)
  {
    RemembersLast(s0, t, InstalledBuild, CarriedBuild);
    RemembersLast(s0, t, InstalledConfig, CarriedConfig);
    RemembersLast(s0, t, InstalledVariables, CarriedVariables);
  }

  /** The environments in memory are those loaded or installed and not removed since. */
  lemma {:induction false} EnvironmentsKnown(s0: State, t: seq<Event>, name: string)
    requires Start(s0) && Legal(s0, t)
    ensures name in After(s0, t).envs <==> Known(s0, t, name)
  {
    if t != [] {
      var n := |t| - 1;
      StepOf(s0, t, n);
      assert t[..n + 1] == t;
      EnvironmentsKnown(s0, t[..n], name);
      RemembersLast(s0, t[..n], InstalledBuild, CarriedBuild);
      InvAlways(s0, t[..n]);
    }
  }
}
