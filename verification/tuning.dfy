/**
 Which limits are in force after the steps of a run: those of the environment whose goal
 was installed last (deploy-agent/deployd/agent.py:292-297, common/executor.py:38-47).
 */
module Tuning {
  import opened Wrappers
  import opened DeployTypes
  import opened Protocol
  import opened RunLog
  import opened AgentConfig

  /** How settings are read as limits. */
  type Reading = Settings -> Option<Limits>

  /** The limits after step `e` to state `s`, if they were `m`: installing a goal reads the settings anew. */
  function Retuned(limitsOf: Reading, s: State, e: Event, m: Option<Limits>): Option<Limits> {
    if && (e.Ping? || e.Leave?) && s.resp.Some? && s.resp.value.deployGoal.Some?
       && s.curr.Some? && s.curr.value in s.envs
    then limitsOf(SettingsOf(s.envs[s.curr.value]))
    else m
  }

  function LimitsAfter(limitsOf: Reading, m0: Option<Limits>, s0: State, t: seq<Event>): Option<Limits>
    requires Legal(s0, t)
  {
    if t == [] then m0
    else
      var n := |t| - 1;
      Retuned(limitsOf, After(s0, t), t[n], LimitsAfter(limitsOf, m0, s0, t[..n]))
  }

  /** Throughout the run the limits in force are `l`. */
  predicate LimitsStay(limitsOf: Reading, m0: Option<Limits>, s0: State, t: seq<Event>, l: Limits)
    requires Legal(s0, t)
  {
    LimitsAfter(limitsOf, m0, s0, t) == Some(l) && (t != [] ==> LimitsStay(limitsOf, m0, s0, t[..|t| - 1], l))
  }

  /** If they stay throughout a run, they stay throughout every prefix. */
  lemma {:induction false} StayBefore(limitsOf: Reading, m0: Option<Limits>, s0: State, t: seq<Event>, l: Limits,
                                      n: nat)
    requires Legal(s0, t) && LimitsStay(limitsOf, m0, s0, t, l) && n <= |t|
    ensures Legal(s0, t[..n]) && LimitsStay(limitsOf, m0, s0, t[..n], l)
    decreases |t|
  {
    if n == |t| {
      assert t[..n] == t;
    } else {
      StayBefore(limitsOf, m0, s0, t[..|t| - 1], l, n);
      assert t[..|t| - 1][..n] == t[..n];
    }
  }

  lemma StayOn(limitsOf: Reading, m0: Option<Limits>, s0: State, t: seq<Event>, u: seq<Event>, l: Limits)
    requires Legal(s0, u) && t <= u
    ensures Legal(s0, t)
    ensures LimitsStay(limitsOf, m0, s0, u, l) ==> LimitsStay(limitsOf, m0, s0, t, l)
  {
    assert u[..|t|] == t;
    PrefixLegal(s0, u, |t|);
    if LimitsStay(limitsOf, m0, s0, u, l) {
      StayBefore(limitsOf, m0, s0, u, l, |t|);
    }
  }

  /** One more step. */
  lemma RetunedBy(limitsOf: Reading, m0: Option<Limits>, s0: State, t: seq<Event>, e: Event)
    requires Legal(s0, t) && Enabled(After(s0, t), e)
    ensures Legal(s0, t + [e])
    ensures LimitsAfter(limitsOf, m0, s0, t + [e])
            == Retuned(limitsOf, Next(After(s0, t), e), e, LimitsAfter(limitsOf, m0, s0, t))
    ensures forall l :: LimitsStay(limitsOf, m0, s0, t + [e], l) ==> LimitsStay(limitsOf, m0, s0, t, l)
  {
    Extend(s0, t, e);
    assert (t + [e])[..|t|] == t;
  }

  lemma RetunedByPing(limitsOf: Reading, s: State, answer: Option<Response>, m: Option<Limits>)
    requires s.resp == answer
    requires answer.Some? && answer.value.deployGoal.Some? ==> s.curr.Some? && s.curr.value in s.envs
    ensures Retuned(limitsOf, s, Ping(answer), m) ==
            if answer.Some? && answer.value.deployGoal.Some? then limitsOf(SettingsOf(s.envs[s.curr.value])) else m
  {
  }

  /** Leaving the loop: what the step does but for the phase, and the limits after it. */
  lemma RetunedByLeave(limitsOf: Reading, s: State, t: State, m: Option<Limits>)
    requires Enabled(s, Leave) && t == (if s.resp.Some? then Install(s, s.resp.value) else s)
    ensures t.(phase := Next(s, Leave).phase) == Next(s, Leave)
    ensures Retuned(limitsOf, t, Leave, m) ==
            if s.resp.Some? && s.resp.value.deployGoal.Some? then limitsOf(SettingsOf(t.envs[t.curr.value])) else m
  {
  }

  // ---------- Runs whose settings leave the limits alone ----------

  const LIMIT_KEYS := {"process_timeout", "min_running_time", "max_retry",
                       "process_wait_interval", "back_off_factor", "max_sleep_interval"}

  predicate LeavesLimits(c: Settings) { c.Keys !! LIMIT_KEYS }

  lemma LeftAlone(c: Settings, reader: Settings)
    requires LeavesLimits(c)
    ensures ParseLimits(c, reader) == ParseLimits(map[], reader)
  {
    forall name | name in LIMIT_KEYS
      ensures Lookup(c, reader, name) == Lookup(map[], reader, name)
    {
    }
  }

  predicate AllLeave(envs: map<string, StatusValue>) {
    forall k :: k in envs ==> LeavesLimits(SettingsOf(envs[k]))
  }

  predicate AnswerLeaves(r: Option<Response>) {
    r.Some? && r.value.deployGoal.Some? && NonEmpty(r.value.deployGoal.value.config) ==>
      LeavesLimits(r.value.deployGoal.value.config.value)
  }

  predicate AnswersLeave(t: seq<Event>) {
    forall i :: 0 <= i < |t| && t[i].Ping? ==> AnswerLeaves(t[i].answer)
  }

  lemma InstallLeaves(s: State, r: Response)
    requires AllLeave(s.envs) && AnswerLeaves(Some(r))
    ensures AllLeave(Install(s, r).envs)
  {
  }

  lemma StepLeaves(s: State, e: Event)
    requires Enabled(s, e) && AllLeave(s.envs) && (s.phase.Boot? || AnswerLeaves(s.resp))
    requires e.Ping? ==> AnswerLeaves(e.answer)
    ensures AllLeave(Next(s, e).envs) && AnswerLeaves(Next(s, e).resp) && !Next(s, e).phase.Boot?
  {
    match e
    case Ping(answer) =>
      var c := s.(envs := CleanEnvs(s.envs));
      assert AllLeave(c.envs);
      if answer.Some? {
        InstallLeaves(c, answer.value);
      }
    case Leave =>
      if s.resp.Some? {
        InstallLeaves(s, s.resp.value);
      }
    case Begin(_) =>
    case Return(_, _) =>
    case Apply(_) =>
    case Dump(_) =>
  }

  lemma {:induction false} RunLeaves(s0: State, t: seq<Event>)
    requires s0.phase.Boot? && Legal(s0, t) && AllLeave(s0.envs) && AnswersLeave(t)
    ensures AllLeave(After(s0, t).envs) && (After(s0, t).phase.Boot? || AnswerLeaves(After(s0, t).resp))
    decreases |t|
  {
    if t != [] {
      var n := |t| - 1;
      assert forall i :: 0 <= i < n ==> t[..n][i] == t[i];
      RunLeaves(s0, t[..n]);
      StepLeaves(After(s0, t[..n]), t[n]);
    }
  }

  /**
   If neither the settings of the environments loaded nor those of the server's goals name
   a limit, the limits of the configuration file stay throughout the run.
   */
  lemma {:induction false} FileLimitsStay(limitsOf: Reading, reader: Settings, s0: State, t: seq<Event>, l: Limits)
    requires forall c :: limitsOf(c) == ParseLimits(c, reader)
    requires s0.phase.Boot? && Legal(s0, t) && AllLeave(s0.envs) && AnswersLeave(t)
    requires ParseLimits(map[], reader) == Some(l)
    ensures LimitsStay(limitsOf, Some(l), s0, t, l)
    decreases |t|
  {
    if t != [] {
      var n := |t| - 1;
      assert forall i :: 0 <= i < n ==> t[..n][i] == t[i];
      FileLimitsStay(limitsOf, reader, s0, t[..n], l);
      RunLeaves(s0, t);
      var s := After(s0, t);
      if s.curr.Some? && s.curr.value in s.envs {
        LeftAlone(SettingsOf(s.envs[s.curr.value]), reader);
      }
    }
  }

  /** With the defaults every timing claim applies. */
  lemma DefaultsAreTimed()
    ensures var l := Limits(1800, 60, 3, 2, 2, 60);
            ParseLimits(map[], map[]) == Some(l) && Sane(l) && TimeLimited(l) && PingsWithinDay(l)
  {
  }
}
