/**
 What holds at every step of every run of the agent: the goal being worked on is
 the one installed, and a command outlives a ping only if the plan did not change.
 */
module Coherence {
  import opened Wrappers
  import opened DeployTypes
  import opened Protocol

  lemma {:induction false} InvAlways(s0: State, t: seq<Event>)
    requires Start(s0) && Legal(s0, t)
    ensures Inv(After(s0, t))
  {
    if t != [] {
      var n := |t| - 1;
      StepOf(s0, t, n);
      assert t[..n + 1] == t;
      InvAlways(s0, t[..n]);
      InvKept(After(s0, t[..n]), t[n]);
    }
  }

  /**
   Loop-head coherence. Whenever process_deploy is called, the current status is the
   entry of the goal's environment, its ids, stage and operation are the answer's and
   its status is UNKNOWN; so an environment to be removed is always found.
   */
  lemma LoopHead(s0: State, t: seq<Event>, n: nat)
    requires Start(s0) && Legal(s0, t) && n < |t| && t[n].Begin?
    ensures Legal(s0, t[..n])
    ensures var s := After(s0, t[..n]); var job := t[n].job;
            && s.resp == Some(job)
            && job.deployGoal.Some?
            && Fresh(s, job)
            && job.deployGoal.value.envName in s.envs
  {
    StepOf(s0, t, n);
    InvAlways(s0, t[..n]);
  }

  /** Removing the environment of a DELETE or TERMINATE goal is always possible: it is there and it is current. */
  lemma RemovalFindsItsEnvironment(s0: State, t: seq<Event>, job: Response)
    requires Start(s0) && Legal(s0, t)
    requires After(s0, t).phase == Working(job) && (job.opCode == Some(Terminate) || job.opCode == Some(Delete))
    ensures var s := After(s0, t);
            && job.deployGoal.Some?
            && s.curr == Some(job.deployGoal.value.envName)
            && s.curr.value in s.envs
            && Enabled(s, Return(job, REMOVED))
            && Next(s, Return(job, REMOVED)).curr.None?
            && s.curr.value !in Next(s, Return(job, REMOVED)).envs
  {
    InvAlways(s0, t);
  }

  /**
   Goal stability. After a ping in the middle of a command: a failed ping never stops
   it; an answer lets it go on exactly when the ping before it did not fail and the
   answer asks for the operation, deploy and stage that the command is running. An
   aborted command leaves the newest answer, freshly installed, for the loop to take up.
   */
  lemma GoalStability(s0: State, t: seq<Event>, job: Response, d: DeployReport, answer: Option<Response>)
    requires Start(s0) && Legal(s0, t) && After(s0, t).phase == Dumped(job, d, false)
    ensures Legal(s0, t + [Ping(answer)])
    ensures var before := After(s0, t); var s := After(s0, t + [Ping(answer)]);
            && s.resp == answer
            && (answer.None? ==> s.phase == Working(job))
            && (answer.Some? ==>
                  && (s.phase == Working(job) <==> before.resp.Some? && SamePlan(answer.value, job))
                  && (s.phase == Aborting(job) <==> before.resp.None? || !SamePlan(answer.value, job))
                  && (answer.value.deployGoal.Some? ==> Fresh(s, answer.value)))
  {
    InvAlways(s0, t);
    var before := After(s0, t);
    Extend(s0, t, Ping(answer));
    InvKept(before, Ping(answer));
    if answer.Some? {
      InstallFresh(before.(envs := CleanEnvs(before.envs)), answer.value);
      ChangedPlanMeans(before.resp, answer.value);
      if before.resp.Some? {
        SamePlanIsEquivalence(answer.value, before.resp.value, job);
        SamePlanIsEquivalence(before.resp.value, answer.value, job);
        SamePlanIsEquivalence(answer.value, job, before.resp.value);
        SamePlanIsEquivalence(job, before.resp.value, answer.value);
      }
    }
  }

  /** Once a mid-run ping has failed, the next answered one aborts the command, whatever it says. */
  lemma {:induction false} AnswerAfterFailureAborts(
    s0: State, t: seq<Event>, u: seq<Event>, job: Response, d: DeployReport, answer: Response)
    requires Start(s0) && Legal(s0, t + u)
    requires Legal(s0, t) && After(s0, t).phase == Working(job) && After(s0, t).resp.None?
    requires forall e :: e in u ==> e.Apply? || e.Dump? || e == Ping(None)
    requires After(s0, t + u).phase == Dumped(job, d, false)
    ensures Legal(s0, t + u + [Ping(Some(answer))])
    ensures After(s0, t + u + [Ping(Some(answer))]).phase == Aborting(job)
  {
    NoAnswerSince(s0, t, u, job);
    GoalStability(s0, t + u, job, d, Some(answer));
  }

  lemma {:induction false} NoAnswerSince(s0: State, t: seq<Event>, u: seq<Event>, job: Response)
    requires Legal(s0, t + u)
    requires Legal(s0, t) && After(s0, t).phase == Working(job) && After(s0, t).resp.None?
    requires forall e :: e in u ==> e.Apply? || e.Dump? || e == Ping(None)
    ensures After(s0, t + u).resp.None?
    decreases |u|
  {
    if u == [] {
      assert t + u == t;
    } else {
      var v := u[..|u| - 1];
      var n := |t + v|;
      StepOf(s0, t + u, n);
      assert (t + u)[..n] == t + v && (t + u)[..n + 1] == t + u;
      assert forall e :: e in v ==> e in u;
      assert (t + u)[n] in u;
      NoAnswerSince(s0, t, v, job);
    }
  }
}
