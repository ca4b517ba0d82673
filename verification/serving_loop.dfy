/**
 When the serving loop goes on and when it ends, in every run: what the server asked for
 last and how the last goal ended decide (deploy-agent/deployd/agent.py:84-128).
 */
module ServingLoop {
  import opened Wrappers
  import opened DeployTypes
  import opened Protocol

  /** The answer to the last ping, if it was answered. */
  function LastAnswer(t: seq<Event>): Option<Response> {
    if t == [] then None else if t[|t| - 1].Ping? then t[|t| - 1].answer else LastAnswer(t[..|t| - 1])
  }

  /** The status with which process_deploy returned last. */
  function LastResult(t: seq<Event>): Option<AgentStatus> {
    if t == [] then None else if t[|t| - 1].Return? then Some(t[|t| - 1].d.status) else LastResult(t[..|t| - 1])
  }

  /** The server has something for the agent to do. */
  predicate AsksForWork(r: Option<Response>) {
    r.Some? && match r.value.opCode { case None => false case Some(Noop) => false case _ => true }
  }

  /** The last goal ended in a way that serve_build reports and gives up on. */
  predicate GaveUp(t: seq<Event>) {
    LastResult(t) == Some(AgentFailed) || LastResult(t) == Some(TooManyRetry) || LastResult(t) == Some(ScriptTimeout)
  }

  /** The last result is on its way to the server, or has arrived there. */
  predicate Told(phase: Phase) {
    phase.Returned? || phase.Finished? || ((phase.Applied? || phase.Dumped?) && phase.final)
  }

  predicate LoopKept(s: State, t: seq<Event>) {
    && (!s.phase.Boot? ==> s.resp == LastAnswer(t))
    && (GaveUp(t) ==> Told(s.phase))
    && (s.phase.Returned? || ((s.phase.Applied? || s.phase.Dumped?) && s.phase.final) ==>
          LastResult(t) == Some(s.phase.d.status))
    && (s.phase.Working? || s.phase.Aborting? || ((s.phase.Applied? || s.phase.Dumped?) && !s.phase.final) ==>
          s.phase.job.deployGoal.Some?)
  }

  lemma StepKeepsLoop(s: State, t: seq<Event>, e: Event)
    requires LoopKept(s, t) && Enabled(s, e)
    ensures LoopKept(Next(s, e), t + [e])
  {
    assert (t + [e])[..|t|] == t;
  }

  lemma {:induction false} LoopAlways(s0: State, t: seq<Event>)
    requires s0.phase.Boot? && Legal(s0, t)
    ensures LoopKept(After(s0, t), t)
  {
    if t != [] {
      var n := |t| - 1;
      StepOf(s0, t, n);
      LoopAlways(s0, t[..n]);
      StepKeepsLoop(After(s0, t[..n]), t[..n], t[n]);
      assert t[..n] + [t[n]] == t && t[..n + 1] == t;
    }
  }

  /**
   The last step of a run, in terms of the steps before. A goal is taken up only if the last
   answer asks for it and no goal was given up; the loop is left only if the last answer asks
   for nothing, or after a goal was given up and the server told; and then it is left for good.
   */
  lemma LoopGoesOn(s0: State, t: seq<Event>)
    requires s0.phase.Boot? && Legal(s0, t) && t != []
    ensures var before := t[..|t| - 1]; var e := t[|t| - 1];
            && (e.Begin? ==> LastAnswer(before) == Some(e.job) && AsksForWork(Some(e.job)) && e.job.deployGoal.Some?)
            && (e.Return? && e.job.deployGoal.None? ==> LastAnswer(before) == Some(e.job) && AsksForWork(Some(e.job)))
            && (e.Begin? || e.Return? || e.Leave? ==> !GaveUp(before))
            && (e.Leave? ==> !AsksForWork(LastAnswer(before)))
            && (After(s0, t).phase.Finished? ==> e.Leave? || (e.Ping? && GaveUp(t)))
            && (After(s0, t).phase.Head? ==> !GaveUp(t))
            && !After(s0, before).phase.Finished?
  {
    var n := |t| - 1;
    StepOf(s0, t, n);
    LoopAlways(s0, t[..n]);
    LoopAlways(s0, t);
    assert t[..n + 1] == t;
  }
}
