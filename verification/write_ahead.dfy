/**
 Write-ahead and crash recovery: what the status file holds when the agent speaks
 (deploy-agent/deployd/agent.py:65-73, 83-90, 205-221; common/env_status.py:35-94).
 */
module WriteAhead {
  import opened Wrappers
  import opened DeployTypes
  import opened StatusFile
  import opened Protocol

  predicate DumpsSucceed(t: seq<Event>) {
    forall i :: 0 <= i < |t| && t[i].Dump? ==> t[i].ok
  }

  /** The reports a restarted agent would send: those of the status file, filtered like every ping. */
  function Recovered(s: State): map<string, Option<PingReport>> {
    Reports(CleanEnvs(EnvsOf(s.disk)))
  }

  /** The agent was started from its status file. */
  predicate FromDisk(s: State) {
    s.phase.Boot? && Reports(s.envs) == Reports(EnvsOf(s.disk))
  }

  /** The reports of the last ping of a run, if there was one. */
  function LastSent(s0: State, t: seq<Event>): Option<map<string, Option<PingReport>>>
    requires Legal(s0, t)
  {
    if t == [] then None
    else
      var before := t[..|t| - 1];
      if t[|t| - 1].Ping? then Some(Sent(After(s0, before))) else LastSent(s0, before)
  }

  /** Reports survive a dump and a load, whatever else the statuses hold. */
  lemma ReportsSurvive(envs: map<string, StatusValue>)
    ensures Reports(EnvsOf(DiskOf(envs))) == Reports(envs)
  {
    hide DiskOf;
    hide EnvsOf;
    DiskRoundTrip(envs);
  }

  lemma CleanReports(a: map<string, StatusValue>, b: map<string, StatusValue>)
    requires Reports(a) == Reports(b)
    ensures Reports(CleanEnvs(a)) == Reports(CleanEnvs(b))
  {
    assert a.Keys == Reports(a).Keys == Reports(b).Keys == b.Keys;
    forall k | k in a
      ensures Reports(CleanEnvs(a))[k] == Reports(CleanEnvs(b))[k]
    {
      assert a[k].report == Reports(a)[k] == Reports(b)[k] == b[k].report;
    }
  }

  /** About to speak, the agent would say what the file says. */
  predicate Written(s: State) {
    s.phase.Boot? || s.phase.Dumped? ==> Sent(s) == Recovered(s)
  }

  lemma {:induction false} WrittenAlways(s0: State, t: seq<Event>)
    requires FromDisk(s0) && Legal(s0, t) && DumpsSucceed(t)
    ensures Written(After(s0, t))
  {
    if t == [] {
      CleanReports(s0.envs, EnvsOf(s0.disk));
    } else {
      var n := |t| - 1;
      StepOf(s0, t, n);
      assert t[..n + 1] == t;
      if t[n].Dump? {
        var s := After(s0, t[..n]);
        ReportsSurvive(s.envs);
        CleanReports(s.envs, EnvsOf(DiskOf(s.envs)));
      }
    }
  }

  /** Write-ahead: every ping carries exactly the reports of the status file, up to the ASCII filter. */
  lemma PingsAreWritten(s0: State, t: seq<Event>, i: nat)
    requires FromDisk(s0) && Legal(s0, t) && DumpsSucceed(t)
    requires i < |t| && t[i].Ping?
    ensures Legal(s0, t[..i]) && Sent(After(s0, t[..i])) == Recovered(After(s0, t[..i]))
  {
    StepOf(s0, t, i);
    WrittenAlways(s0, t[..i]);
  }

  /**
   Crash recovery: wherever a run stops, loading the status file gives either the
   reports that were sent last, or those that the very next step would have sent.
   */
  lemma {:induction false} CrashRecovery(s0: State, t: seq<Event>)
    requires FromDisk(s0) && Legal(s0, t) && DumpsSucceed(t)
    ensures var s := After(s0, t);
            || LastSent(s0, t) == Some(Recovered(s))
            || (Enabled(s, Ping(None)) && Sent(s) == Recovered(s))
  {
    WrittenAlways(s0, t);
    if t != [] {
      var n := |t| - 1;
      StepOf(s0, t, n);
      assert t[..n + 1] == t;
      WrittenAlways(s0, t[..n]);
      CrashRecovery(s0, t[..n]);
    }
  }

  /** When the file could not be written, the next ping says so: the current environment is AGENT_FAILED. */
  lemma FailedDumpIsReported(s0: State, t: seq<Event>)
    requires Legal(s0, t + [Dump(false)])
    ensures var s := After(s0, t + [Dump(false)]);
            && Enabled(s, Ping(None))
            && (s.curr.Some? ==> s.curr.value in Sent(s) && Sent(s)[s.curr.value].Some?
                                 && Sent(s)[s.curr.value].value.status == Some(AgentFailed))
            && Legal(s0, t) && s.disk == After(s0, t).disk
  {
    StepOf(s0, t + [Dump(false)], |t|);
    assert (t + [Dump(false)])[..|t|] == t;
    assert (t + [Dump(false)])[..|t| + 1] == t + [Dump(false)];
  }

  /** A state loaded from a status file in which every environment has a report. */
  lemma LoadedStarts(disk: Disk, curr: Option<string>, resp: Option<Response>)
    requires AllReports(EnvsOf(disk)) && (curr.Some? ==> curr.value in EnvsOf(disk))
    ensures var s := State(EnvsOf(disk), curr, resp, disk, Boot); FromDisk(s) && Start(s)
  {
  }
}
