/**
 The outside of the agent: clock, processes, files and network, all adversarial. An
 interaction uses up one unit of a budget that the caller chooses; without budget the
 agent's process stops there. A run of any length is a run with some budget.
 */
module World {
  import opened Wrappers
  import opened DeployTypes
  import opened RunLog
  import opened StatusFile
  import opened StaleBuilds

  class World {
    var budget: nat
    var clock: int
    var disk: Disk
    var builds: seq<Local>    // the build directories
    ghost var log: Log
    ghost var heard: seq<Limits>   // the limits in force after each ping on the log

    /** The log and the limits noted on it agree. */
    ghost predicate Consistent()
      reads this`log, this`heard
    {
      heard == Heard(log)
    }

    constructor (budget: nat, disk: Disk, builds: seq<Local>)
      ensures this.budget == budget && this.disk == disk && this.builds == builds && log == [] && Consistent()
    {
      this.budget := budget;
      this.clock := 0;
      this.disk := disk;
      this.builds := builds;
      log, heard := [], [];
    }

    /** Uses one unit of budget. */
    method Interact() returns (r: Step<()>)
      modifies this`budget
      ensures r.Done? ==> old(budget) >= 1 && budget == old(budget) - 1
      ensures r.Crashed? ==> budget == old(budget) == 0
    {
      if budget == 0 { return Crashed; }
      budget := budget - 1;
      return Done(());
    }

    ghost method Note(e: LogEvent)
      requires Consistent() && !e.Pinged?
      modifies this`log
      ensures log == old(log) + [e] && Consistent()
    {
      Grow(log, e);
      log := log + [e];
    }

    ghost method NotePing(result: PingStatus, limits: Limits)
      requires Consistent()
      modifies this`log, this`heard
      ensures log == old(log) + [Pinged(result, clock, limits)] && heard == old(heard) + [limits] && Consistent()
    {
      Grow(log, Pinged(result, clock, limits));
      log, heard := log + [Pinged(result, clock, limits)], heard + [limits];
    }

    method Sleep(d: int) returns (r: Step<()>)
      requires Consistent() && d >= 0
      modifies this`budget, this`clock, this`log
      ensures Consistent()
      ensures r.Done? ==>
                && old(budget) >= 1 && budget == old(budget) - 1
                && clock == old(clock) + d && log == old(log) + [Slept(d, old(clock))]
      ensures r.Crashed? ==> budget == old(budget) == 0 && log == old(log)
    {
      var _ :- Interact();
      Note(Slept(d, clock));
      clock := clock + d;
      return Done(());
    }

    /** Starting a process succeeds or raises. */
    method Popen(cmd: seq<string>) returns (r: Step<bool>)
      requires Consistent()
      modifies this`budget, this`log
      ensures Consistent()
      ensures r.Done? ==>
                && old(budget) >= 1 && budget == old(budget) - 1
                && log == old(log) + [if r.value then Started(cmd, clock) else NotStarted(clock)]
      ensures r.Crashed? ==> budget == old(budget) == 0 && log == old(log)
    {
      var _ :- Interact();
      var ok: bool := *;
      Note(if ok then Started(cmd, clock) else NotStarted(clock));
      return Done(ok);
    }

    /** A process still runs (`None`) or has ended with a code. */
    method Poll() returns (r: Step<Option<int>>)
      requires Consistent()
      modifies this`budget, this`log
      ensures Consistent()
      ensures r.Done? ==>
                && old(budget) >= 1 && budget == old(budget) - 1
                && log == old(log) + if r.value.Some? then [Exited(r.value.value, clock)] else []
      ensures r.Crashed? ==> budget == old(budget) == 0 && log == old(log)
    {
      var _ :- Interact();
      var code: Option<int> := *;
      if code.Some? {
        Note(Exited(code.value, clock));
      }
      return Done(code);
    }

    method Kill()
      requires Consistent()
      modifies this`log
      ensures log == old(log) + [Killed(clock)] && Consistent()
    {
      Note(Killed(clock));
    }

    /** Whether a path exists, or an operation on it succeeds. */
    method Probe() returns (r: Step<bool>)
      requires Consistent()
      modifies this`budget, this`log
      ensures Consistent()
      ensures r.Done? ==>
                && old(budget) >= 1 && budget == old(budget) - 1
                && log == old(log) + [Probed(r.value, clock)]
      ensures r.Crashed? ==> budget == old(budget) == 0 && log == old(log)
    {
      var _ :- Interact();
      var answer: bool := *;
      Note(Probed(answer, clock));
      return Done(answer);
    }

    /** What a process printed. */
    method Output() returns (text: Option<string>)
    {
      text := *;
    }
  }
}
