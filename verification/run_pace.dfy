/**
 The local variables of `run_cmd` against its log: what each step of the loop keeps
 (deploy-agent/deployd/common/executor.py:66-180).
 */
module RunPace {
  import opened Wrappers
  import opened DeployTypes
  import opened RunLog

  /**
   `run_cmd` between two steps: its log, its variables, the clock, when the current
   attempt began, and the interactions it has used.
   */
  datatype Pace = Pace(
    log: Log, t0: int, now: int, start: int, initStart: int, began: int, retries: int, interval: int, spent: int)

  function Add(p: Pace, e: LogEvent): Pace { p.(log := p.log + [e]) }

  function LongestWait(l: Limits): int { Max(l.pollInterval, l.maxSleepInterval) }

  /** No two pings of a run are further apart than this. */
  function Gap(l: Limits): int { Max(Max(l.minRunningTime, 1) + 1, LongestWait(l)) }

  /**
   The gap stays within MIN_RUNNING_TIME and the longest wait exactly if at least a second
   must pass between pings, or none and the longest wait is more than a second.
   */
  lemma GapBound(l: Limits)
    requires Sane(l)
    ensures Gap(l) <= l.minRunningTime + LongestWait(l)
            <==> l.minRunningTime >= 1 || (l.minRunningTime == 0 && LongestWait(l) >= 2)
  {
  }

  /** An attempt, with its back-off, needs no more than this many interactions with the outside. */
  function AttemptCost(l: Limits): int { 4 * Max(l.maxRunningTime + l.pollInterval, 0) + 6 }

  /** No ping changed the limits. */
  predicate Steady(p: Pace, l: Limits) { Sane(l) && Fixed(p.log, l) }

  predicate Books(p: Pace) {
    && p.retries == Failures(p.log)
    && p.start == LastPingAt(p.log, p.t0)
    && p.initStart == LastFailureAt(p.log, p.t0)
    && OneAtATime(p.log)
    && LastPing(p.log) != Some(PlanChanged)
    && (p.log != [] ==> !Last(p.log).Killed? && !(Last(p.log).Exited? && Last(p.log).code == 0))
  }

  /** What has been kept so far, each part if the limits allow it. */
  predicate Promises(p: Pace, l: Limits) {
    && BackedOff(p.log, l, p.t0)
    && (TimeLimited(l) && ShortWaits(l) ==> InTime(p.log, l, p.t0))
    && (PingsWithinDay(l) ==> PingedOften(p.log, Gap(l), p.t0))
  }

  function Silence(p: Pace): int { p.now - p.start }
  function Elapsed(p: Pace): int { p.now - p.initStart }

  predicate Calm(p: Pace, l: Limits) {
    PingsWithinDay(l) ==> 0 <= Silence(p) <= Max(l.minRunningTime, Max(LongestWait(l) - 1, 1))
  }

  predicate Silent(p: Pace, l: Limits) { PingsWithinDay(l) ==> 0 <= Silence(p) <= Gap(l) }

  /** About to start attempt number `retries`. */
  predicate Ready(p: Pace, l: Limits) {
    && Books(p) && Starts(p.log) == Ends(p.log) <= p.retries
    && (Steady(p, l) ==>
          && Promises(p, l)
          && p.interval == Interval(l, p.retries)
          && Elapsed(p) == (if p.retries == 0 then 0 else Interval(l, p.retries - 1))
          && Calm(p, l)
          && (TimeLimited(l) ==> p.spent <= p.retries * AttemptCost(l)))
  }

  /** How long the process has run, and what that has cost. */
  predicate Spends(p: Pace, l: Limits) {
    TimeLimited(l) ==>
      && 0 <= p.now - p.began <= Seconds(Elapsed(p))
      && p.now - p.began <= Max(l.maxRunningTime - 1 + l.pollInterval, 0)
      && p.spent <= p.retries * AttemptCost(l) + 2 + 4 * (p.now - p.began)
  }

  /** The process of attempt number `retries` runs. */
  predicate Busy(p: Pace, l: Limits) {
    && Books(p) && Starts(p.log) == Ends(p.log) + 1 <= p.retries + 1
    && (Steady(p, l) ==>
          && Promises(p, l)
          && p.interval == Interval(l, p.retries)
          && Elapsed(p) >= 0
          && (TimeLimited(l) && ShortWaits(l) ==> Elapsed(p) < DAY)
          && Calm(p, l)
          && Spends(p, l))
  }

  /** Attempt number `retries - 1` has just failed. */
  predicate Failed(p: Pace, l: Limits) {
    && Books(p) && Starts(p.log) == Ends(p.log) <= p.retries && p.retries >= 1
    && (Steady(p, l) ==>
          && Promises(p, l)
          && p.interval == Interval(l, p.retries - 1)
          && p.now == p.initStart
          && Calm(p, l)
          && (TimeLimited(l) ==> p.spent + 4 <= p.retries * AttemptCost(l)))
  }

  lemma AttemptStarts(p: Pace, l: Limits, cmd: seq<string>)
    requires Ready(p, l)
    ensures Busy(Add(p, Started(cmd, p.now)).(began := p.now, spent := p.spent + 2), l)
  {
    Grow(p.log, Started(cmd, p.now));
    if Sane(l) {
      IntervalNonNegative(l, if p.retries <= 0 then 0 else p.retries - 1);
    }
  }

  lemma AttemptDoesNotStart(p: Pace, l: Limits)
    requires Ready(p, l)
    ensures Failed(Add(p, NotStarted(p.now)).(retries := p.retries + 1, initStart := p.now, spent := p.spent + 1), l)
  {
    Grow(p.log, NotStarted(p.now));
    NextCost(p.retries, AttemptCost(l));
  }

  lemma NextCost(k: int, c: int)
    ensures (k + 1) * c == k * c + c
  {
  }

  /** A ping that does not end the run. */
  lemma PingWhileBusy(p: Pace, l: Limits, result: PingStatus, limits: Limits)
    requires Busy(p, l) && result != PlanChanged
    ensures var q := Add(p, Pinged(result, p.now, limits)).(start := p.now);
            Busy(q, l)
  {
    Grow(p.log, Pinged(result, p.now, limits));
  }

  /** A sleep between two polls, after the checks let the process go on; `used` interactions since the last poll. */
  lemma SleepWhileBusy(p: Pace, l: Limits, d: int, used: int)
    requires Busy(p, l) && 0 <= used <= 4
    requires Steady(p, l) ==>
               && (p.start == p.now || Seconds(Silence(p)) < l.minRunningTime)
               && Seconds(Elapsed(p)) < l.maxRunningTime
               && d == Min(l.pollInterval, Max(l.minRunningTime - Seconds(Silence(p)), 1))
    ensures Busy(Add(p, Slept(d, p.now)).(now := p.now + d, spent := p.spent + used), l)
  {
    var q := Add(p, Slept(d, p.now)).(now := p.now + d, spent := p.spent + used);
    Grow(p.log, Slept(d, p.now));
    if Steady(q, l) {
      assert Steady(p, l) && 1 <= d <= l.pollInterval;
      SleepSpends(p, l, d, used);
      SleepIsCalm(p, l, d);
      if TimeLimited(l) && ShortWaits(l) {
        SecondsShort(Elapsed(p));
      }
    }
  }

  lemma SleepSpends(p: Pace, l: Limits, d: int, used: int)
    requires Spends(p, l) && 0 <= used <= 4 && 1 <= d <= l.pollInterval && Elapsed(p) >= 0
    requires Seconds(Elapsed(p)) < l.maxRunningTime
    ensures Spends(Add(p, Slept(d, p.now)).(now := p.now + d, spent := p.spent + used), l)
  {
    if TimeLimited(l) {
      SecondsAdd(Elapsed(p), d);
    }
  }

  lemma SleepIsCalm(p: Pace, l: Limits, d: int)
    requires Sane(l) && Calm(p, l)
    requires p.start == p.now || Seconds(Silence(p)) < l.minRunningTime
    requires d == Min(l.pollInterval, Max(l.minRunningTime - Seconds(Silence(p)), 1))
    ensures Calm(Add(p, Slept(d, p.now)).(now := p.now + d), l)
    ensures PingsWithinDay(l) ==> Silence(p) <= Gap(l)
  {
    if PingsWithinDay(l) {
      SecondsShort(Silence(p));
    }
  }

  lemma ProcessFails(p: Pace, l: Limits, code: int)
    requires Busy(p, l) && code != 0
    ensures Failed(Add(p, Exited(code, p.now)).(retries := p.retries + 1, initStart := p.now), l)
  {
    Grow(p.log, Exited(code, p.now));
    NextCost(p.retries, AttemptCost(l));
  }

  /** The first part of the wait after a failure. */
  lemma FirstWait(p: Pace, l: Limits, d: int)
    requires Failed(p, l)
    requires Steady(p, l) ==> d == Min(p.interval, Max(l.minRunningTime - Seconds(Silence(p)), 1))
    ensures var q := Add(p, Slept(d, p.now)).(now := p.now + d);
            && Books(q) && Starts(q.log) == Ends(q.log) <= q.retries
            && (Steady(q, l) ==>
                  && Promises(q, l) && 0 <= d <= q.interval && Elapsed(q) == d
                  && Silent(q, l)
                  && (d < q.interval ==> d >= 1)
                  && (PingsWithinDay(l) && Silence(q) < l.minRunningTime ==> d == q.interval))
  {
    Grow(p.log, Slept(d, p.now));
    if Sane(l) {
      IntervalNonNegative(l, p.retries - 1);
    }
    if Steady(p, l) && PingsWithinDay(l) {
      SecondsShort(Silence(p));
    }
  }

  predicate Waited(p: Pace, l: Limits, d: int) {
    && Books(p) && Starts(p.log) == Ends(p.log) <= p.retries && p.retries >= 1
    && (Steady(p, l) ==>
          && Promises(p, l) && 0 <= d <= p.interval && Elapsed(p) == d
          && p.interval == Interval(l, p.retries - 1)
          && (d < p.interval ==> d >= 1)
          && (PingsWithinDay(l) ==>
                && 0 <= Silence(p)
                && (d < p.interval ==> Silence(p) == 0)
                && (d == p.interval ==> Calm(p, l)))
          && (TimeLimited(l) ==> p.spent <= p.retries * AttemptCost(l)))
  }

  /** After the first part of the wait the server was pinged. */
  lemma PingWhileWaiting(p: Pace, l: Limits, d: int, result: PingStatus, limits: Limits, used: int)
    requires Books(p) && Starts(p.log) == Ends(p.log) <= p.retries && p.retries >= 1 && result != PlanChanged
    requires Steady(p, l) ==>
               && Promises(p, l) && 0 <= d <= p.interval && Elapsed(p) == d
               && Silent(p, l) && (d < p.interval ==> d >= 1)
               && p.interval == Interval(l, p.retries - 1)
               && (TimeLimited(l) ==> p.spent + used <= p.retries * AttemptCost(l))
    ensures Waited(Add(p, Pinged(result, p.now, limits)).(start := p.now, spent := p.spent + used), l, d)
  {
    Grow(p.log, Pinged(result, p.now, limits));
    if Sane(l) {
      IntervalNonNegative(l, p.retries - 1);
    }
  }

  /** The rest of the wait, and the next interval. */
  lemma SecondWait(p: Pace, l: Limits, d: int, rest: int)
    requires Waited(p, l, d)
    requires Steady(p, l) ==> rest == p.interval - d
    ensures var q := (if rest > 0 then Add(p, Slept(rest, p.now)).(now := p.now + rest) else p);
            Steady(q, l) ==> Steady(p, l)
    ensures var q := (if rest > 0 then Add(p, Slept(rest, p.now)).(now := p.now + rest) else p);
            Ready(q.(interval := Min(p.interval * l.backOff, l.maxSleepInterval)), l)
  {
    Grow(p.log, Slept(rest, p.now));
    if Sane(l) {
      IntervalNonNegative(l, p.retries - 1);
    }
  }

  // ---------- The whole run ----------

  /** What a finished run of `cmd` did and returned, whatever the server did with the limits. */
  predicate Outcome(log: Log, cmd: seq<string>, d: DeployReport) {
    && d.status in {Succeeded, AbortedByServer, ScriptTimeout, TooManyRetry}
    && d.status == Verdict(log)
    && d.retryTimes == Failures(log)
    && d.errorCode == (if d.status == ScriptTimeout then 1 else LastCode(log))
    && OneAtATime(log) && Starts(log) == Ends(log)
    && OnlyRuns(log, cmd)
  }

  /**
   What it did if no ping changed the limits `l`: the retries and the back-off, whatever
   the limits; the time limit, if no wait steps over the end of the day; the pings, if the
   time between two of them does not.
   */
  predicate SteadyOutcome(log: Log, l: Limits, t0: int, now: int, d: DeployReport) {
    && Counted(log, l, t0, now, d)
    && (TimeLimited(l) && ShortWaits(l) ==> OnTime(log, l, t0, now, d))
    && (PingsWithinDay(l) ==> PingedOften(log, Gap(l), t0) && 0 <= now - LastPingAt(log, t0) <= Gap(l))
  }

  predicate Counted(log: Log, l: Limits, t0: int, now: int, d: DeployReport) {
    && (d.status == TooManyRetry <==> Failures(log) == Max(0, l.maxRetry))
    && Starts(log) <= Max(0, l.maxRetry)
    && BackedOff(log, l, t0)
    && (d.status == ScriptTimeout ==> Seconds(now - LastFailureAt(log, t0)) >= l.maxRunningTime)
  }

  predicate OnTime(log: Log, l: Limits, t0: int, now: int, d: DeployReport) {
    && InTime(log, l, t0)
    && (d.status == ScriptTimeout ==> now - LastFailureAt(log, t0) >= l.maxRunningTime)
  }

  /** Attempts, with their back-offs, for all retries. */
  function RunCost(l: Limits): int { Max(0, l.maxRetry) * AttemptCost(l) }

  lemma CostPositive(l: Limits)
    ensures RunCost(l) >= 0
  {
    Product(Max(0, l.maxRetry), AttemptCost(l));
  }

  /** The command `cmd` is all that runs, and as long as the limits stay there are retries left. */
  predicate Within(p: Pace, l: Limits, cmd: seq<string>) {
    OnlyRuns(p.log, cmd) && (Steady(p, l) ==> p.retries < l.maxRetry)
  }

  /** The server changed the plan: the process is killed. */
  lemma StoppedByServer(p: Pace, l: Limits, cmd: seq<string>, limits: Limits, d: DeployReport)
    requires Busy(p, l) && Within(p, l, cmd)
    requires d.status == AbortedByServer && d.retryTimes == p.retries && d.errorCode == LastCode(p.log)
    ensures var log := p.log + [Pinged(PlanChanged, p.now, limits)] + [Killed(p.now)];
            && Outcome(log, cmd, d)
            && (Steady(p.(log := log), l) ==> SteadyOutcome(log, l, p.t0, p.now, d))
  {
    var pinged := p.log + [Pinged(PlanChanged, p.now, limits)];
    var log := pinged + [Killed(p.now)];
    Grow(p.log, Pinged(PlanChanged, p.now, limits));
    Grow(pinged, Killed(p.now));
    assert LastPing(pinged) == Some(PlanChanged) && OneAtATime(pinged) && Failures(pinged) == p.retries;
    assert Fixed(log, l) ==> Fixed(pinged, l);
    assert Fixed(pinged, l) ==> Fixed(p.log, l);
    if Steady(p.(log := log), l) {
      assert Promises(p.(log := pinged), l);
    }
  }

  /** The attempt reached the time limit: the process is killed. */
  lemma StoppedByTimeout(p: Pace, l: Limits, cmd: seq<string>, d: DeployReport)
    requires Busy(p, l) && Within(p, l, cmd)
    requires d.status == ScriptTimeout && d.retryTimes == p.retries && d.errorCode == 1
    requires Steady(p, l) ==> Seconds(Elapsed(p)) >= l.maxRunningTime
    ensures var log := p.log + [Killed(p.now)];
            && Outcome(log, cmd, d)
            && (Steady(p.(log := log), l) ==> SteadyOutcome(log, l, p.t0, p.now, d))
  {
    Grow(p.log, Killed(p.now));
    if Steady(p, l) && TimeLimited(l) && ShortWaits(l) {
      SecondsShort(Elapsed(p));
    }
  }

  /** The process exits with code 0. */
  lemma EndsWell(p: Pace, l: Limits, cmd: seq<string>, d: DeployReport)
    requires Busy(p, l) && Within(p, l, cmd) && d.status == Succeeded && d.errorCode == 0 && d.retryTimes == p.retries
    ensures var log := p.log + [Exited(0, p.now)];
            && Outcome(log, cmd, d)
            && (Steady(p.(log := log), l) ==> SteadyOutcome(log, l, p.t0, p.now, d))
  {
    Grow(p.log, Exited(0, p.now));
  }

  /** No retries are left after a failure. */
  lemma GivesUp(p: Pace, l: Limits, cmd: seq<string>, d: DeployReport)
    requires Failed(p, l) && OnlyRuns(p.log, cmd)
    requires d.status == TooManyRetry && d.retryTimes == p.retries && d.errorCode == LastCode(p.log)
    requires Steady(p, l) ==> p.retries == l.maxRetry
    ensures Outcome(p.log, cmd, d)
    ensures Steady(p, l) ==> SteadyOutcome(p.log, l, p.t0, p.now, d)
  {
  }

  /** No retry was allowed in the first place, or the server took the rest away. */
  lemma NoRetries(p: Pace, l: Limits, cmd: seq<string>, d: DeployReport)
    requires Ready(p, l) && OnlyRuns(p.log, cmd)
    requires d.status == TooManyRetry && d.retryTimes == p.retries && d.errorCode == LastCode(p.log)
    requires Steady(p, l) ==> p.retries == 0 && l.maxRetry <= 0
    ensures Outcome(p.log, cmd, d)
    ensures Steady(p, l) ==> SteadyOutcome(p.log, l, p.t0, p.now, d)
  {
  }

  /** The plan changed during the back-off, when no process runs. */
  lemma StoppedWaiting(p: Pace, l: Limits, cmd: seq<string>, limits: Limits, d: DeployReport)
    requires Books(p) && Starts(p.log) == Ends(p.log) <= p.retries && Within(p, l, cmd)
    requires d.status == AbortedByServer && d.retryTimes == p.retries && d.errorCode == LastCode(p.log)
    requires Steady(p, l) ==> Promises(p, l) && Silent(p, l)
    ensures var log := p.log + [Pinged(PlanChanged, p.now, limits)];
            && Outcome(log, cmd, d)
            && (Steady(p.(log := log), l) ==> SteadyOutcome(log, l, p.t0, p.now, d))
  {
    Grow(p.log, Pinged(PlanChanged, p.now, limits));
  }

  lemma CostsAddUp(k: int, n: int, c: int)
    requires 0 <= k < n && c >= 0
    ensures k * c + c <= n * c
  {
    NextCost(k, c);
    assert (n - (k + 1)) * c >= 0 by { Product(n - (k + 1), c); }
    assert n * c == (k + 1) * c + (n - (k + 1)) * c;
  }

  // ---------- The steps of `run_cmd`, in the terms of its code ----------

  /** The executor's current limits are `l` unless a ping changed them. */
  predicate Believes(p: Pace, l: Limits, limits: Limits) {
    Sane(limits) && (Fixed(p.log, l) ==> limits == l)
  }

  lemma WatchPing(p: Pace, l: Limits, cmd: seq<string>, result: PingStatus, limits: Limits)
    requires Busy(p, l) && Within(p, l, cmd) && result != PlanChanged && Sane(limits)
    ensures var q := Add(p, Pinged(result, p.now, limits)).(start := p.now);
            Busy(q, l) && Within(q, l, cmd) && Believes(q, l, limits)
  {
    PingWhileBusy(p, l, result, limits);
    Grow(p.log, Pinged(result, p.now, limits));
  }

  lemma WatchSleep(p: Pace, l: Limits, cmd: seq<string>, limits: Limits, d: int, used: int)
    requires Busy(p, l) && Within(p, l, cmd) && Believes(p, l, limits) && 0 <= used <= 4
    requires p.start == p.now || Seconds(Silence(p)) < limits.minRunningTime
    requires Seconds(Elapsed(p)) < limits.maxRunningTime
    requires d == Min(limits.pollInterval, Max(limits.minRunningTime - Seconds(Silence(p)), 1))
    ensures d >= 1
    ensures var q := Add(p, Slept(d, p.now)).(now := p.now + d, spent := p.spent + used);
            Busy(q, l) && Within(q, l, cmd) && Believes(q, l, limits)
  {
    SleepWhileBusy(p, l, d, used);
    Grow(p.log, Slept(d, p.now));
  }

  /** The run is over with `d`. */
  predicate RunOver(p: Pace, l: Limits, cmd: seq<string>, d: DeployReport) {
    Outcome(p.log, cmd, d) && (Steady(p, l) ==> SteadyOutcome(p.log, l, p.t0, p.now, d))
  }

  /** The run has used `spent` interactions, no more than all its retries may need. */
  predicate Afforded(p: Pace, l: Limits, spent: int) {
    Steady(p, l) && TimeLimited(l) ==> spent <= RunCost(l)
  }

  lemma WatchAffords(p: Pace, l: Limits, cmd: seq<string>, used: int)
    requires Busy(p, l) && Within(p, l, cmd) && -1 <= used <= 4 && p.retries >= 0
    ensures Afforded(p, l, p.spent + used)
  {
    if Steady(p, l) {
      CostsAddUp(p.retries, l.maxRetry, AttemptCost(l));
    }
  }

  /** What is affordable stays so when the log grows. */
  lemma StillAffords(p: Pace, e: LogEvent, l: Limits, spent: int)
    requires Afforded(p, l, spent)
    ensures Afforded(p.(log := p.log + [e]), l, spent)
  {
    Grow(p.log, e);
  }

  lemma WatchTimeout(p: Pace, l: Limits, cmd: seq<string>, limits: Limits, used: nat, d: DeployReport)
    requires used <= 2 && p.retries >= 0
    requires Busy(p, l) && Within(p, l, cmd) && Believes(p, l, limits)
    requires Seconds(Elapsed(p)) >= limits.maxRunningTime
    requires d.status == ScriptTimeout && d.retryTimes == p.retries && d.errorCode == 1
    ensures RunOver(p.(log := p.log + [Killed(p.now)]), l, cmd, d)
    ensures Afforded(p.(log := p.log + [Killed(p.now)]), l, p.spent + used)
  {
    StoppedByTimeout(p, l, cmd, d);
    WatchAffords(p, l, cmd, used);
    StillAffords(p, Killed(p.now), l, p.spent + used);
  }

  lemma WatchAbort(p: Pace, l: Limits, cmd: seq<string>, limits: Limits, d: DeployReport)
    requires Busy(p, l) && Within(p, l, cmd)
    requires d.status == AbortedByServer && d.retryTimes == p.retries && d.errorCode == LastCode(p.log)
    requires p.retries >= 0
    ensures var q := p.(log := p.log + [Pinged(PlanChanged, p.now, limits)] + [Killed(p.now)]);
            RunOver(q, l, cmd, d) && Afforded(q, l, p.spent + 2)
  {
    StoppedByServer(p, l, cmd, limits, d);
    var q := Add(p, Pinged(PlanChanged, p.now, limits));
    WatchAffords(p, l, cmd, 2);
    StillAffords(p, Pinged(PlanChanged, p.now, limits), l, p.spent + 2);
    StillAffords(q, Killed(p.now), l, p.spent + 2);
  }

  /** A running process was polled: it goes on, or its end is on the log. */
  predicate Polled(p: Pace, l: Limits, cmd: seq<string>, limits: Limits, code: Option<int>) {
    if code.None? then Busy(p, l) && Within(p, l, cmd) && Believes(p, l, limits)
    else
      && p.log != [] && Last(p.log) == Exited(code.value, p.now)
      && var q := p.(log := Front(p.log));
      Busy(q, l) && Within(q, l, cmd) && Believes(q, l, limits)
  }

  /** What polling adds to the log. */
  function PollLog(code: Option<int>, now: int): Log {
    if code.Some? then [Exited(code.value, now)] else []
  }

  lemma PollKeeps(p: Pace, l: Limits, cmd: seq<string>, limits: Limits, code: Option<int>)
    requires Busy(p, l) && Within(p, l, cmd) && Believes(p, l, limits)
    ensures Polled(p.(log := p.log + PollLog(code, p.now)), l, cmd, limits, code)
    ensures code.None? ==> p.log + PollLog(code, p.now) == p.log
  {
    if code.Some? {
      Grow(p.log, Exited(code.value, p.now));
    } else {
      assert p.log + PollLog(code, p.now) == p.log;
    }
  }

  lemma StillRuns(p: Pace, l: Limits, cmd: seq<string>, limits: Limits)
    requires Polled(p, l, cmd, limits, None)
    ensures Busy(p, l) && Within(p, l, cmd) && Believes(p, l, limits)
  {
  }

  // ---------- The back-off, in the terms of the code ----------

  /** A failed attempt after which there are retries left. */
  predicate Retrying(p: Pace, l: Limits, cmd: seq<string>, limits: Limits) {
    Failed(p, l) && Within(p, l, cmd) && Believes(p, l, limits) && p.interval >= 0
  }

  /** After the first sleep, of length `d`, of the back-off. */
  predicate HalfWaited(p: Pace, l: Limits, cmd: seq<string>, limits: Limits, d: int) {
    && Books(p) && Starts(p.log) == Ends(p.log) <= p.retries && p.retries >= 1
    && Within(p, l, cmd) && Believes(p, l, limits) && 0 <= d <= p.interval
    && (Steady(p, l) ==>
          && Promises(p, l) && 0 <= d <= p.interval && Elapsed(p) == d
          && p.interval == Interval(l, p.retries - 1)
          && Silent(p, l)
          && (d < p.interval ==> d >= 1)
          && (PingsWithinDay(l) && Silence(p) < l.minRunningTime ==> d == p.interval)
          && (TimeLimited(l) ==> p.spent + 3 <= p.retries * AttemptCost(l)))
  }

  /** After the ping, if one was due. */
  predicate FullyPinged(p: Pace, l: Limits, cmd: seq<string>, limits: Limits, d: int) {
    && Waited(p, l, d) && Within(p, l, cmd) && Believes(p, l, limits) && 0 <= d <= p.interval
    && (Steady(p, l) && TimeLimited(l) ==> p.spent + 1 <= p.retries * AttemptCost(l))
  }

  /** An attempt can start. */
  predicate CanStart(p: Pace, l: Limits, cmd: seq<string>, limits: Limits) {
    && Ready(p, l) && OnlyRuns(p.log, cmd) && Believes(p, l, limits) && p.interval >= 0 && p.retries >= 0
    && (Steady(p, l) ==> p.retries == 0 || p.retries < l.maxRetry)
  }

  lemma WaitSleeps(p: Pace, l: Limits, cmd: seq<string>, limits: Limits, d: int)
    requires Retrying(p, l, cmd, limits)
    requires d == Min(p.interval, Max(limits.minRunningTime - Seconds(Silence(p)), 1))
    ensures 0 <= d
    ensures HalfWaited(Add(p, Slept(d, p.now)).(now := p.now + d, spent := p.spent + 1), l, cmd, limits, d)
  {
    FirstWait(p, l, d);
    Grow(p.log, Slept(d, p.now));
  }

  lemma WaitPings(p: Pace, l: Limits, cmd: seq<string>, limits: Limits, d: int, result: PingStatus, after: Limits)
    requires HalfWaited(p, l, cmd, limits, d) && result != PlanChanged && Sane(after)
    ensures FullyPinged(Add(p, Pinged(result, p.now, after)).(start := p.now, spent := p.spent + 2), l, cmd, after, d)
  {
    PingWhileWaiting(p, l, d, result, after, 2);
    Grow(p.log, Pinged(result, p.now, after));
  }

  lemma WaitNotPinged(p: Pace, l: Limits, cmd: seq<string>, limits: Limits, d: int)
    requires HalfWaited(p, l, cmd, limits, d) && Seconds(Silence(p)) < limits.minRunningTime
    ensures FullyPinged(p, l, cmd, limits, d)
  {
    if Steady(p, l) && PingsWithinDay(l) {
      SecondsShort(Silence(p));
    }
  }

  lemma WaitAborts(p: Pace, l: Limits, cmd: seq<string>, limits: Limits, d: int, after: Limits, report: DeployReport)
    requires HalfWaited(p, l, cmd, limits, d)
    requires report.status == AbortedByServer && report.retryTimes == p.retries && report.errorCode == LastCode(p.log)
    ensures var q := p.(log := p.log + [Pinged(PlanChanged, p.now, after)]);
            RunOver(q, l, cmd, report) && Afforded(q, l, p.spent + 2)
  {
    StoppedWaiting(p, l, cmd, after, report);
    WaitAffords(p, l, cmd, 2);
    StillAffords(p, Pinged(PlanChanged, p.now, after), l, p.spent + 2);
  }

  lemma WaitEnds(p: Pace, l: Limits, cmd: seq<string>, limits: Limits, d: int)
    requires FullyPinged(p, l, cmd, limits, d)
    ensures var rest := p.interval - d;
            var q := if rest > 0 then Add(p, Slept(rest, p.now)).(now := p.now + rest, spent := p.spent + 1) else p;
            CanStart(q.(interval := Min(p.interval * limits.backOff, limits.maxSleepInterval)), l, cmd, limits)
  {
    var rest := p.interval - d;
    SecondWait(p, l, d, rest);
    Grow(p.log, Slept(rest, p.now));
    Product(p.interval, limits.backOff);
  }

  lemma WaitAffords(p: Pace, l: Limits, cmd: seq<string>, used: int)
    requires Within(p, l, cmd) && p.retries >= 1
    requires Steady(p, l) && TimeLimited(l) ==> p.spent + used <= p.retries * AttemptCost(l)
    ensures Afforded(p, l, p.spent + used)
  {
    if Steady(p, l) {
      CostsAddUp(p.retries - 1, l.maxRetry, AttemptCost(l));
      NextCost(p.retries - 1, AttemptCost(l));
    }
  }

  lemma Begins(l: Limits, cmd: seq<string>, t0: int)
    requires Sane(l)
    ensures CanStart(Pace([], t0, t0, t0, t0, t0, 0, l.pollInterval, 0), l, cmd, l) && LastCode([]) == 0
  {
  }

  lemma RunStarts(p: Pace, l: Limits, cmd: seq<string>, limits: Limits)
    requires CanStart(p, l, cmd, limits) && p.retries < limits.maxRetry
    ensures var q := Add(p, Started(cmd, p.now)).(began := p.now, spent := p.spent + 2);
            Busy(q, l) && Within(q, l, cmd) && Believes(q, l, limits)
  {
    AttemptStarts(p, l, cmd);
    Grow(p.log, Started(cmd, p.now));
  }

  lemma RunDoesNotStart(p: Pace, l: Limits, cmd: seq<string>, limits: Limits)
    requires CanStart(p, l, cmd, limits) && p.retries < limits.maxRetry
    ensures HasFailed(Add(p, NotStarted(p.now)).(retries := p.retries + 1, initStart := p.now, spent := p.spent + 1),
                      l, cmd, limits)
    ensures LastCode(p.log + [NotStarted(p.now)]) == 1
  {
    AttemptDoesNotStart(p, l);
    Grow(p.log, NotStarted(p.now));
  }

  /** An attempt has failed; whether there are retries left is still to be seen. */
  predicate HasFailed(p: Pace, l: Limits, cmd: seq<string>, limits: Limits) {
    && Failed(p, l) && OnlyRuns(p.log, cmd) && Believes(p, l, limits)
    && (Steady(p, l) ==> p.retries <= l.maxRetry)
  }

  lemma RunEndsWell(p: Pace, l: Limits, cmd: seq<string>, limits: Limits, d: DeployReport)
    requires Polled(p, l, cmd, limits, Some(0))
    requires d.status == Succeeded && d.errorCode == 0 && d.retryTimes == p.retries >= 0
    ensures RunOver(p, l, cmd, d) && Afforded(p, l, p.spent)
  {
    var q := p.(log := Front(p.log));
    EndsWell(q, l, cmd, d);
    assert p.log == Front(p.log) + [Last(p.log)];
    WatchAffords(q, l, cmd, 0);
    StillAffords(q, Last(p.log), l, p.spent);
  }

  lemma RunFails(p: Pace, l: Limits, cmd: seq<string>, limits: Limits, code: int)
    requires Polled(p, l, cmd, limits, Some(code)) && code != 0
    ensures HasFailed(p.(retries := p.retries + 1, initStart := p.now), l, cmd, limits) && LastCode(p.log) == code
  {
    ProcessFails(p.(log := Front(p.log)), l, code);
    assert p.log == Front(p.log) + [Last(p.log)];
    Grow(Front(p.log), Last(p.log));
  }

  lemma RunGivesUp(p: Pace, l: Limits, cmd: seq<string>, limits: Limits, d: DeployReport)
    requires HasFailed(p, l, cmd, limits) && p.retries >= limits.maxRetry
    requires d.status == TooManyRetry && d.retryTimes == p.retries && d.errorCode == LastCode(p.log)
    ensures RunOver(p, l, cmd, d) && Afforded(p, l, p.spent)
  {
    GivesUp(p, l, cmd, d);
  }

  lemma RunRetries(p: Pace, l: Limits, cmd: seq<string>, limits: Limits)
    requires HasFailed(p, l, cmd, limits) && p.retries < limits.maxRetry && p.interval >= 0
    ensures Retrying(p, l, cmd, limits)
  {
  }

  lemma RunNeverStarts(p: Pace, l: Limits, cmd: seq<string>, limits: Limits, d: DeployReport)
    requires CanStart(p, l, cmd, limits) && p.retries >= limits.maxRetry
    requires d.status == TooManyRetry && d.retryTimes == p.retries && d.errorCode == LastCode(p.log)
    ensures RunOver(p, l, cmd, d) && Afforded(p, l, p.spent)
  {
    NoRetries(p, l, cmd, d);
  }

  lemma StartAffords(p: Pace, l: Limits, cmd: seq<string>, limits: Limits)
    requires CanStart(p, l, cmd, limits) && p.retries < limits.maxRetry
    ensures Afforded(p, l, p.spent) && p.interval >= 0
  {
    if Steady(p, l) {
      CostsAddUp(p.retries, l.maxRetry, AttemptCost(l));
    }
  }

  lemma RetryAffords(p: Pace, l: Limits, cmd: seq<string>, limits: Limits)
    requires Retrying(p, l, cmd, limits)
    ensures Afforded(p, l, p.spent)
  {
    WaitAffords(p, l, cmd, 0);
  }

  lemma HalfAffords(p: Pace, l: Limits, cmd: seq<string>, limits: Limits, d: int)
    requires HalfWaited(p, l, cmd, limits, d)
    ensures Afforded(p, l, p.spent) && Afforded(p, l, p.spent + 1)
  {
    WaitAffords(p, l, cmd, 0);
    WaitAffords(p, l, cmd, 1);
  }

  lemma PingedAffords(p: Pace, l: Limits, cmd: seq<string>, limits: Limits, d: int)
    requires FullyPinged(p, l, cmd, limits, d)
    ensures Afforded(p, l, p.spent)
  {
    WaitAffords(p, l, cmd, 0);
  }

  lemma RunSaid(p: Pace, l: Limits, cmd: seq<string>, d: DeployReport)
    requires RunOver(p, l, cmd, d)
    ensures Outcome(p.log, cmd, d)
    ensures Sane(l) && Fixed(p.log, l) ==> SteadyOutcome(p.log, l, p.t0, p.now, d)
  {
  }

  lemma RunCosts(p: Pace, l: Limits, total: int)
    requires Afforded(p, l, total)
    ensures Sane(l) && TimeLimited(l) && Fixed(p.log, l) ==> total <= RunCost(l)
  {
  }
}
