/**
 What one call of `run_cmd` does to the outside, as a log, and the arithmetic of its
 retries, timeouts, back-off and pings (deploy-agent/deployd/common/executor.py:60-180).
 */
module RunLog {
  import opened Wrappers
  import opened DeployTypes

  datatype Limits = Limits(
    maxRunningTime: int, minRunningTime: int, maxRetry: int,
    pollInterval: int, backOff: int, maxSleepInterval: int)

  /** Limits under which every computed sleep is possible. */
  predicate Sane(l: Limits) {
    l.pollInterval >= 1 && l.backOff >= 0 && l.maxSleepInterval >= 0
  }

  const DAY := 86400

  /** `timedelta.seconds`: the seconds within the day, not the whole duration. */
  function Seconds(d: int): int { d % DAY }

  /** No poll can step over the time limit to the end of the day, where `Seconds` starts over. */
  predicate TimeLimited(l: Limits) { l.maxRunningTime + l.pollInterval <= DAY }

  /** No wait takes a day. */
  predicate ShortWaits(l: Limits) { Max(l.pollInterval, l.maxSleepInterval) < DAY }

  /** The time to the next ping, a wait included, is less than a day. */
  predicate PingsWithinDay(l: Limits) {
    ShortWaits(l) && l.minRunningTime + Max(l.pollInterval, l.maxSleepInterval) < DAY
  }

  /** Less than a day on, `Seconds` goes on as time does. */
  lemma SecondsAdd(x: int, d: int)
    requires d >= 0 && Seconds(x) + d < DAY
    ensures Seconds(x + d) == Seconds(x) + d
  {
  }

  lemma SecondsShort(x: int)
    requires 0 <= x < DAY
    ensures Seconds(x) == x
  {
  }

  function Max(a: int, b: int): int { if a < b then b else a }
  function Min(a: int, b: int): int { if b < a then b else a }

  datatype LogEvent =
    | Started(cmd: seq<string>, at: int)          // Popen succeeded
    | NotStarted(at: int)                         // Popen raised
    | Exited(code: int, at: int)                  // poll found the process ended
    | Killed(at: int)
    | Slept(d: int, at: int)                      // from `at`, for `d` seconds
    | Pinged(result: PingStatus, at: int, limits: Limits)   // the callback returned; limits now in force
    | Probed(answer: bool, at: int)               // whether a path exists, or can be made executable

  type Log = seq<LogEvent>

  predicate Failure(e: LogEvent) { e.NotStarted? || (e.Exited? && e.code != 0) }

  function Last(log: Log): LogEvent requires log != [] { log[|log| - 1] }
  function Front(log: Log): Log requires log != [] { log[..|log| - 1] }

  function Failures(log: Log): nat {
    if log == [] then 0 else Failures(Front(log)) + if Failure(Last(log)) then 1 else 0
  }

  function Starts(log: Log): nat {
    if log == [] then 0 else Starts(Front(log)) + if Last(log).Started? then 1 else 0
  }

  function Ends(log: Log): nat {
    if log == [] then 0 else Ends(Front(log)) + if Last(log).Exited? || Last(log).Killed? then 1 else 0
  }

  /** The code with which the last attempt ended: 1 if it could not start, 0 if none has ended by itself. */
  function LastCode(log: Log): int {
    if log == [] then 0
    else if Last(log).Exited? then Last(log).code
    else if Last(log).NotStarted? then 1
    else LastCode(Front(log))
  }

  lemma CodeStays(log: Log, e: LogEvent)
    requires !e.Exited? && !e.NotStarted?
    ensures LastCode(log + [e]) == LastCode(log)
  {
    Grow(log, e);
  }

  /** When the last failed attempt ended, or `t0`: the time the current attempt is measured from. */
  function LastFailureAt(log: Log, t0: int): int {
    if log == [] then t0 else if Failure(Last(log)) then Last(log).at else LastFailureAt(Front(log), t0)
  }

  function LastPing(log: Log): Option<PingStatus> {
    if log == [] then None else if Last(log).Pinged? then Some(Last(log).result) else LastPing(Front(log))
  }

  /** When the server was last pinged, or `t0`. */
  function LastPingAt(log: Log, t0: int): int {
    if log == [] then t0 else if Last(log).Pinged? then Last(log).at else LastPingAt(Front(log), t0)
  }

  /** The limits in force after each ping. */
  function Heard(log: Log): seq<Limits> {
    if log == [] then [] else Heard(Front(log)) + if Last(log).Pinged? then [Last(log).limits] else []
  }

  /** No ping changed the limits. */
  predicate Fixed(log: Log, l: Limits) {
    log == [] || (Fixed(Front(log), l) && (Last(log).Pinged? ==> Last(log).limits == l))
  }

  /** A part of a log in which the limits stayed. */
  lemma {:induction false} FixedParts(a: Log, b: Log, l: Limits)
    requires Fixed(a + b, l)
    ensures Fixed(a, l) && Fixed(b, l)
    decreases |b|
  {
    if b == [] {
      assert a + b == a;
    } else {
      assert Front(a + b) == a + Front(b) && Last(a + b) == Last(b);
      FixedParts(a, Front(b), l);
    }
  }

  /** The limits stayed from some point on if those heard since did. */
  lemma {:induction false} HeardIsFixed(a: Log, b: Log, l: Limits)
    requires forall i :: |Heard(a)| <= i < |Heard(a + b)| ==> Heard(a + b)[i] == l
    ensures |Heard(a)| <= |Heard(a + b)| && Fixed(b, l)
    decreases |b|
  {
    if b == [] {
      assert a + b == a;
    } else {
      assert Front(a + b) == a + Front(b) && Last(a + b) == Last(b);
      assert forall i :: 0 <= i < |Heard(a + Front(b))| ==> Heard(a + Front(b))[i] == Heard(a + b)[i];
      HeardIsFixed(a, Front(b), l);
      if Last(b).Pinged? {
        assert Heard(a + b)[|Heard(a + Front(b))|] == Last(b).limits;
      }
    }
  }

  lemma {:induction false} OnlyRunsAfter(a: Log, b: Log, cmd: seq<string>)
    requires OnlyRuns(a, cmd) && OnlyRuns(b, cmd)
    ensures OnlyRuns(a + b, cmd)
    decreases |b|
  {
    if b == [] {
      assert a + b == a;
    } else {
      assert Front(a + b) == a + Front(b) && Last(a + b) == Last(b);
      OnlyRunsAfter(a, Front(b), cmd);
    }
  }

  /** Processes never overlap. */
  predicate OneAtATime(log: Log) {
    log == [] || (OneAtATime(Front(log)) && Ends(log) <= Starts(log) <= Ends(log) + 1)
  }

  /** Every process started is one of command `cmd`. */
  predicate OnlyRuns(log: Log, cmd: seq<string>) {
    log == [] || (OnlyRuns(Front(log), cmd) && (Last(log).Started? ==> Last(log).cmd == cmd))
  }

  // ---------- Back-off ----------

  /** The interval that `run_cmd` waits after failure `k`, as it computes it. */
  function Interval(l: Limits, k: nat): int {
    if k == 0 then l.pollInterval else Min(Interval(l, k - 1) * l.backOff, l.maxSleepInterval)
  }

  function Pow(b: int, k: nat): int { if k == 0 then 1 else b * Pow(b, k - 1) }

  lemma {:induction false} PowPositive(b: int, k: nat)
    requires b >= 1
    ensures Pow(b, k) >= 1
  {
    if k > 0 { PowPositive(b, k - 1); }
  }

  /** Exponential back-off: the poll interval first, then its multiples by powers of the factor, up to the cap. */
  lemma {:induction false} IntervalIsExponential(l: Limits, k: nat)
    requires Sane(l) && l.backOff >= 1
    ensures Interval(l, k) ==
            if k == 0 then l.pollInterval else Min(l.pollInterval * Pow(l.backOff, k), l.maxSleepInterval)
  {
    if k == 1 {
      assert Pow(l.backOff, 1) == l.backOff * Pow(l.backOff, 0);
      assert Pow(l.backOff, 0) == 1;
    } else if k > 1 {
      IntervalIsExponential(l, k - 1);
      var p := l.pollInterval * Pow(l.backOff, k - 1);
      PowPositive(l.backOff, k - 1);
      Product(l.pollInterval, Pow(l.backOff, k - 1));
      NextPower(l.pollInterval, l.backOff, k);
      CappedProduct(p, l.backOff, l.maxSleepInterval);
    }
  }

  lemma NextPower(x: int, b: int, k: nat)
    requires k > 0
    ensures x * Pow(b, k) == (x * Pow(b, k - 1)) * b
  {
    var q := Pow(b, k - 1);
    assert Pow(b, k) == b * q;
    assert x * (b * q) == (x * q) * b;
  }

  /** Capping a product before and after another factor is capping it after. */
  lemma CappedProduct(p: int, b: int, cap: int)
    requires p >= 0 && b >= 1 && cap >= 0
    ensures Min(Min(p, cap) * b, cap) == Min(p * b, cap)
  {
    if p > cap {
      Larger(cap, b, cap);
      Larger(p, b, p);
    }
  }

  lemma Larger(x: int, b: int, y: int)
    requires x >= 0 && b >= 1 && y <= x
    ensures x * b >= y
  {
    assert x * b == x + x * (b - 1);
    Product(x, b - 1);
  }

  lemma Product(x: int, y: int)
    requires x >= 0 && y >= 0
    ensures x * y >= 0
  {
  }

  lemma {:induction false} IntervalNonNegative(l: Limits, k: nat)
    requires Sane(l)
    ensures 0 <= Interval(l, k) <= Max(l.pollInterval, l.maxSleepInterval)
  {
    if k > 0 {
      IntervalNonNegative(l, k - 1);
      Product(Interval(l, k - 1), l.backOff);
    }
  }

  // ---------- What a run promises about time ----------

  /** Every attempt but the first starts exactly `Interval` after the failure before it. */
  predicate BackedOff(log: Log, l: Limits, t0: int) {
    log == [] ||
    (BackedOff(Front(log), l, t0) &&
     (Last(log).Started? || Last(log).NotStarted? ==>
        Last(log).at == LastFailureAt(Front(log), t0)
                        + if Failures(Front(log)) == 0 then 0 else Interval(l, Failures(Front(log)) - 1)))
  }

  /** No silence is longer than `gap`. */
  predicate PingedOften(log: Log, gap: int, t0: int) {
    log == [] ||
    (PingedOften(Front(log), gap, t0) && Last(log).at - LastPingAt(Front(log), t0) <= gap)
  }

  /** While a process runs, the agent goes to sleep only before the time limit of the attempt. */
  predicate InTime(log: Log, l: Limits, t0: int) {
    log == [] ||
    (InTime(Front(log), l, t0) &&
     (Last(log).Slept? && Starts(Front(log)) > Ends(Front(log)) ==>
        Last(log).at - LastFailureAt(Front(log), t0) < l.maxRunningTime))
  }

  /** How the log of a finished run tells its status. */
  function Verdict(log: Log): AgentStatus {
    if LastPing(log) == Some(PlanChanged) then AbortedByServer
    else if log != [] && Last(log).Exited? && Last(log).code == 0 then Succeeded
    else if log != [] && Last(log).Killed? then ScriptTimeout
    else TooManyRetry
  }

  /** One more event: what it adds to each of the above. */
  lemma Grow(log: Log, e: LogEvent)
    ensures Front(log + [e]) == log && Last(log + [e]) == e
  {
  }
}
