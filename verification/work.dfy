/**
 What working on a goal comes to (deploy-agent/deployd/agent.py:153-203,
 common/executor.py:189-233): the command of its stage, word by word, and how the outcome
 is decided by what was run. `Worked` says it of every goal of a whole run.
 */
module Work {
  import opened Wrappers
  import opened DeployTypes
  import opened StatusFile
  import opened Protocol
  import opened Coherence
  import opened History
  import opened RunLog
  import opened RunPace
  import opened AgentConfig

  // ---------- Scripts ----------

  /** `' '`-separated words. */
  function Words(s: string): seq<string> {
    if s == [] then [""]
    else
      var rest := Words(s[1..]);
      if s[0] == ' ' then [""] + rest
      else if rest == [] then [[s[0]]]
      else [[s[0]] + rest[0]] + rest[1..]
  }

  function ScriptPath(directory: string, stage: DeployStage): string {
    PathJoin(directory, StageName(stage))
  }

  /** The agent failed, with code 1. */
  predicate Broken(d: DeployReport, times: int) {
    d.status == AgentFailed && d.errorCode == 1 && d.retryTimes == times
  }

  /** There was nothing to be done. */
  predicate Skipped(d: DeployReport) {
    d.status == Succeeded && d.errorCode == 0 && d.retryTimes == 0
  }

  /** What a missing directory, a missing script or one that cannot be made executable lead to. */
  predicate Looked(log: Log, step: Option<string>, decided: Option<DeployReport>) {
    && 1 <= |log| <= 3 && log[0].Probed?
    && if !log[0].answer then
         && |log| == 1 && decided.Some?
         && (if step.Some? && step.value in PRE_STAGE_STEPS then Skipped(decided.value) else Broken(decided.value, 1))
       else
         && |log| >= 2 && log[1].Probed?
         && if !log[1].answer then
              && |log| == 2 && decided.Some?
              && (if step == Some("RESTARTING") then Broken(decided.value, 1) else Skipped(decided.value))
            else
              && |log| == 3 && log[2].Probed?
              && (if log[2].answer then decided.None? else decided.Some? && Broken(decided.value, 0))
  }

  /** What was looked for decides the outcome, or else the run of the script does. */
  predicate Executed(log: Log, step: Option<string>, cmd: seq<string>, d: DeployReport) {
    || Looked(log, step, Some(d))
    || (|log| >= 3 && Looked(log[..3], step, None) && Outcome(log[3..], cmd, d))
  }

  lemma LookedMeans(log: Log, step: Option<string>, decided: Option<DeployReport>, cmd: seq<string>)
    requires Looked(log, step, decided)
    ensures OnlyRuns(log, cmd)
    ensures decided.Some? ==> Protocol.Ending(decided.value.status) && Executed(log, step, cmd, decided.value)
  {
    assert forall e :: e in log ==> e.Probed?;
    ProbesRunNothing(log, cmd);
  }

  lemma {:induction false} ProbesRunNothing(log: Log, cmd: seq<string>)
    requires forall e :: e in log ==> e.Probed?
    ensures OnlyRuns(log, cmd)
    decreases |log|
  {
    if log != [] {
      assert RunLog.Last(log) in log;
      ProbesRunNothing(RunLog.Front(log), cmd);
    }
  }

  lemma RunExecutes(looks: Log, run: Log, step: Option<string>, cmd: seq<string>, d: DeployReport)
    requires Looked(looks, step, None) && Outcome(run, cmd, d)
    ensures Executed(looks + run, step, cmd, d)
  {
    assert (looks + run)[..3] == looks && (looks + run)[3..] == run;
  }

  lemma OutcomeEnds(log: Log, cmd: seq<string>, d: DeployReport)
    requires Outcome(log, cmd, d)
    ensures (d.status == AbortedByServer || Protocol.Ending(d.status)) && OnlyRuns(log, cmd)
  {
  }

  /** Words joined by single spaces. */
  function Joined(words: seq<string>): string {
    if words == [] then "" else if |words| == 1 then words[0] else words[0] + " " + Joined(words[1..])
  }

  /** Splitting at spaces: the words have none, and joined by spaces they are the text. */
  lemma {:induction false} WordsAreJoined(s: string)
    ensures Words(s) != [] && Joined(Words(s)) == s && forall w :: w in Words(s) ==> ' ' !in w
  {
    if s != "" {
      var rest := Words(s[1..]);
      WordsAreJoined(s[1..]);
      if s[0] == ' ' {
        assert ([""] + rest)[1..] == rest;
        assert Joined([""] + rest) == "" + " " + s[1..];
      } else {
        var words := [[s[0]] + rest[0]] + rest[1..];
        assert words[1..] == rest[1..];
        assert Joined(words) == [s[0]] + Joined(rest);
      }
    }
  }

  // ---------- The command of a stage ----------

  /**
   Where a goal is worked on: the configuration file, the directory of the scripts, what is
   to be linked to the build, the environment, the build that was last asked for in it, and
   the step that scripts see.
   */
  datatype Place = Place(
    filename: Option<string>, scriptDirectory: string, target: Option<string>,
    env: string, staged: Option<string>, step: Option<string>)

  /** A program of the agent's own, with the configuration file if there is one. */
  function Tool(name: string, filename: Option<string>, arguments: seq<string>): seq<string> {
    if filename.Some? then [name, "-f", filename.value] + arguments else [name] + arguments
  }

  /**
   The words of the command that goal `g` asks for, if it has one: downloading needs a
   build with a URL and an id, staging a build asked for before and something to link it to.
   */
  function Asked(p: Place, g: Goal): Option<seq<string>> {
    match g.deployStage
    case Downloading =>
      if g.build.Some? && g.build.value.artifactUrl.Some? && g.build.value.artifactUrl.value != ""
         && g.build.value.buildId.Some?
      then Some(Tool("deploy-downloader", p.filename,
                     ["-v", g.build.value.buildId.value, "-u", g.build.value.artifactUrl.value, "-e", p.env]))
      else None
    case Staging =>
      if p.staged.Some? && p.target.Some?
      then Some(Tool("deploy-stager", p.filename, ["-v", p.staged.value, "-t", p.target.value, "-e", p.env]))
      else None
    case _ => Some(Words(ScriptPath(p.scriptDirectory, g.deployStage)))
  }

  /** What was run for goal `g` is its command and nothing else, and decides the outcome. */
  predicate Decided(p: Place, g: Goal, log: Log, d: DeployReport) {
    var cmd := Asked(p, g);
    if cmd.None? then log == [] && Broken(d, 1)
    else
      && OnlyRuns(log, cmd.value)
      && if g.deployStage == Downloading || g.deployStage == Staging then Outcome(log, cmd.value, d)
         else Executed(log, p.step, cmd.value, d)
  }

  // ---------- The place, told from the run ----------

  function GoalBuildId(g: Goal): Option<Option<string>> {
    if g.build.Some? then Some(g.build.value.buildId) else None
  }

  function LoadedBuildId(v: StatusValue): Option<Option<string>> {
    if v.buildInfo.Some? then Some(v.buildInfo.value.buildId) else None
  }

  /** The id of the build in the newest goal for `env` that carried one, or else of the one loaded. */
  function NewestBuildId(s0: State, t: seq<Event>, env: string): Option<string> {
    var id := LastCarried(s0, t, env, LoadedBuildId, GoalBuildId);
    if id.Some? then id.value else None
  }

  /** The value is that of the setting, of the file if there is no setting, or else the default. */
  predicate SettingIs(settings: Settings, reader: Settings, name: string, default: string, value: string) {
    if name in settings then value == settings[name]
    else if name in reader then value == reader[name]
    else value == default
  }

  /** The path of `name` in a directory: an absolute name is a path of its own. */
  predicate InDirectory(directory: string, name: string, path: string) {
    if name != "" && name[0] == '/' then path == name
    else if directory != "" && directory[|directory| - 1] != '/' then path == directory + "/" + name
    else path == directory + name
  }

  /** A script is the file of its stage's name in the directory of the scripts. */
  lemma ScriptIsInDirectory(directory: string, stage: DeployStage)
    ensures InDirectory(directory, StageName(stage), ScriptPath(directory, stage))
    ensures Joined(Words(ScriptPath(directory, stage))) == ScriptPath(directory, stage)
  {
    hide StageName;
    hide Words;
    hide Joined;
    WordsAreJoined(ScriptPath(directory, stage));
  }

  /** What is linked to a build: the target of the settings, or the environment's name in the default directory. */
  ghost predicate TargetIs(settings: Settings, reader: Settings, name: Option<string>, target: Option<string>) {
    if "target" in settings && settings["target"] != "" then target == Some(settings["target"])
    else
      name.Some? ==>
        && target.Some?
        && exists directory :: SettingIs(settings, reader, "target_default_dir", "/usr/local/jetty/webapps", directory)
                               && InDirectory(directory, name.value + ".war", target.value)
  }

  /** `p` is the place of goal `g` after the steps `t`, the last of which begins it. */
  ghost predicate PlaceIs(reader: Settings, filename: Option<string>, s0: State, t: seq<Event>, g: Goal, p: Place) {
    && Legal(s0, t)
    && var s := After(s0, t);
       && s.curr == Some(g.envName) && g.envName in s.envs
       && var v := s.envs[g.envName];
          && p.filename == filename
          && p.env == g.envName
          && SettingIs(SettingsOf(v), reader, "script_dir", "/data/deployd", p.scriptDirectory)
          && TargetIs(SettingsOf(v), reader, NameSeen(v), p.target)
          && p.staged == NewestBuildId(s0, t, g.envName)
          && p.step == StepSeen(v)
  }

  // ---------- Whole runs ----------

  /** Process_deploy has returned from a goal that is not a removal. */
  predicate Concludes(e: Event) { e.Return? && e.job.deployGoal.Some? && !Removes(e.job) }

  /** Since step `begin` a goal was worked on; its part of the log is the one from `from` to `to`. */
  datatype Stretch = Stretch(begin: nat, from: nat, to: nat, place: Place)

  /** By the step that concluded the goal. */
  type Stretches = map<nat, Stretch>

  /** Step `i` concludes the work of a stretch: it began with the goal, and its part of the log decided the outcome. */
  ghost predicate Covers(reader: Settings, filename: Option<string>, s0: State, t: seq<Event>, log: Log,
                         w: Stretch, i: nat) {
    && w.begin < i < |t| && Concludes(t[i]) && w.from <= w.to <= |log|
    && t[w.begin] == Begin(t[i].job)
    && (forall k :: w.begin < k < i ==> !t[k].Begin? && !t[k].Return?)
    && PlaceIs(reader, filename, s0, t[..w.begin + 1], t[i].job.deployGoal.value, w.place)
    && Decided(w.place, t[i].job.deployGoal.value, log[w.from..w.to], t[i].d)
  }

  /** Every goal that was concluded was worked on, each in a part of its own of the log from `start` on. */
  ghost predicate Worked(reader: Settings, filename: Option<string>, s0: State, t: seq<Event>, start: nat, log: Log,
                   ws: Stretches) {
    && start <= |log|
    && (forall i :: 0 <= i < |t| && Concludes(t[i]) ==> i in ws)
    && (forall i :: i in ws ==> start <= ws[i].from && Covers(reader, filename, s0, t, log, ws[i], i))
    && (forall i, j :: i in ws && j in ws && i < j ==> ws[i].to <= ws[j].from)
  }

  /** How many goals were begun and returned from. */
  function Turns(t: seq<Event>): nat {
    if t == [] then 0 else Turns(t[..|t| - 1]) + if t[|t| - 1].Begin? || t[|t| - 1].Return? then 1 else 0
  }

  lemma TurnsMore(t: seq<Event>, e: Event)
    ensures Turns(t + [e]) == Turns(t) + if e.Begin? || e.Return? then 1 else 0
  {
    assert (t + [e])[..|t|] == t;
  }

  lemma {:induction false} NoTurns(t: seq<Event>, u: seq<Event>)
    requires t <= u
    ensures Turns(t) <= Turns(u)
    ensures Turns(u) == Turns(t) ==> forall k :: |t| <= k < |u| ==> !u[k].Begin? && !u[k].Return?
    decreases |u|
  {
    if |t| < |u| {
      NoTurns(t, u[..|u| - 1]);
    } else {
      assert t == u;
    }
  }

  lemma CoversMore(reader: Settings, filename: Option<string>, s0: State, t: seq<Event>, log: Log, w: Stretch, i: nat,
                   u: seq<Event>, more: Log)
    requires Covers(reader, filename, s0, t, log, w, i) && t <= u && log <= more
    ensures Covers(reader, filename, s0, u, more, w, i)
  {
    hide PlaceIs;
    hide Decided;
    assert t[..w.begin + 1] == u[..w.begin + 1];
    assert log[w.from..w.to] == more[w.from..w.to];
  }

  /** What was worked on stays so while nothing else is concluded. */
  lemma WorkedOn(reader: Settings, filename: Option<string>, s0: State, t: seq<Event>, start: nat,
                 log: Log, ws: Stretches, u: seq<Event>, more: Log)
    requires Worked(reader, filename, s0, t, start, log, ws) && t <= u && log <= more
    requires forall k :: |t| <= k < |u| ==> !Concludes(u[k])
    ensures Worked(reader, filename, s0, u, start, more, ws)
  {
    hide Covers;
    hide Concludes;
    forall i | i in ws
      ensures Covers(reader, filename, s0, u, more, ws[i], i)
    {
      CoversMore(reader, filename, s0, t, log, ws[i], i, u, more);
    }
  }

  /** One more goal concluded: it began with step `|t|` and the work on it is the end of the log. */
  lemma WorkedMore(reader: Settings, filename: Option<string>, s0: State, t: seq<Event>, start: nat,
                   log: Log, ws: Stretches, u: seq<Event>, more: Log, job: Response, d: DeployReport, p: Place)
    requires Worked(reader, filename, s0, t, start, log, ws) && t + [Begin(job)] <= u && log <= more
    requires job.deployGoal.Some? && !Removes(job) && Turns(u) == Turns(t + [Begin(job)])
    requires PlaceIs(reader, filename, s0, t + [Begin(job)], job.deployGoal.value, p)
    requires Decided(p, job.deployGoal.value, more[|log|..], d)
    ensures Worked(reader, filename, s0, u + [Return(job, d)], start, more, ws[|u| := Stretch(|t|, |log|, |more|, p)])
  {
    hide PlaceIs;
    hide Decided;
    hide Covers;
    hide Worked;
    StartsBefore(reader, filename, s0, t, start, log, ws);
    NoTurns(t + [Begin(job)], u);
    NothingConcluded(t, u, job);
    AllWithin(reader, filename, s0, t, start, log, ws);
    WorkedOn(reader, filename, s0, t, start, log, ws, u, more);
    NewCover(reader, filename, s0, t, log, u, more, job, d, p);
    WorkedLast(reader, filename, s0, u, start, more, ws, Return(job, d), Stretch(|t|, |log|, |more|, p));
  }

  lemma NothingConcluded(t: seq<Event>, u: seq<Event>, job: Response)
    requires t + [Begin(job)] <= u && forall k :: |t| + 1 <= k < |u| ==> !u[k].Begin? && !u[k].Return?
    ensures t <= u && forall k :: |t| <= k < |u| ==> !Concludes(u[k])
  {
    assert u[|t|] == (t + [Begin(job)])[|t|];
    assert u[..|t|] == (t + [Begin(job)])[..|t|] == t;
  }

  lemma StartsBefore(reader: Settings, filename: Option<string>, s0: State, t: seq<Event>, start: nat, log: Log,
                     ws: Stretches)
    requires Worked(reader, filename, s0, t, start, log, ws)
    ensures start <= |log|
  {
  }

  lemma AllWithin(reader: Settings, filename: Option<string>, s0: State, t: seq<Event>, start: nat,
                  log: Log, ws: Stretches)
    requires Worked(reader, filename, s0, t, start, log, ws)
    ensures forall i :: i in ws ==> i < |t| && ws[i].to <= |log|
  {
    hide Covers;
    forall i | i in ws
      ensures i < |t| && ws[i].to <= |log|
    {
      CoveredWithin(reader, filename, s0, t, log, ws[i], i);
    }
  }

  /** One more step, that concludes a goal. */
  lemma WorkedLast(reader: Settings, filename: Option<string>, s0: State, t: seq<Event>, start: nat,
                   log: Log, ws: Stretches, e: Event, w: Stretch)
    requires Worked(reader, filename, s0, t, start, log, ws) && Covers(reader, filename, s0, t + [e], log, w, |t|)
    requires start <= w.from && forall i :: i in ws ==> i < |t| && ws[i].to <= w.from
    ensures Worked(reader, filename, s0, t + [e], start, log, ws[|t| := w])
  {
    hide Covers;
    hide Concludes;
    forall i | i in ws
      ensures Covers(reader, filename, s0, t + [e], log, ws[i], i)
    {
      CoversMore(reader, filename, s0, t, log, ws[i], i, t + [e], log);
    }
  }

  lemma CoveredWithin(reader: Settings, filename: Option<string>, s0: State, t: seq<Event>, log: Log,
                      w: Stretch, i: nat)
    requires Covers(reader, filename, s0, t, log, w, i)
    ensures i < |t| && w.to <= |log|
  {
  }

  lemma NewCover(reader: Settings, filename: Option<string>, s0: State, t: seq<Event>, log: Log,
                 u: seq<Event>, more: Log, job: Response, d: DeployReport, p: Place)
    requires t + [Begin(job)] <= u && log <= more && job.deployGoal.Some? && !Removes(job)
    requires forall k :: |t| + 1 <= k < |u| ==> !u[k].Begin? && !u[k].Return?
    requires PlaceIs(reader, filename, s0, t + [Begin(job)], job.deployGoal.value, p)
    requires Decided(p, job.deployGoal.value, more[|log|..], d)
    ensures Covers(reader, filename, s0, u + [Return(job, d)], more, Stretch(|t|, |log|, |more|, p), |u|)
  {
    hide PlaceIs;
    hide Decided;
    var v := u + [Return(job, d)];
    assert v[..|t| + 1] == t + [Begin(job)];
    assert v[|t|] == (t + [Begin(job)])[|t|];
    assert more[|log|..|more|] == more[|log|..];
  }
}
