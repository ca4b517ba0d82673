# Teletraan: the deploy agent's protocol, two vendored compilers, and four small algorithms

This project models the behaviour of Teletraan and proves properties of the model with
Dafny 4.11: `dafny verify dfyconfig.toml`.

**The deploy agent.** `protocol.dfy` describes the agent as a machine: its states (the map of
environments, the current one, the server's last answer, the status file, the phase) and its
steps (ping, begin, return, apply, dump, leave). What holds in every run is proved of the
machine: `coherence.dfy`, `attribution.dfy`, `write_ahead.dfy`, `history.dfy`, `progress.dfy`.
`agent.dfy` holds the agent, its executor, its client and its status file as classes, with the
re-entrant callback from a running command into the agent. Every method is proved to take only
steps of the machine (`Recorded` holds even where the process stops), so the theorems about
runs hold of the code. `run_log.dfy` and `run_pace.dfy` say what one `run_cmd` does to the
outside and prove its retries, time limit, back-off and pings; `timedelta.seconds` is modelled
as seconds modulo a day. `work.dfy` says what working on a goal comes to: the command of its stage word by word, what
decides the outcome, and that every goal a run concludes has a part of the log of its own in
which just that was run. `serving_loop.dfy` says when the loop goes on and when it ends,
`tuning.dfy` which limits are in force after the steps of a run.
`world.dfy` is the outside: the server, dumps, processes and the file
system are adversarial choices, time passes only in sleeps, and a finite budget of interactions
ends the process anywhere, so that a crash at any step and a run of any length are covered.
`status_file.dfy`, `deploy_status.dfy`, `agent_config.dfy` and `stale_builds.dfy` are the
status file, the status objects, the settings and environment variables, and retention.

**Handlebars.** `handlebars_compiler.dfy` compiles a tree to opcodes, `handlebars_machine.dfy`
is the machine with two stacks that turns opcodes into JavaScript, `handlebars_js.dfy` the same
as the class it is. `handlebars_discipline.dfy` proves the stack discipline for every tree;
`handlebars_meaning.dfy` gives templates and the written JavaScript a meaning in any host whose
helpers may have effects and may call the programs of blocks, and `handlebars_correct.dfy`
proves that the two meanings agree, for a template and for the programs of its blocks.
`handlebars_calls.dfy` says of the output what a mustache or block calls, and with what.

**marked.** `marked_lexer.dfy` turns text into a flat stream of tokens, `marked_parser.dfy`
turns the stream into HTML, `marked_inline.dfy` does the spans. `marked_rules.dfy` holds the
rules, `marked_reading.dfy` the order in which they are to be tried and which tokens they give.
The lexer is proved to push the tokens that are read by these rules, and the stream of the
text's tree; the parser is proved against the rendering of the tree, for all texts and trees.

**Small algorithms.** `transformer.dfy` (sequential against simultaneous substitution),
`commits.dfy` (overlapping pages), `stale_builds.dfy` (retention), `hosts.dfy` (partition of
hosts).

## Assumptions

- An answer that carries a goal carries an operation code; one that could not be installed
  without an exception (settings that are no numbers or make a sleep impossible) counts as a
  failed ping. A status file is excluded when it is loaded if some environment has no report
  or unusable settings, or if the one that Python lists first cannot be shown to scripts (no
  deploy id, stage or operation); a file that the agent leaves never is, if those it started
  from could all be shown.
- A dump is atomic: it writes the whole file or leaves it.
- The attribution theorems assume that answers other than NOOP carry goals and that a deploy
  belongs to one environment; both are shown to be needed.
- The timing theorems assume limits that stay during the run, and each assumes no more of them
  than it needs: the number of attempts and the back-off nothing; that the run ends, the time
  limit with POLL within a day; that no process runs beyond its time limit, also waits of less
  than a day; the ping gaps, MIN_RUNNING_TIME and the longest wait together within a day.
  `RunCmd` ends with one of its four statuses without any of this.
- Progress assumes a server that drives one environment, asks for a higher stage after
  SUCCEEDED, for nothing after SERVING_BUILD or a failure, and for the same goal otherwise.
- The regular expressions of marked are arbitrary functions that match non-empty prefixes;
  what quotes, items and spans enclose is shorter than what encloses them, the items of a list
  and the newlines between them fit into the list. The rules for newlines, and those for text
  in blocks and in lines, are the source's own.
- Handlebars helpers can call the programs of a block, and do not look at their text: two
  functions that do the same are the same to them.
- An attempt's time limit is counted from the end of the failed attempt before it, as in the
  code, so it includes the back-off.

## Model

| member | source | states |
|---|---|---|
| Coherence.InvAlways | deploy-agent/deployd/agent.py:75-128 | In every run, at every step: each environment has a report, the current status exists, and the goal being worked on is in force (same operation, deploy and stage as the current status), or the newest answer's goal is freshly installed at the loop head |
| Coherence.LoopHead | deploy-agent/deployd/agent.py:93-104 | Whenever process_deploy is called, the current status is the entry of the goal's environment, its ids, stage and operation are the answer's, and its status is UNKNOWN |
| Coherence.RemovalFindsItsEnvironment | deploy-agent/deployd/agent.py:153-165 | A DELETE or TERMINATE goal always finds its environment, which is the current one; afterwards it is gone and nothing is current. So the branch that misses the environment cannot be reached |
| Coherence.GoalStability | deploy-agent/deployd/agent.py:219-240 | A command outlives an answered ping if and only if the ping before did not fail and the answer asks for the command's operation, deploy and stage; a failed ping never stops it; an aborted command leaves the newest answer installed for the loop |
| Coherence.AnswerAfterFailureAborts | deploy-agent/deployd/agent.py:219-240 | After a failed ping in the middle of a command, the next answered one aborts it, whatever it says |
| Protocol.ChangedPlanMeans | deploy-agent/deployd/agent.py:309-331 | plan_changed is true exactly when there was no answer before or the two do not ask for the same operation, deploy and stage |
| Attribution.OutcomesAttributed | deploy-agent/deployd/agent.py:93-119 | In every run in which answers other than NOOP carry goals and a deploy belongs to one environment: a status SUCCEEDED, TOO_MANY_RETRY or SCRIPT_TIMEOUT is the loaded one, or process_deploy returned it on a goal with exactly those ids and that stage and no goal for the environment was installed since |
| Attribution.PingsAttributed | deploy-agent/deployd/agent.py:219-240 | The same of every report in every ping |
| Attribution.SharedDeployIdMisattributes | deploy-agent/deployd/agent.py:309-331 | Two environments with one deploy id: a run in which a result lands on the wrong environment, so that assumption is needed |
| Attribution.MissingGoalMisattributes | deploy-agent/deployd/agent.py:95-101 | An answer that is not a NOOP and carries no goal: a run that marks the loaded status SUCCEEDED, so that assumption is needed |
| WriteAhead.PingsAreWritten | deploy-agent/deployd/agent.py:205-221 | While dumps succeed, every ping carries exactly the reports of the status file, up to the ASCII filter |
| WriteAhead.CrashRecovery | deploy-agent/deployd/agent.py:65-73 | While dumps succeed, wherever a run stops, loading the file gives the reports sent last, or those that the very next step would have sent |
| WriteAhead.FailedDumpIsReported | deploy-agent/deployd/agent.py:205-217 | A failed dump leaves the file and makes the next ping report AGENT_FAILED for the current environment |
| WriteAhead.ReportsSurvive | deploy-agent/deployd/common/env_status.py:35-53 | All reports of any map of environments survive a dump and a load |
| History.HistoryRefined | deploy-agent/deployd/common/types.py:123-152 | In every run, an environment's build, configuration and script variables are the last ones its goals carried since it was last removed, or the loaded ones |
| History.EnvironmentsKnown | deploy-agent/deployd/agent.py:153-163 | The environments in memory are exactly those loaded or installed and not removed since |
| Progress.RoundsBounded | deploy-agent/deployd/agent.py:93-119 | Against a server that drives one environment up the stages, the loop goes round at most nine times and once more for each failed ping |
| Progress.StagesInOrder | deploy-agent/deployd/types/deploy_stage.py:40-52 | Against such a server, stages are taken up in non-decreasing order |
| ServingLoop.LoopGoesOn | deploy-agent/deployd/agent.py:84-128 | In every run: a goal is taken up only if the last answer asks for it with an operation other than NOOP and no goal ended with AGENT_FAILED, TOO_MANY_RETRY or SCRIPT_TIMEOUT; the loop is left only when the last answer asks for nothing, or by the ping that tells the server of such an end; after that nothing happens |
| Agent.EnvStatus.LoadEnvs | deploy-agent/deployd/common/env_status.py:35-53 | New, distinct status objects whose values are those of the file; none for an unreadable file |
| Agent.EnvStatus.DumpEnvs | deploy-agent/deployd/common/env_status.py:77-94 | The file becomes the JSON of all statuses, or stays as it was and failure is returned |
| Agent.Client.SendReports | deploy-agent/deployd/client/client.py:99-127 | Filters every error message in place, changes nothing else, and brings back an answer or nothing |
| DeployTypes.AsciiParts | deploy-agent/deployd/client/client.py:99-127 | The filter goes over a message part by part, and what it leaves is ASCII |
| DeployTypes.AsciiFilters | deploy-agent/deployd/client/client.py:99-127 | ASCII text stays whole, and of text beyond ASCII nothing stays |
| Agent.Executor.PingServerIfPossible | deploy-agent/deployd/common/executor.py:161-175 | Pings exactly when the minimal running time has passed (modulo a day); a changed plan makes the report ABORTED_BY_SERVER and nothing else does |
| Agent.Executor.Check | deploy-agent/deployd/common/executor.py:82-106 | One turn of the watching loop: an aborted or timed-out process is killed and ends the run with that status, any other goes on within the limits |
| Agent.Executor.Watch | deploy-agent/deployd/common/executor.py:81-110 | A watched process ends by itself or is killed; re-entrant pings keep the agent a run of the machine |
| Agent.Executor.BackOff | deploy-agent/deployd/common/executor.py:146-156 | The wait after a failure, with its ping in the middle and the next interval |
| Agent.Executor.Attempt | deploy-agent/deployd/common/executor.py:76-124 | An attempt fails, or ends the run with a success, a timeout or an abort |
| Agent.Executor.RunCmd | deploy-agent/deployd/common/executor.py:60-159 | Ends with one of four statuses, told by the log: SUCCEEDED iff the last process exited 0, ABORTED_BY_SERVER iff the last ping changed the plan, and so on; the error code is that of the last attempt that ended by itself, 1 after a time-out; processes never overlap and none is left. With limits that stay, whatever they are: at most MAX_RETRY starts, TOO_MANY_RETRY iff max(0, MAX_RETRY) failures, exponential back-off. If no poll steps over the end of the day: an end within a bounded number of interactions; if no wait does either: no process goes on beyond its time limit; if no silence does: no silence is longer than the promised gap |
| Agent.Executor.ExecuteCommand | deploy-agent/deployd/common/executor.py:189-233 | A missing directory succeeds in the steps up to staging and fails in the others, a missing script fails for RESTARTING only, a script that cannot be made executable fails, and none of them runs anything; otherwise the outcome is that of running the stage's script, and of no other command |
| AgentConfig.PreStageIsEarly | deploy-agent/deployd/common/types.py:204-205 | The steps in which a missing directory is no failure are the stages up to STAGING |
| RunLog.IntervalIsExponential | deploy-agent/deployd/common/executor.py:141-156 | The wait before attempt k+1 is POLL for k = 0 and min(POLL * BACK_OFF^k, MAX_SLEEP) for k >= 1 |
| RunPace.GapBound | deploy-agent/deployd/common/executor.py:161-180 | The longest silence that RunCmd promises is at most MIN_RUNNING_TIME + max(POLL, MAX_SLEEP) if and only if MIN_RUNNING_TIME is positive, or zero and the longest wait more than a second |
| Agent.DeployAgent.constructor | deploy-agent/deployd/agent.py:52-63 | Starts from the status file, without an executor and without an answer; the environment that Python lists first is current and its settings are in force |
| Agent.DeployAgent.LoadStatusFile | deploy-agent/deployd/agent.py:65-73 | Forgets what is in memory and starts a new run from the file; the environment that Python lists first, if there is one, is current and its settings are in force |
| Agent.DeployAgent.DumpStatus | deploy-agent/deployd/agent.py:209-217 | One Dump step of the machine: the file is written, or the current status becomes AGENT_FAILED |
| Agent.DeployAgent.UpdatePingReports | deploy-agent/deployd/agent.py:205-217 | Exactly an Apply and a Dump step of the machine |
| Agent.DeployAgent.PingServer | deploy-agent/deployd/agent.py:219-240 | Exactly a Ping step of the machine: filter, send, install the answer, make its environment current, adopt its settings |
| Agent.DeployAgent.UpdateInternalDeployGoal | deploy-agent/deployd/agent.py:268-297 | Installs the goal in its environment's object, a new one if need be, makes that very object current and puts the limits of its settings in force; other environments are untouched |
| Agent.DeployAgent.UpdateDeployStatus | deploy-agent/deployd/agent.py:219-240 | Exactly Apply, Dump and Ping; returns PLAN_CHANGED iff the machine aborts the command, PING_FAILED iff there is no answer |
| Agent.DeployAgent.RemoveEnv | deploy-agent/deployd/agent.py:153-165 | Exactly the machine's removal step; the environment is no longer there |
| Agent.DeployAgent.StagesNewestBuild | deploy-agent/deployd/agent.py:196-203 | The build that the current status remembers is that of the newest goal for its environment that carried one |
| Agent.DeployAgent.BuildIsNewest | deploy-agent/deployd/agent.py:196-203 | The id with which the agent would stage is that of the build in the newest goal for the environment that carried one, in this run, or else of the one loaded |
| Agent.DeployAgent.CommandIs | deploy-agent/deployd/agent.py:183-203 | The words that the agent's functions put together are the command that the goal asks for at the place where it is worked on |
| Work.ScriptIsInDirectory | deploy-agent/deployd/common/executor.py:189-212 | The script of a stage is the file of its name in the directory of the scripts; split at spaces and joined again the path is the same |
| Work.WordsAreJoined | deploy-agent/deployd/common/executor.py:61-63 | Splitting a command at its spaces: the words have none, and joined by spaces they are the command |
| Work.WorkedMore | deploy-agent/deployd/agent.py:93-101 | One more goal that is returned from owns the part of the log since it was taken up, after those of all goals before it |
| Agent.DeployAgent.StepIsStage | deploy-agent/deployd/common/config.py:76-84 | While a goal is worked on, DEPLOY_STEP is its stage, unless a script variable hides it |
| Agent.DeployAgent.WhereverItStops | deploy-agent/deployd/agent.py:75-128 | Wherever the agent's process stops, the file on disk gives back the reports sent last or about to be sent, every outcome in memory is attributed, and an agent can start from the file if all statuses loaded could be shown to scripts |
| Agent.DeployAgent.RunStage | deploy-agent/deployd/agent.py:166-203 | What is logged is the work on the goal at the place where the agent is: at DOWNLOADING runs of deploy-downloader with the goal's build id and URL, at STAGING runs of deploy-stager with the id of the newest build asked for and the target of the settings, each with the file, if there is one, and the environment; at any other stage the script of its name in the directory of the settings; nothing else is started, and how that ran decides the report. Where the words are missing nothing is started: an exception, which serve_build makes AGENT_FAILED |
| Agent.DeployAgent.ProcessDeploy | deploy-agent/deployd/agent.py:153-180 | A removal removes the goal's environment and nothing else and returns SUCCEEDED; of any other goal what is logged is the work on it, word by word, and decides the report |
| Agent.DeployAgent.WorkOn | deploy-agent/deployd/agent.py:93-114 | A goal is taken up and worked on, or there is none; after an abort the loop continues with the newest answer. Every goal that the run has concluded so far, this one included, owns a part of the log in which its command and nothing else was run and decided the report |
| Agent.DeployAgent.ServeRound | deploy-agent/deployd/agent.py:93-119 | One round: work, report, ping; it says that the loop goes on iff the machine is at its head again. Every goal concluded so far owns a part of the log in which its command was run and decided the report |
| Agent.DeployAgent.Finish | deploy-agent/deployd/agent.py:121-128 | Of the builds found exactly the stale ones that no environment refers to are removed, and the last answer's goal is installed: the machine's last step; an unreadable number of builds to retain stops it before both |
| Agent.DeployAgent.ServeBuild | deploy-agent/deployd/agent.py:75-128 | Only takes steps of the machine, wherever it stops, and leaves a file to start from. Each goal that is no removal and that process_deploy returned from has its own part of the log, in order, from where the goal was taken up: just its command was run there, at the place that the run so far determines (the newest build's id, the settings of its environment, its step), and that run decided the report; or it has no command, nothing was started, and the report is AGENT_FAILED. It ends finished, or by an exception when there is nothing more to do. If the limits stay in this run (the ones in force at the start, and those of every environment it makes current) with the time limit and POLL within a day, it ends within a bounded number of interactions a round, and against a server that drives one environment up the stages within (9 + failed pings) rounds |
| Tuning.FileLimitsStay | deploy-agent/deployd/agent.py:268-297 | In every run, from any start, in which neither the settings loaded nor those of the server's goals name a limit, the limits that the configuration file gives are in force throughout: with such a file ServeBuild's bound applies |
| Tuning.DefaultsAreTimed | deploy-agent/deployd/common/config.py:196-215 | The default limits meet the conditions of every timing theorem |
| Agent.StepRestarts | deploy-agent/deployd/agent.py:65-73 | Every step keeps the file loadable, and keeps the file and the statuses in memory such that all can be shown to scripts |
| Agent.DeployAgent.CleanStaleBuilds | deploy-agent/deployd/agent.py:242-256 | Exactly the oldest builds beyond the number to retain go, except those that some environment refers to; nothing goes without a current status or a build; throws iff there is a current status and the number is none |
| AgentConfig.Config.UpdateVariables | deploy-agent/deployd/common/config.py:67-104 | Afterwards the settings are those of the status alone, DEPLOY_STEP is its stage unless a script variable hides it, and each of the five variables is what the status says, or as before where it says nothing |
| AgentConfig.ExportedSays | deploy-agent/deployd/common/config.py:67-103 | Each variable that scripts see after the export: a script variable of that name, else the deploy id, stage, operation, environment or stage name of the status, else as before |
| AgentConfig.LimitsAreTold | deploy-agent/deployd/common/config.py:196-215 | The limits are read if and only if each of the six settings, of the status, or else of the file, is a number, or is missing and has its default |
| AgentConfig.ParsesDecimal | deploy-agent/deployd/common/config.py:105-122 | The decimal numeral of a number is read as that number |
| DeployStatuses.DeployStatus.FromJson | deploy-agent/deployd/common/types.py:168-186 | The object that a record of the file stands for, NOOP without an operation code |
| DeployStatuses.DeployStatus.UpdateByResponse | deploy-agent/deployd/common/types.py:123-152 | The status that a goal leaves: its ids and stage with status UNKNOWN, and the build, configuration and variables of before where the goal has none |
| DeployStatuses.DeployStatus.UpdateByDeployReport | deploy-agent/deployd/common/types.py:155-166 | The status that a report leaves: UNKNOWN for an abort, no message for a success |
| DeployStatuses.DeployStatus.ToJson | deploy-agent/deployd/common/types.py:188-198 | The record of the status: values that are null or empty are left out, dictionaries are not |
| StatusFile.DiskRoundTrip | deploy-agent/deployd/common/env_status.py:41-53 | Loading what was dumped keeps the environments and, of each, its report, build, configuration and operation, NOOP if it has none |
| StatusFile.StatusRoundTripNeedsOpCode | deploy-agent/deployd/common/types.py:168-198 | A status survives a dump and a load if and only if it has an operation code |
| StaleBuilds.SortedIsStable | deploy-agent/deployd/common/helper.py:52-52 | The sort keeps the order of builds of the same time |
| StaleBuilds.GetStaleBuilds | deploy-agent/deployd/common/helper.py:44-62 | Yields exactly the builds beyond the number to retain, in the order of their age |
| StaleBuilds.CleanStaleFiles | deploy-agent/deployd/agent.py:258-264 | What is left is exactly what is to be kept or is not among the oldest; nothing else goes |
| StaleBuilds.Retention | deploy-agent/deployd/common/helper.py:44-62 | Exactly max(0, n - retain) builds are stale, at least min(n, retain) are not, and none that is stale is newer than one that is not |
| HandlebarsCompiler.Compiler.Compile | deploy-board/deploy_board/static/swagger-ui-lib/lib/handlebars-2.0.0.js:27-28 | Walks any tree; throws iff a helper call is unknown under knownHelpersOnly (parentheses make a call of what stands in them, with or without arguments) or parentheses enclose a data variable, which has no name to call; else leaves exactly the opcodes and children of the tree, whose meaning TemplateMeans gives |
| HandlebarsDiscipline.PopIsPop | deploy-board/deploy_board/static/swagger-ui-lib/lib/handlebars-2.0.0.js:28 | The two stacks are one, in every orderly state: a pop takes the top of the inline stack lying on the compile stack, and throws iff that one stack is empty |
| HandlebarsDiscipline.FlushIsOrderly | deploy-board/deploy_board/static/swagger-ui-lib/lib/handlebars-2.0.0.js:28 | A flush keeps the height and the order of the stack and gives every expression a fresh slot above all live ones |
| HandlebarsDiscipline.ExecIsOrderly | deploy-board/deploy_board/static/swagger-ui-lib/lib/handlebars-2.0.0.js:28 | Every opcode that succeeds keeps the expressions of the compile stack in slots 1, 2, ... up to the number in use |
| HandlebarsDiscipline.AlwaysOneStack | deploy-board/deploy_board/static/swagger-ui-lib/lib/handlebars-2.0.0.js:28 | Between any two opcodes of any sequence that gets through, the two stacks are one: pops and pushes are those of the one stack, a pop throws iff it is empty, and a flush keeps its height |
| HandlebarsDiscipline.ChainReplaces | deploy-board/deploy_board/static/swagger-ui-lib/lib/handlebars-2.0.0.js:28 | A chain of look-ups replaces the top of the stack; with no slot in use, the one it borrows is free before and after |
| HandlebarsDiscipline.ParamsPop | deploy-board/deploy_board/static/swagger-ui-lib/lib/handlebars-2.0.0.js:28 | Parameters that were pushed in the order of the source are taken in reverse and reach the call in the order of the source |
| HandlebarsDiscipline.HashPushes | deploy-board/deploy_board/static/swagger-ui-lib/lib/handlebars-2.0.0.js:27-28 | A hash leaves one entry and gives back the enclosing hash being built |
| HandlebarsDiscipline.SexprPushes | deploy-board/deploy_board/static/swagger-ui-lib/lib/handlebars-2.0.0.js:27-28 | The opcodes of any s-expression that compiles, at any depth and in parentheses or not, push exactly its code and nothing else |
| HandlebarsDiscipline.StatementRuns | deploy-board/deploy_board/static/swagger-ui-lib/lib/handlebars-2.0.0.js:27-28 | The opcodes of any statement that compiles write exactly its code, after what was pending, and leave both stacks empty |
| HandlebarsDiscipline.NothingIsLeft | deploy-board/deploy_board/static/swagger-ui-lib/lib/handlebars-2.0.0.js:28 | For every tree that compiles: no internal error is thrown, and nothing is left on the stacks at the end |
| HandlebarsCorrect.ChainStands | deploy-board/deploy_board/static/swagger-ui-lib/lib/handlebars-2.0.0.js:28 | Whatever the slots hold, a chain of look-ups evaluates to what its path means: the temporary slot overwrites nothing that is still read |
| HandlebarsCorrect.ParamsMean | deploy-board/deploy_board/static/swagger-ui-lib/lib/handlebars-2.0.0.js:27-28 | Parameters are evaluated, with their effects, in the order of the source |
| HandlebarsCorrect.PairsMean | deploy-board/deploy_board/static/swagger-ui-lib/lib/handlebars-2.0.0.js:27-28 | The values of a hash are evaluated from the last pair to the first, and stand in that order |
| HandlebarsCorrect.SexprMeans | deploy-board/deploy_board/static/swagger-ui-lib/lib/handlebars-2.0.0.js:27-28 | The code of any s-expression evaluates to its meaning, with the same calls in the same order on the same arguments; the meaning tells by itself whether a name may or must be a helper |
| HandlebarsCorrect.AmbiguousBlockMeans | deploy-board/deploy_board/static/swagger-ui-lib/lib/handlebars-2.0.0.js:28 | An ambiguous block shows the helper's result, or what blockHelperMissing makes of it with the block's programs |
| HandlebarsCorrect.ChildrenInPlace | deploy-board/deploy_board/static/swagger-ui-lib/lib/handlebars-2.0.0.js:27 | The index of a block's program is that of the program's compiled child |
| HandlebarsCorrect.ChildCorrect | deploy-board/deploy_board/static/swagger-ui-lib/lib/handlebars-2.0.0.js:27-28 | The function written for a block's program is, to any helper that may call it in any frame and world, what the program means |
| HandlebarsCorrect.EveryTemplateAssembles | deploy-board/deploy_board/static/swagger-ui-lib/lib/handlebars-2.0.0.js:28 | For every tree that compiles, its function and those of all programs nested in it are written without an error |
| HandlebarsCorrect.TemplateMeans | deploy-board/deploy_board/static/swagger-ui-lib/lib/handlebars-2.0.0.js:27-28 | For every template that compiles, every host, frame and world: its functions and those of the programs of its blocks are written, and running the written JavaScript outputs what the template means and leaves the world as it should; which names are helpers is told from the text and the options, not from the compiler |
| HandlebarsCorrect.KindsAgree | deploy-board/deploy_board/static/swagger-ui-lib/lib/handlebars-2.0.0.js:28 | The compiler's three kinds of s-expression are what the meaning tells from the text: known or with arguments a helper's, a lone name perhaps one, all else a property's |
| HandlebarsCalls.LoneNameIsCalled | deploy-board/deploy_board/static/swagger-ui-lib/lib/handlebars-2.0.0.js:27-28 | A lone name without knownHelpersOnly, at the end of any template: a helper of that name is called on its bare options; without one the property is shown, or called if it is a function; without either helperMissing |
| HandlebarsCalls.KnownNameIsCalled | deploy-board/deploy_board/static/swagger-ui-lib/lib/handlebars-2.0.0.js:27-28 | A lone name that is a known helper's calls that helper |
| HandlebarsCalls.OtherNameIsProperty | deploy-board/deploy_board/static/swagger-ui-lib/lib/handlebars-2.0.0.js:27-28 | Under knownHelpersOnly any other lone name shows the property, called if it is a function |
| HandlebarsCalls.OtherNameReachesNoHelper | deploy-board/deploy_board/static/swagger-ui-lib/lib/handlebars-2.0.0.js:27-28 | And then the output is the same whatever helpers the host has |
| HandlebarsCalls.CallGetsArguments | deploy-board/deploy_board/static/swagger-ui-lib/lib/handlebars-2.0.0.js:27-28 | With parameters or a hash: the helper, or what the path leads to, or helperMissing is called with exactly as many parameters as are written, then the options with the hash |
| HandlebarsCalls.ParamsAreValues | deploy-board/deploy_board/static/swagger-ui-lib/lib/handlebars-2.0.0.js:27-28 | Each parameter arrives in its place as what it stands for |
| HandlebarsCalls.LoneBlockIsCalled | deploy-board/deploy_board/static/swagger-ui-lib/lib/handlebars-2.0.0.js:27-28 | A block of a lone name: a helper of that name gets the block's programs in its options, else blockHelperMissing gets the property and them |
| HandlebarsCalls.OtherBlockIsProperty | deploy-board/deploy_board/static/swagger-ui-lib/lib/handlebars-2.0.0.js:27-28 | Under knownHelpersOnly a block of any other name gives the property to blockHelperMissing, and no helper is looked for |
| HandlebarsJs.JavaScriptCompiler.PopStack | deploy-board/deploy_board/static/swagger-ui-lib/lib/handlebars-2.0.0.js:28 | Pops as the machine does, from either stack, and gives a slot back |
| HandlebarsJs.JavaScriptCompiler.FlushInline | deploy-board/deploy_board/static/swagger-ui-lib/lib/handlebars-2.0.0.js:28 | Empties the inline stack as the machine does |
| HandlebarsJs.JavaScriptCompiler.ReplaceStack | deploy-board/deploy_board/static/swagger-ui-lib/lib/handlebars-2.0.0.js:28 | Replaces the top as the machine does, and throws iff nothing is inline |
| HandlebarsJs.JavaScriptCompiler.TakeOptions | deploy-board/deploy_board/static/swagger-ui-lib/lib/handlebars-2.0.0.js:28 | Takes hash, programs and parameters off the stack as the machine does |
| HandlebarsJs.JavaScriptCompiler.Compile | deploy-board/deploy_board/static/swagger-ui-lib/lib/handlebars-2.0.0.js:28 | Runs all opcodes as the machine does, and throws iff an opcode does or something is left |
| HandlebarsJs.JavaScriptCompiler.CompileFunction | deploy-board/deploy_board/static/swagger-ui-lib/lib/handlebars-2.0.0.js:28 | Compiles the programs of the blocks, each with a compiler of its own, and then the program: exactly the assembled function, or an error iff any of them has one |
| HandlebarsJs.CompileTemplate | deploy-board/deploy_board/static/swagger-ui-lib/lib/handlebars-2.0.0.js:27-28 | Both compilers together, with the programs of the blocks: succeeds iff the tree compiles, and then the written function outputs, in every host and world, what the template means; what that is for a lone name, a known helper, a call with arguments and a block, the lemmas of HandlebarsCalls say of this output |
| MarkedParser.MergeIsJoin | deploy-board/deploy_board/static/swagger-ui-lib/lib/marked.js:950-958 | Neighbouring text tokens are merged, one line each, and no more than those |
| MarkedParser.LeafIsShown | deploy-board/deploy_board/static/swagger-ui-lib/lib/marked.js:964-1012 | What a single token shows, kind by kind, and that HTML goes through the spans only if it is not preformatted and not pedantic |
| MarkedParser.TableIsShown | deploy-board/deploy_board/static/swagger-ui-lib/lib/marked.js:975-1012 | A table shows its header and then its rows, each of its cells in order with their alignment |
| MarkedParser.UntilRenders | deploy-board/deploy_board/static/swagger-ui-lib/lib/marked.js:1014-1061 | The body loop of a container consumes exactly its children and its end token and renders them |
| MarkedParser.ParseRenders | deploy-board/deploy_board/static/swagger-ui-lib/lib/marked.js:918-1070 | For every tree: its stream is never read past the end, every token is consumed, and the result is the rendering of the tree |
| MarkedParser.UnclosedFails | deploy-board/deploy_board/static/swagger-ui-lib/lib/marked.js:1014-1061 | A stream that stops inside a container is read past its end |
| MarkedParser.Parser.ParseText | deploy-board/deploy_board/static/swagger-ui-lib/lib/marked.js:950-958 | Merges the texts that follow and leaves the stream at the next other token |
| MarkedParser.Parser.ParseToken | deploy-board/deploy_board/static/swagger-ui-lib/lib/marked.js:964-1070 | Renders the popped token, with what belongs to it, as the function on streams does, and throws where that reads past the end |
| MarkedParser.Parser.Parse | deploy-board/deploy_board/static/swagger-ui-lib/lib/marked.js:918-928 | Renders a document as the function on streams does |
| MarkedLexer.BlocksNested | deploy-board/deploy_board/static/swagger-ui-lib/lib/marked.js:149-442 | Whatever the text, what the lexer makes of it is nested: items stand in lists and nothing else does |
| MarkedReading.OneLeads | deploy-board/deploy_board/static/swagger-ui-lib/lib/marked.js:149-442 | At most one rule leads at a text |
| MarkedReading.FirstToken | deploy-board/deploy_board/static/swagger-ui-lib/lib/marked.js:149-442 | At a text that starts a block exactly one rule leads: it matches and no earlier one in the order code, fences, heading, table without bars, underlined heading, rule, quote, list, HTML, definition, table, paragraph, text does. Its token comes first; a definition gives none and is added to the links |
| MarkedLexer.BlocksRead | deploy-board/deploy_board/static/swagger-ui-lib/lib/marked.js:149-442 | The stream of any text's tree is read from the text by the leading rules, block for block |
| MarkedLexer.ItemsRead | deploy-board/deploy_board/static/swagger-ui-lib/lib/marked.js:309-359 | The stream of a list's items is read from them: item by item, loose or tight |
| MarkedLexer.Lexer.Lex | deploy-board/deploy_board/static/swagger-ui-lib/lib/marked.js:149-442 | Ends on every text, never gets to its exception, and pushes exactly the tokens that are read from the text: at each block those of the one rule that matches while no earlier one in the declared order does, with the tables and paragraphs outside of lists only and the definitions outside of lists and quotes; also exactly the stream of the text's tree |
| MarkedLexer.Lexer.LexItems | deploy-board/deploy_board/static/swagger-ui-lib/lib/marked.js:309-359 | Pushes the items before the first one of another kind of list, each loose iff it has an empty line inside, or it or the one before ends with one, and returns the others to the input |
| MarkedInline.InlineLexer.Output | deploy-board/deploy_board/static/swagger-ui-lib/lib/marked.js:560-692 | Ends on every text, never gets to its exception, because the rule for text matches whatever is left, also where a reference to no link takes only one character, and writes what the spans mean, which SpanIsShown spells rule by rule |
| MarkedInline.TextMatches | deploy-board/deploy_board/static/swagger-ui-lib/lib/marked.js:461-511 | The rule for text matches if and only if anything is left, and takes the least, but at least one character, after which a span may begin, a line breaks or the text ends |
| MarkedInline.SpanIsShown | deploy-board/deploy_board/static/swagger-ui-lib/lib/marked.js:560-692 | The output for the first span, rule by rule, in the source's order: escapes, autolinks, URLs outside of links, tags, links, references, bold, emphasis, code, breaks, deletions, text |
| MarkedInline.NormalizedParts | deploy-board/deploy_board/static/swagger-ui-lib/lib/marked.js:135-143 | Normalizing two texts one after the other, unless a line break is cut in two |
| MarkedInline.NormalizedOne | deploy-board/deploy_board/static/swagger-ui-lib/lib/marked.js:135-143 | Normalizing one character: a carriage return is a line break, a tab four spaces, the two special spaces are a space and a line break, and any other stays |
| MarkedInline.NormalizedOnce | deploy-board/deploy_board/static/swagger-ui-lib/lib/marked.js:135-143 | Normalized text has no carriage returns, tabs and special spaces, and normalizing it again changes nothing |
| MarkedInline.PlainIsKept | deploy-board/deploy_board/static/swagger-ui-lib/lib/marked.js:673-689 | Text without spans, and with references to no links, comes out whole |
| MarkedInline.Marked | deploy-board/deploy_board/static/swagger-ui-lib/lib/marked.js:1205-1207 | Whatever the text: normalizing, lexing and parsing raise nothing, and the result is the rendering, spans included, of a tree whose stream is the tokens that are read from the normalized text, rule by rule |
| Transformer.PiecesAreText | deploy-agent/deployd/staging/transformer.py:56-58 | The gaps and placeholders that a search finds are the text |
| Transformer.MatchIsSlot | deploy-agent/deployd/staging/transformer.py:51-58 | The search matches a text if and only if it starts with a marker, a key that is not empty and a closing brace on the same line |
| Transformer.PiecesOfWritten | deploy-agent/deployd/staging/transformer.py:51-58 | Of a template that is spelled without hidden placeholders the search finds exactly the placeholders, in order |
| Transformer.FillsWritten | deploy-agent/deployd/staging/transformer.py:59-66 | Filling what was found gives the template with dictionary values before defaults and defaults before the placeholder itself |
| Transformer.EveryTextIsTemplate | deploy-agent/deployd/staging/transformer.py:51-58 | Every text is a template of that form |
| Transformer.ReplaceFills | deploy-agent/deployd/staging/transformer.py:64-65 | In a tidy text, replacing a placeholder everywhere replaces exactly the placeholders with that text |
| Transformer.CleanIsTidy | deploy-agent/deployd/staging/transformer.py:56-58 | Where the search found no placeholder, none can arise from a replacement, if no gap before a placeholder ends in part of a marker |
| Transformer.SequentialIsSimultaneous | deploy-agent/deployd/staging/transformer.py:51-66 | Replacing one after another, everywhere, in the text that earlier replacements left is the simultaneous substitution, in clean templates with plain values |
| Transformer.ValueIsReplacedAgain | deploy-agent/deployd/staging/transformer.py:59-65 | The hypothesis of plain values cannot be dropped altogether: a value that is itself a later placeholder is replaced again, and the result is not the simultaneous substitution |
| Transformer.Transformer.Translate | deploy-agent/deployd/staging/transformer.py:51-66 | The loop computes the sequential replacement. For plain values every clean template, however it is written, comes out with each placeholder (marker, key, perhaps a colon and a default, brace) replaced by the dictionary's value of its key if there is one, else by its default if it has a colon, else left as it is, and all else untouched |
| Commits.GetCommitsBatch | deploy-board/deploy_board/webapp/common.py:85-98 | A page without its first commit unless that is to be kept; truncated iff the page is full; where to go on |
| Commits.PageGoesOn | deploy-board/deploy_board/webapp/common.py:85-98 | The next page, but for its first commit, goes on where the commits so far ended, and ends the range iff it is not full |
| Commits.GetCommitsBetween | deploy-board/deploy_board/webapp/common.py:102-121 | Ends with a prefix of the range without gaps and repetitions: all of it if shorter than max, else at least max commits and less than a page more |
| Commits.PagesOfOneStandStill | deploy-board/deploy_board/webapp/common.py:85-98 | With pages of one commit nothing would be gained: the page is its own starting point |
| Hosts.GetGroupInfo | deploy-board/deploy_board/webapp/group_view.py:390-438 | The ASG and spot lists are exactly as long as the instance lists were, and hold the hosts met and the instances left; the first names are those of the hosts that were met |
| Hosts.Conserved | deploy-board/deploy_board/webapp/group_view.py:416-426 | Every host is put on exactly one list; placed hosts and left-over instances make up the instances |
| Hosts.ListedById | deploy-board/deploy_board/webapp/group_view.py:416-426 | With distinct hosts and disjoint groups: left over are the instances of no host, and others are the hosts of no group |
| Hosts.InstancesAreLast | deploy-board/deploy_board/webapp/group_view.py:400-408 | The instances of a kind are those of the last group of that kind, and none if there is no such group |
| Hosts.FleetIsUnion | deploy-board/deploy_board/webapp/group_view.py:437-438 | The fleet size is the number of different host ids and instances |

## Left out

- The endless loop around `serve_build`, its sleeps, the lock that keeps a second agent away, and logging.
- HTTP, curl and S3: the server is a choice of answers; retries of one request count as one ping.
- A failure to read the host information before a ping is a failed ping after the filter.
- The failure branches after `_update_internal_deploy_goal`: that method only ever returns SUCCEEDED, so they are dead; its exceptions are excluded by the assumptions.
- The file of script variables that installing a goal writes, the deploy alias method, the host type file of the status file's dump, and `PingReport` objects shared between statuses: reports are values inside their status.
- The environment variables other than DEPLOY_ID, DEPLOY_STEP, OPCODE, ENV_NAME and STAGE_NAME, and script variables; so also the exception when TARGET is exported without an environment name.
- The texts of error messages and the output of processes: arbitrary.
- JSON text: the file is a map of JSON values; a value that is no text where text belongs is read as none, and enumerations are stored by name.
- Processes that survive a kill, process groups and the log file of commands.
- An executor without a callback.
- Agent.DeployAgent.ServeBuild: the bound on interactions is stated for runs in which the limits stay; of runs that change them only the number of rounds is bounded.
- Agent.Client.SendReports: messages are taken to be text; in the source a message that is not UTF-8 stops the filter and fails the ping.
- Agent.EnvStatus.DumpEnvs: a failed write is assumed to leave the file, which the source truncates when it opens it.
- WriteAhead.FailedDumpIsReported: rests on the same assumption where it says that the file stays.
- Agent.DeployAgent.CleanStaleBuilds: the files that belong to a build, and failures to remove them, are not modelled; a build is a directory.
- In Handlebars the parser and the stripping of whitespace; `trackIds` and `stringParams`; the sharing of equal child programs and the `depths` argument; variable declarations and the merging of neighbouring outputs in the written function; quoting; names that JavaScript inherits from `Object.prototype`, except that any set of names may be known helpers.
- HandlebarsCorrect.TemplateMeans: outputs are compared as text, so the raw value that a single-statement program returns is not told from its text.
- HandlebarsCorrect.AmbiguousBlockMeans: is stated for blocks with a program or an inverse, which the grammar guarantees.
- In marked the highlighting callback, the catch-all around parsing, `mangle`'s random digits, smart punctuation and the escaping of HTML, which are arbitrary functions.
- The second phase of a script's translation, and its files. For templates whose gaps end in part of a marker, or with special characters in values and defaults, nothing is claimed of the result but that it is the sequential one.
- The backend that serves commits, and a start that is not in the log, which gives no commits here.
- The queries for groups and instances, instance lists that are missing, and the page itself; that the page's own group object shares the list from which hosts are removed.
- Agent comparison, line graphs, Django views and the other vendored libraries: user interface, or without a property to state.
