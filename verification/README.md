# Verification of Clementine's long-lived state

Clementine is a personal-assistant daemon. Most of it prepares prompts and reads answers; this project is
about the rest: the parts that keep state over weeks of running, and the pure transformations beside them.
Each part is modelled in Dafny in the form the daemon gives it (classes where it updates objects, functions
where it computes values) and its promises are proved for all inputs and all runs.

| file | part of the daemon |
|---|---|
| `Disk.dfy` | task, result and plan files; one write is what a crash cannot split |
| `BackgroundTasks.dfy` | the life of a background task, restart hygiene, delivery backfill |
| `Orchestrator.dfy` | `dispatchChain`, `advanceChain`, `pauseChain`, `resumeChain` as writes to the disk |
| `ChainMoves.dfy`, `ChainRuns.dfy` | one chain as a state machine, and every run of the daemon over it, crashes included |
| `ChainTasks.dfy` | the task records, reports and notes of a chain |
| `Sessions.dfy`, `SessionMemory.dfy`, `Surrogates.dfy` | the assistant's session store, what a session keeps, and the UTF-16 sanitiser |
| `ToolPolicy.dfy`, `ToolRequests.dfy` | the tool-policy compiler, and what each requested name means |
| `Allowlist.dfy` | Clementine's allowlist on the way to the tool server |
| `Permissions.dfy`, `SendPolicies.dfy` | the tool permission hook, its browser approval and its audit log; send policies and the reasons of refusals |
| `AutoSkills.dfy`, `SkillLaws.dfy` | skill files mirroring the cached MCP schemas; the cache and the files spelled out |
| `AgentCache.dfy`, `AgentLaws.dfy` | the agent profile cache; what the manager does to the directory, and slugs |
| `CronText.dfy`, `SkillMatch.dfy`, `CronMigrator.dfy`, `PromptLaws.dfy` | the cron-clean migrator, and its readings of texts and names spelled out |
| `FailureFix.dfy`, `FixLaws.dfy`, `FailureFixRuns.dfy` | the autonomous fix loop, its undo, its outcomes, and its interleavings |
| `InsightThrottle.dfy` | the throttle on proactive messages |
| `LogRotation.dfy` | size-based log rotation |
| `Wrappers.dfy`, `Text.dfy`, `Squeezing.dfy` | options, results, slices, strings |

Conventions. An absent plan, project, session or agent name is the empty string where the daemon treats both
alike. Random identifiers, clocks, directory listings, approvals, regular-expression classifiers and the
answers of other programs are parameters, so that every theorem holds whatever they return. An operation on
the disk is specified by the list of its file writes, in order; a crash during it leaves a prefix of that list.
A method's contract equates what it leaves behind with a specification function, and the laws are proved about
that function over arbitrary sequences of operations. Beside those laws stand others that say what each
operation computes in terms of its inputs and of what was on disk before, without the specification functions.

## What was found

Where the code does not keep what its comments or design say, the model follows the code. The lemmas named here
say when the promise does hold, as an if-and-only-if wherever it is conditional, and show runs or inputs on which
it fails.

- `advanceChain` says that it tries the project's plan directory first, but looks only in the global one. A
  chain kept with its project never advances past step 0 by itself (`ChainRuns.CallbackReachesOnlyGlobalPlans`,
  `ChainRuns.ProjectChainsDoNotAdvance`).
- `pauseChain` does not gate a chain: after a pause the running step's success still dispatches a task, exactly
  when a step is left (`ChainRuns.PauseDoesNotGate`, `ChainRuns.PausedChainAdvances`).
- `resumeChain` says that it completes a plan when all steps have ended, but asks only whether one is pending, and
  hands on the next step while another runs. Without a torn hand-over two steps run at once, or the plan is
  completed over an unfinished step, exactly when a resume takes effect while a step runs
  (`ChainRuns.MuddledExactlyWhenResumedRunning`, `ChainRuns.PauseAndResumeMuddle`).
- A completed plan is not a successful one, because `resumeChain` never retries. A completed chain that was never
  resumed while it ran has succeeded in every step exactly when no callback that took effect reported a failure
  (`ChainRuns.CompletedMeansSuccessExactly`, `ChainRuns.ResumeCompletesPastAFailure`).
- A crash between the task write and the plan write tears a hand-over. A step gets two tasks exactly when one of
  its hand-overs was torn and it was handed on again (`ChainRuns.SecondTaskExactly`,
  `ChainRuns.OneCrashDuplicatesATask`). Pending steps stay a suffix through one torn hand-over and not through two
  (`ChainRuns.PendingStaysSuffix`, `ChainRuns.TwoCrashesBreakTheOrder`).
- A resumed task keeps its mirror stamp. Its second ending is backfilled exactly when the first was not mirrored
  (`BackgroundTasks.ResumedDeliveryIsBackfilledExactly`).
- Crash recovery pushes onto a pending queue without dropping: it overflows the queue exactly when that is full,
  and each further recovery that gets saved makes it longer by one (`Sessions.RecoveryOverflowsExactly`,
  `Sessions.RecoveriesGrowTheQueue`).
- A session is saved only beside a session id or a queue. The history of one that has neither is gone after a
  restart, and everything else survives it exactly as `SessionMemory.MemoryRoundTrip` says
  (`SessionMemory.HistoryAloneIsLost`).
- A default tool policy is closed only under a condition. The daemon's own defaults meet it, whatever servers it
  mounts (`ToolPolicy.DefaultsClosedExactly`, `ToolPolicy.DaemonDefaultsAreClosed`,
  `ToolPolicy.ScopedDefaultIsNotClosed`).
- The allowlist travels as names joined by commas. The server reads back the names that were meant exactly when
  none is empty, holds a comma or has white space at an end (`Allowlist.ListArrivesExactly`,
  `Allowlist.CommaIsReadAsTwo`).
- Mail from a shell command is promised the gate of `outlook_send`. Only a heartbeat or a refusal stops it, so an
  autonomous call mails without a send policy, and `setHeartbeatMode` has no caller in `src`. The two gates agree
  exactly when the call is attended, or when policy and approval happen to say the same
  (`Permissions.MailGatesAgreeExactly`, `Permissions.ShellMailExactly`, `Permissions.AutonomousShellMailIsAllowed`).
- An agent's daily limit holds exactly as far as the count it is judged by is right: counts that miss some sends
  let through as many more (`SendPolicies.DailyLimitHolds`, `SendPolicies.PolicySendExactly`).
- Sends are to be approved, but no approval callback counts as one that always agrees: an allowed send outside a
  policy was approved by somebody exactly when there was somebody to ask (`Permissions.NobodyToAsk`,
  `Permissions.SendsAreApprovedExactly`, `Permissions.NobodyWasAsked`).
- Browser control is promised to be blocked for members' channels. The channel plays no part: one approval by the
  owner opens it to them as well (`Permissions.BrowserAllowedExactly`, `Permissions.MembersBrowseAfterTheOwner`).
- Tools whose sanitised paths collide with different schemas are rewritten on every start
  (`AutoSkills.SecondPassIsIdle`, `AutoSkills.CollidingToolsAreRewritten`). The first probe of a server, even one
  that fails, removes the skills of its listed tools unless something else claims their paths
  (`AutoSkills.FirstProbeDropsInventorySkills`, `AutoSkills.FailedFirstProbeRemovesAFile`).
- An agent whose name has no letter or digit is kept in the agents directory itself, and deleting it deletes all
  agents (`AgentLaws.NamelessAgentTakesAllAlong`, `AgentLaws.DeleteExactly`).
- `migrateCronJob` calls itself idempotent. It is so exactly when the first pass leaves no second preamble and
  no description to be drawn from its own new prompt (`CronMigrator.SecondPassIsIdle`,
  `CronMigrator.DoubledPreambleLeavesWork`, `CronMigrator.EmptyPromptLeavesWork`).
- A trigger file that holds the JSON value null ends every tick that reaches it and blocks what is listed
  behind it (`FailureFix.NullBlocksTheQueue`, `FailureFix.DeadTickStops`). A trigger is lost unread exactly when it
  was written while its own file was being handled, and that tick lived to unlink it
  (`FailureFixRuns.WriteIsLostExactly`, `FailureFixRuns.RewriteBeforeUnlinkIsLost`). The undo of a fix loses a
  field that was explicitly null (`FailureFix.RevertUndoesTheFix`, `FailureFix.ExplicitNullIsLost`). A trigger
  without a slug finds the job of its newer form exactly when one of the two files lacks the name, or neither can
  be read (`FailureFix.OlderTriggersFindTheSameJob`).
- The limit of three messages a day counts by the day of the check, and nothing keeps two ticks apart. With ticks
  one at a time at most four messages fall on a day, and more than three exactly when one spans midnight and three
  more are granted and sent on the day itself (`InsightThrottle.DailyLimit`, `InsightThrottle.FourInOneDay`). With
  at most k ticks waiting at once a day grants at most k + 2, and sees at most 2k + 2; both are reached for every
  k (`InsightThrottle.OverlapLimit`, `InsightThrottle.OverlapReachesTheLimit`, `InsightThrottle.MostInOneDay`).
  Restarts of the daemon, which forget what was not saved, change none of this.

## Model

| member | source | states |
|---|---|---|
| Disk.SlimIsIdempotent | src/agent/background-tasks.ts:57-64 | a stored record is never cut a second time when it is written again |
| Disk.Store.WriteTask | src/agent/background-tasks.ts:57-64 | one task write changes that record only, cut to the limit, and is one entry of the write order |
| Disk.Store.WriteResult | src/agent/background-tasks.ts:178-192 | one write of a full result |
| Disk.Store.WritePlan | src/agent/bg-planner.ts:119-125 | one plan write, under its project and id |
| BackgroundTasks.RunsKeepShape | src/agent/background-tasks.ts:146-329 | in every run completedAt is present exactly in ended states, error exactly in failed, aborted and interrupted ones |
| BackgroundTasks.StatusExactly | src/agent/background-tasks.ts:146-268 | the status graph: every change of status and nothing else |
| BackgroundTasks.StampsKeepTelling | src/agent/background-tasks.ts:146-268 | in every run the started, completed, interrupted and resumed times and the resume count are those of the status changes |
| BackgroundTasks.StartsAfresh | src/agent/background-tasks.ts:146-163 | a task that starts holds nothing of an earlier ending |
| BackgroundTasks.IdentityStays | src/agent/background-tasks.ts:146-268 | nothing changes a record's id, limit, creation time, session, chain, plan, step or parent |
| BackgroundTasks.FinalIsAbsorbing | src/agent/background-tasks.ts:146-268 | after done, failed or aborted nothing but the mirror stamp ever changes |
| BackgroundTasks.EntriesAreBounded | src/agent/background-tasks.ts:146-268 | entries into running never exceed creation plus explicit resumes |
| BackgroundTasks.BackfillDeliversOnce | src/agent/background-tasks.ts:303-329 | in every run the backfill delivers a record at most once |
| BackgroundTasks.StampIsExact | src/agent/background-tasks.ts:303-329 | in every run a record is unstamped exactly when it was so at first and has neither been mirrored nor backfilled |
| BackgroundTasks.StampIsTheLast | src/agent/background-tasks.ts:303-329 | in every run the stamp is the time at which the record was last mirrored or backfilled |
| BackgroundTasks.ResumedDeliveryIsBackfilledExactly | src/agent/background-tasks.ts:257-268 | a resumed task that ends again is backfilled exactly when it had no stamp at the resume and got none since |
| BackgroundTasks.NextStaysStored | src/agent/background-tasks.ts:57-64 | every transition keeps a record's id and its stored, already cut form |
| BackgroundTasks.NoResultIsLost | src/agent/background-tasks.ts:178-234 | a finished task's result is stored whole, or its resultPath names a file that holds it whole, as its note does when none was given; it is flagged exactly when claims lack evidence |
| BackgroundTasks.BackfillDeliversExactly | src/agent/background-tasks.ts:303-322 | the backfill takes up exactly the unheard endings of a session within the window |
| BackgroundTasks.EndingIsDeliveredInTime | src/agent/background-tasks.ts:198-252 | a task that ends is stamped with the time, its error cut to 1000 characters, and delivered exactly until the window closes |
| BackgroundTasks.ResultFilesAreApart | src/agent/background-tasks.ts:178-184 | two tasks never share a result file |
| BackgroundTasks.CreateBackgroundTask | src/agent/background-tasks.ts:74-105 | creation writes one pending record whose time limit lies between 1 and 240 minutes |
| BackgroundTasks.CreatedTasksKeepShape | src/agent/background-tasks.ts:74-105 | from its creation on every task is what was asked for within the limits, well-shaped, stamped with the times at which its status changed, and runs at most once more often than it was resumed |
| BackgroundTasks.MarkRunning | src/agent/background-tasks.ts:146-163 | only a pending task starts; the state and the write order after it are those of the transition |
| BackgroundTasks.MarkDone | src/agent/background-tasks.ts:198-234 | only a running task finishes, with its note and the findings of the claim check; a long result is written before the record that points to it |
| BackgroundTasks.MarkFailed | src/agent/background-tasks.ts:237-252 | a task that has not ended stops with the given reason and an error of at most 1000 characters |
| BackgroundTasks.ResumeBackgroundTask | src/agent/background-tasks.ts:257-268 | only an interrupted task is queued again, with one more resume counted and its times cleared |
| BackgroundTasks.MarkMirrored | src/agent/background-tasks.ts:324-329 | stamps one existing record |
| BackgroundTasks.HygieneTouchesOnlyRunning | src/agent/background-tasks.ts:275-283 | restart hygiene leaves no task running, changes only running ones, and marks those interrupted now by the restart |
| BackgroundTasks.InterruptStaleRunningTasks | src/agent/background-tasks.ts:275-283 | the loop interrupts exactly the running tasks and counts them |
| BackgroundTasks.SecondBackfillIsEmpty | src/agent/background-tasks.ts:303-329 | a second backfill at any later time finds nothing to deliver |
| BackgroundTasks.MirrorOrphanedDeliveries | src/gateway/cron-scheduler.ts:1109-1130 | the backfill loop stamps exactly the unmirrored deliveries and counts them |
| Orchestrator.NormalizeSteps | src/agent/bg-planner.ts:205-215 | at most 12 steps, indexed by position, titles cut to 160 characters, all pending, none with a task |
| Orchestrator.PlanRequest | src/agent/bg-planner.ts:189-231 | a plan is made exactly when the planner returned a step, for this session and project, with notes of at most 600 characters |
| Orchestrator.ProjectPlanComesFirst | src/agent/bg-planner.ts:126-140 | a project's own plan is loaded before the global one of the same id |
| Orchestrator.DispatchChain | src/agent/bg-orchestrator.ts:52-83 | fails exactly on a plan without steps; else writes the task of step 0, then the plan that names it |
| Orchestrator.AdvanceChain | src/agent/bg-orchestrator.ts:97-198 | the exact writes and their order for every callback: ignored, failed, completed, or handed to the next pending step |
| Orchestrator.PauseChain | src/agent/bg-orchestrator.ts:205-212 | pauses the plan found for the id and project, adding the reason to its notes |
| Orchestrator.ResumeChain | src/agent/bg-orchestrator.ts:219-246 | nothing for a completed plan; else the first pending step gets a task, or the plan is completed |
| ChainMoves.StaysDurable | src/agent/bg-orchestrator.ts:131-246 | each move, torn or not, keeps running steps attached to their tasks and tasks plus pending steps within steps plus torn hand-overs |
| ChainMoves.FailureIsReported | src/agent/bg-orchestrator.ts:137-163 | a step is marked failed exactly by an effective callback that reports no success, and none is ever skipped |
| ChainMoves.HandsExactly | src/agent/bg-orchestrator.ts:164-187 | only a pending step is handed on, each hand-over adds one task for it, and a whole one ends its waiting |
| ChainMoves.StaysOrdered | src/agent/bg-orchestrator.ts:131-246 | each move keeps pending steps a suffix with no task ahead of them, and one task per dispatched step while no hand-over was torn |
| ChainMoves.StaysShaped | src/agent/bg-orchestrator.ts:131-187 | each move of a run without pauses keeps the chain shape |
| ChainMoves.ShapeMeans | src/agent/bg-orchestrator.ts:131-187 | the shape spelled out for any two steps and the plan status |
| ChainMoves.MuddledExactly | src/agent/bg-orchestrator.ts:131-246 | with one task per step, a resume of a running chain is the one move after which two steps run or the plan is completed too early |
| ChainRuns.StepRefines | src/agent/bg-orchestrator.ts:52-246 | every daemon operation on the shared disk, cut anywhere, is one move of each chain or leaves that chain alone |
| ChainRuns.LaunchRefines | src/agent/bg-orchestrator.ts:52-83 | dispatching a freshly saved plan, cut anywhere, is the launch move |
| ChainRuns.PlansNeverDangle | src/agent/bg-orchestrator.ts:164-187 | in every run with any crashes, a running step names an existing task record of its own plan and index, and tasks never outnumber steps plus torn hand-overs |
| ChainRuns.PendingStaysSuffix | src/agent/bg-orchestrator.ts:52-246 | in every run with at most one torn hand-over the pending steps are a suffix of the plan |
| ChainRuns.OneTaskPerStepInOrder | src/agent/bg-orchestrator.ts:52-246 | in every run without a torn hand-over no step has two tasks, exactly the first steps have been dispatched, and the next task is for the next step |
| ChainRuns.SecondTaskExactly | src/agent/bg-orchestrator.ts:62-80 | in every run a step has two tasks exactly when a hand-over of it was torn and it was handed on again |
| ChainRuns.GentleRunsKeepShape | src/agent/bg-orchestrator.ts:131-246 | without pauses, and resumed only when paused, a plan is (done or failed)* running? pending*, in_progress exactly while a step runs, completed only when all ended |
| ChainRuns.NoStepBeforeItsPredecessors | src/agent/bg-orchestrator.ts:131-187 | without resumes either, every dispatched step has all earlier steps done |
| ChainRuns.EndedStepsStay | src/agent/bg-orchestrator.ts:129-134 | in every run a step that has ended stays exactly as it is |
| ChainRuns.DuplicateCallbackIsIgnored | src/agent/bg-orchestrator.ts:129-134 | once a callback has taken effect, any other for its step writes nothing, at any later point of any run and whatever it reports |
| ChainRuns.SuccessExactly | src/agent/bg-orchestrator.ts:131-187 | in every run from the launch all steps have succeeded exactly when all have ended and no effective callback reported a failure |
| ChainRuns.MuddledExactlyWhenResumedRunning | src/agent/bg-orchestrator.ts:219-246 | in every run without a torn hand-over, two steps run at once or the plan is completed over an unfinished step exactly when a resume takes effect while a step runs |
| ChainRuns.CompletedMeansSuccessExactly | src/agent/bg-orchestrator.ts:150-163 | a completed plan of a chain never resumed while it ran has succeeded in every step exactly when no effective callback reported a failure |
| ChainRuns.GentleRunsAreNotMuddled | src/agent/bg-orchestrator.ts:131-246 | a chain never paused by hand and resumed only when paused is never resumed while it runs |
| ChainRuns.PauseDoesNotGate | src/agent/bg-orchestrator.ts:97-212 | after a pause the running step's success creates a task exactly when a step is left, for that step, and the same task as without the pause |
| ChainRuns.PausedChainAdvances | src/agent/bg-orchestrator.ts:200-212 | a run without a crash: launch, pause, success of the first step, second task |
| ChainRuns.CallbackReachesOnlyGlobalPlans | src/agent/bg-orchestrator.ts:113-121 | a callback for an open step has an effect exactly when the plan has no project |
| ChainRuns.ProjectPlanIdles | src/agent/bg-orchestrator.ts:113-121 | a project's plan stays as it is through any run that neither pauses nor resumes it |
| ChainRuns.ProjectChainsDoNotAdvance | src/agent/bg-orchestrator.ts:113-121 | so after its dispatch such a chain stays at step 0 |
| ChainRuns.ResumeCompletesPastAFailure | src/agent/bg-orchestrator.ts:219-246 | a run without a crash: the first step fails, the paused chain is resumed, the second succeeds, and the plan is completed |
| ChainRuns.PauseAndResumeMuddle | src/agent/bg-orchestrator.ts:205-246 | a run without a crash: pause and resume while the first step runs, two steps run at once, and the second one's success completes the plan |
| ChainRuns.OneCrashDuplicatesATask | src/agent/bg-orchestrator.ts:62-80 | a torn dispatch followed by a resume gives step 0 two tasks |
| ChainRuns.TwoCrashesBreakTheOrder | src/agent/bg-orchestrator.ts:164-187 | with two torn hand-overs step 1 can be done while step 0 is pending |
| ChainTasks.TasksBelongToTheirChain | src/agent/bg-orchestrator.ts:56-246 | in every run with any crashes each record of a chain carries the session and chain id of its plan and descends from nobody or from a task for an earlier step |
| ChainTasks.NewTaskHasItsParent | src/agent/bg-orchestrator.ts:170-240 | only callbacks and resumes make records of a launched chain, pending, for its session, after the reported task or after nobody |
| ChainTasks.LaunchedTask | src/agent/bg-orchestrator.ts:56-72 | the launch makes a record for the first step, after nobody |
| ChainTasks.StepShowsItsReport | src/agent/bg-orchestrator.ts:137-146 | an ended step shows for good the outcome, the time and the first 400 characters of the report that ended it |
| ChainTasks.PlanIsKept | src/agent/bg-orchestrator.ts:205-212 | in every run the plan keeps its names, steps and titles, and its notes are the first ones and a line for each reason of a pause |
| Surrogates.StripIsDecode | src/agent/assistant.ts:233-236 | the local rewrite equals a left-to-right decoder that replaces what it cannot decode |
| Surrogates.DecodeFixesWellFormed | src/agent/assistant.ts:233-236 | that decoder leaves a text alone exactly when it is well-formed UTF-16 |
| Surrogates.StripSanitizes | src/agent/assistant.ts:233-236 | the output is well-formed, well-formed text and only that is unchanged, and the rewrite is stable |
| Surrogates.SurrogatesByTheirBits | src/agent/assistant.ts:233-236 | leading and trailing surrogates by their upper six bits |
| Sessions.SaveLoadSave | src/agent/assistant.ts:1040-1158 | save, load, save gives the first file without its legacy and expired keys, for every memory |
| Sessions.RoundTripIsExact | src/agent/assistant.ts:1040-1158 | the second file equals the first exactly when no key is legacy or expired |
| Sessions.RecoveryOnlyAppends | src/agent/assistant.ts:1084-1104 | crash recovery adds one entry to each orphaned session's queue and alters nothing else in the file |
| Sessions.ScheduledOrSaved | src/agent/assistant.ts:1115-1158 | from the first mutation or save on, in every run, a save is pending or the file is what saving would write |
| Sessions.HistoryIsTheLastTen | src/agent/assistant.ts:3637-3671 | each history window is the last ten exchanges injected since its reset |
| Sessions.PendingIsTheLastThree | src/agent/assistant.ts:976-982 | each pending queue is the last three queued exchanges, or as many as it started with if more |
| Sessions.RecoveryOverflowsExactly | src/agent/assistant.ts:1091-1093 | recovery makes an orphaned session's queue one longer, and overflows it exactly when it held three or more |
| Sessions.QueueOverRestarts | src/agent/assistant.ts:1040-1158 | the exact length of a full queue over any number of restarts, by which lives were saved and which sessions orphaned |
| Sessions.RecoveriesGrowTheQueue | src/agent/assistant.ts:1084-1104 | n saved recoveries make a full queue n entries longer |
| SessionMemory.MemoryRoundTrip | src/agent/assistant.ts:1046-1160 | through a save and a load a session survives exactly when known, not legacy and at most a day old, with its id, count, time and queue, and its history cut to 2000 characters a text |
| SessionMemory.HistoryAloneIsLost | src/agent/assistant.ts:1132-1153 | a session with neither id nor queue is not saved |
| SessionMemory.RecoveryIsQueuedLast | src/agent/assistant.ts:1086-1094 | the recovery entry comes last in the queue |
| SessionMemory.FactsAreTheLast | src/agent/assistant.ts:3637-3671 | in every run the store knows of a key its last id, its counted exchanges and its last activity since the reset |
| SessionMemory.TimerIsExact | src/agent/assistant.ts:1112-1130 | a save is scheduled exactly while something changed since the last one |
| Sessions.CollectEntries | src/agent/assistant.ts:1132-1153 | the saving loop collects exactly one entry for every session and pending key |
| Sessions.PersonalAssistant.LoadSessions | src/agent/assistant.ts:1040-1110 | loading restores exactly the live entries and then recovers the orphaned sessions |
| Sessions.PersonalAssistant.LoadEntries | src/agent/assistant.ts:1058-1081 | the loading loop fills the five Maps with exactly the live entries |
| Sessions.PersonalAssistant.RecoverOrphans | src/agent/assistant.ts:1084-1104 | the recovery loop queues one entry for each orphaned session |
| Sessions.PersonalAssistant.SaveSessions | src/agent/assistant.ts:1115-1121 | schedules one save |
| Sessions.PersonalAssistant.SaveSessionsNow | src/agent/assistant.ts:1132-1158 | replaces the file by what the Maps hold |
| Sessions.PersonalAssistant.FlushSessions | src/agent/assistant.ts:1124-1130 | cancels the timer and saves |
| Sessions.CappedFits | src/tools/shared.ts:667-680 | a capped text keeps its head and stays within the limit, and a short one is left alone |
| Sessions.PersonalAssistant.InjectContext | src/agent/assistant.ts:3637-3671 | pushes the capped exchange to the history and, if asked, to the queue and the count; schedules a save |
| Sessions.PersonalAssistant.InjectPendingContext | src/agent/assistant.ts:976-982 | queues one exchange cut to 500 and 2000 characters |
| Sessions.PersonalAssistant.SetSdkSessionId | src/agent/assistant.ts:3090-3095 | stores a non-empty id with its time |
| Sessions.PersonalAssistant.ClearSession | src/agent/assistant.ts:3749-3757 | forgets a session but not its pending queue |
| Sessions.PersonalAssistant.RotateSession | src/agent/assistant.ts:2824-2831 | the reset after compaction: the count becomes zero, the rest is forgotten |
| ToolPolicy.NormalizeIsConsistent | src/agent/execution-policy.ts:175-205 | a normalised name carries exactly the Clementine tool and built-in that its full form names |
| ToolPolicy.NormalizeIsIdempotent | src/agent/execution-policy.ts:175-205 | normalising a normalised name gives it back, fields and all |
| ToolPolicy.CompileIsClosed | src/agent/execution-policy.ts:258-315 | feeding the approved names back reproduces the whole policy |
| ToolPolicy.AllowlistMatchesApproval | src/agent/execution-policy.ts:207-301 | without a wildcard a tool is on Clementine's allowlist exactly when its full MCP name is approved |
| Allowlist.ListArrivesExactly | src/tools/mcp-server.ts:49-56 | the server reads back the names that were meant exactly when none is empty, holds a comma or has white space at an end |
| Allowlist.ServerRegistersTheApproved | src/tools/mcp-server.ts:49-64 | when the names arrive whole, the server registers exactly the tools the policy approves |
| Allowlist.RegisteredNamesArrive | src/agent/execution-policy.ts:299-301 | requests for registered Clementine tools arrive as they were meant |
| Allowlist.CommaIsReadAsTwo | src/agent/execution-policy.ts:299-301 | a name with a comma is registered as two tools that were not approved |
| Text.PiecesOfJoin | src/agent/execution-policy.ts:299-301 | splitting undoes joining when no part holds the separator |
| ToolPolicy.WildcardAbsorbs | src/agent/execution-policy.ts:207-224 | the wildcard absorbs all other names and is there exactly when it was approved |
| ToolPolicy.ScopedBashNarrows | src/agent/execution-policy.ts:258-290 | a scoped Bash request withholds broad Bash from approval while Bash stays visible |
| ToolPolicy.DefaultsClosedExactly | src/agent/execution-policy.ts:258-315 | the default policy reproduces itself exactly under a condition on its tools and servers |
| ToolPolicy.DaemonDefaultsAreClosed | src/agent/run-agent.ts:363-389 | with the daemon's default tools and Clementine's server mounted the default policy is closed, whatever other servers there are |
| ToolPolicy.ScopedDefaultIsNotClosed | src/agent/execution-policy.ts:258-290 | broad Bash beside a scoped one is approved by default and withheld when read back |
| ToolPolicy.Builder.ApplyNormalizedTool | src/agent/execution-policy.ts:207-224 | one request adds its built-in, its approval and its Clementine name, the wildcard absorbing |
| ToolPolicy.Builder.ApplyMemoryCompanionTools | src/agent/execution-policy.ts:226-256 | adds exactly the companion tools that memory and brain tools call for |
| ToolPolicy.BuildExecutionToolPolicy | src/agent/execution-policy.ts:258-315 | the compiled policy is a function of the set of requested names: order and repetition do not matter |
| ToolRequests.CommandIsScoped | src/agent/execution-policy.ts:200-202 | a command on PATH that is no tool is approved as a Bash scope, and Bash is shown |
| ToolRequests.CommandWithholdsBash | src/agent/execution-policy.ts:258-275 | beside anything else it withholds broad Bash |
| ToolRequests.BuiltinIsItself | src/agent/execution-policy.ts:194-196 | a built-in is shown and approved as itself |
| ToolRequests.RegisteredIsNamedInFull | src/agent/execution-policy.ts:197-199 | a registered tool is approved by its full name and listed |
| ToolRequests.MemoryWriteBringsSave | src/agent/execution-policy.ts:226-256 | memory_write brings brain_save along where that is registered |
| ToolRequests.OtherNameStands | src/agent/execution-policy.ts:203-204 | any other bare name is approved as it stands |
| ToolRequests.ScopeStands | src/agent/execution-policy.ts:178-183 | a Bash scope shows Bash and stands, and all but the scope of everything narrow |
| ToolRequests.BrokenScopeIsAName | src/agent/execution-policy.ts:178-180 | an empty scope, or one broken over lines, is a name like any other |
| ToolRequests.NameCharsAre | src/agent/execution-policy.ts:164-165 | the characters of a command by their codes |
| ToolRequests.FullNameIsListed | src/agent/execution-policy.ts:184-192 | the full name of a Clementine tool is approved and listed |
| ToolRequests.ForeignNameStands | src/agent/execution-policy.ts:184-193 | a name of another server stands and is not listed |
| ToolRequests.PaddingIsIgnored | src/agent/execution-policy.ts:175-177 | white space around a name plays no part |
| ToolRequests.TogetherShown | src/agent/execution-policy.ts:258-290 | names together show what each of them shows |
| ToolRequests.TogetherApproved | src/agent/execution-policy.ts:258-290 | names together approve what each of them approves, but for broad Bash beside a scope |
| ToolRequests.TogetherCompanion | src/agent/execution-policy.ts:226-256 | the ingestion tools are approved when asked for or, where registered, beside memory_write, one of them only where files can be read |
| Text.DistinctKeepsElements | src/agent/hooks.ts:297-312 | deduplication keeps every element once |
| Permissions.GetHeartbeatDisallowedTools | src/agent/hooks.ts:297-312 | the heartbeat list has each disallowed tool once, by the tier-2 setting |
| Permissions.ProfilesOnlyRestrict | src/agent/hooks.ts:419-681 | over any calls with fixed approvals, a stricter profile allows a subset, and the browser approvals of both runs agree throughout |
| Permissions.ProfilesNeverElevate | src/agent/hooks.ts:473-491 | no profile allows what is denied without one |
| Permissions.AuditRecordsExactlyTheAllowed | src/agent/hooks.ts:419-681 | the audit log grows by exactly one entry for each allowed call and by none for a denied one |
| Permissions.BrowserNeedsApproval | src/agent/hooks.ts:173-177 | a browser call is allowed only at or after an interactive call that the user approved, with no revocation since |
| Permissions.BrowserAllowedExactly | src/agent/hooks.ts:434-471 | in every run a browser call is allowed exactly when it is interactive, within its profile and still approved, whatever channel it comes from |
| Permissions.MembersBrowseAfterTheOwner | src/agent/hooks.ts:439-456 | after one approval by the owner a member's channel drives the browser |
| Permissions.DecisionIsPermission | src/agent/hooks.ts:419-681 | the chain of early returns equals an order-free conjunction of heartbeat, browser, profile, harm, source, mail and send rules |
| Permissions.AllowedIsHarmless | src/agent/hooks.ts:493-676 | nothing lets through a blocked or credential-exposing command, a private address, or a write outside the agent's directory, to its configuration or of credentials |
| Permissions.ChannelsLoseExactly | src/agent/hooks.ts:521-577 | a channel is allowed exactly what the owner's direct message is, but for credential files and destructive commands |
| Permissions.AutonomyExactly | src/agent/hooks.ts:434-630 | an autonomous call loses the same, the browser and the sending tools, keeps mail from the shell, and gains exactly the sends of a policy |
| Permissions.OwnerIsMostTrusted | src/agent/hooks.ts:493-630 | what any source is allowed the owner is allowed with the same answers, but for a policy's send the owner would not approve |
| Permissions.ShellMailExactly | src/agent/hooks.ts:543-560 | mail from a shell command is stopped exactly by a heartbeat, a refusal, the profile or another rule for commands |
| Permissions.MailGatesAgreeExactly | src/agent/hooks.ts:543-620 | shell mail and outlook_send pass alike exactly when attended, or when the policy says of the one what the approval says of the other |
| Permissions.AutonomousShellMailIsAllowed | src/agent/hooks.ts:543-560 | an autonomous run without a policy mails from the shell and is refused the same by outlook_send |
| Permissions.NobodyToAsk | src/agent/hooks.ts:448-620 | no approval callback decides as one that always agrees, except for a browser never approved |
| Permissions.SendsAreApprovedExactly | src/agent/hooks.ts:543-620 | an allowed send or shell mail outside a policy was approved by somebody exactly when there was somebody to ask |
| Permissions.NobodyWasAsked | src/agent/hooks.ts:543-620 | an attended outlook_send and a shell mail from any source, allowed without anybody's approval |
| Permissions.Hooks.ResetBrowserHarnessApproval | src/agent/hooks.ts:175-177 | revokes the session approval |
| Permissions.AutonomousIsContained | src/agent/hooks.ts:419-681 | autonomous and heartbeat calls never drive the browser, use a sending tool exactly under a passing policy, and mail from the shell exactly outside a heartbeat and unless refused |
| Permissions.Hooks.BrowserGate | src/agent/hooks.ts:434-471 | the gate's answer, and when it sets the session approval |
| Permissions.Hooks.EnforceToolPermissions | src/agent/hooks.ts:419-681 | the decision, the approval and the audit entry of one call |
| Permissions.Hooks.SendChecks | src/agent/hooks.ts:580-630 | an outbound send under a policy is decided by the policy alone, else by source and approval |
| SendPolicies.PolicySendExactly | src/agent/hooks.ts:376-413 | a policy's send is allowed exactly under its limit, in its hours, without suppression or a demand for approval, within heartbeat and profile |
| SendPolicies.DailyLimitHolds | src/agent/hooks.ts:381-391 | on every day of every run an agent sends at most its limit and what the count misses |
| SendPolicies.SendIsShownToTheApprover | src/agent/hooks.ts:608-620 | an attended send is allowed exactly when the approver agrees to its recipient and subject, or its channel |
| SendPolicies.CommandIsShownToTheApprover | src/agent/hooks.ts:543-560 | the approver of a shell mail agreed to the first 120 characters of the command |
| SendPolicies.HeartbeatRefusesExactly | src/agent/hooks.ts:297-312 | exactly these tools are refused for a heartbeat |
| SendPolicies.RefusalsAreTrue | src/agent/hooks.ts:419-681 | every refusal names a reason that holds |
| AutoSkills.FailedProbeKeepsCache | src/agent/mcp-schemas.ts:126-159 | a server whose probes fail keeps its cached tools |
| AutoSkills.FetchAllSchemas | src/agent/mcp-schemas.ts:126-159 | the merge loop replaces an entry only by a successful probe |
| SkillLaws.MergeIsLatest | src/agent/mcp-schemas.ts:145-154 | the cache holds for each server the tools of the last probe that found any, else what it held, else none for a server that answered |
| SkillLaws.MergeKeepsOrder | src/agent/mcp-schemas.ts:128-154 | cached servers stay in place and new ones come behind |
| AutoSkills.Sanitize | src/agent/auto-skills.ts:222-224 | a path segment of safe characters, at most 80, left alone when it is one already |
| SkillLaws.SanitizeIsExact | src/agent/auto-skills.ts:222-224 | character by character, with an underscore for each unsafe one |
| SkillLaws.SafeCharsAre | src/agent/auto-skills.ts:222-224 | the safe characters by their codes |
| AutoSkills.WriteAllIsLast | src/agent/auto-skills.ts:188-220 | writing the skills in order leaves each path with the hash of its last tool and other files alone |
| AutoSkills.MirrorIsExact | src/agent/auto-skills.ts:231-315 | after a pass the Markdown files are exactly the expected paths with the hash of the last tool of each; other files are untouched |
| AutoSkills.NothingWritten | src/agent/auto-skills.ts:188-220 | a pass writes nothing exactly when every skill is up to date |
| AutoSkills.SecondPassIsIdle | src/agent/auto-skills.ts:231-315 | a second pass prunes nothing, and writes nothing exactly when no path is claimed by two schemas |
| AutoSkills.CollidingToolsAreRewritten | src/agent/auto-skills.ts:222-224 | two tool names sanitised to one path are written again on every pass |
| AutoSkills.FailedProbeKeepsSkills | src/agent/auto-skills.ts:231-315 | a failed probe of a server with cached tools never prunes a skill of one of them |
| AutoSkills.FilesAreClaimed | src/agent/auto-skills.ts:231-315 | after a pass a Markdown file exists exactly where a cached tool or a listed remote tool claims its path |
| AutoSkills.FirstProbeDropsInventorySkills | src/agent/auto-skills.ts:256-287 | once a server has been probed, the file of its listed tool is gone exactly when no cached tool and no other remote tool claims its path |
| AutoSkills.FailedFirstProbeRemovesAFile | src/agent/mcp-schemas.ts:143-155 | a file made before a server was probed is removed after a probe that failed |
| SkillLaws.FilesHoldTheirTools | src/agent/auto-skills.ts:189-300 | without clashes each tool's file holds its schema's hash |
| SkillLaws.ListedToolGetsAFile | src/agent/auto-skills.ts:270-290 | a tool that is only listed gets a file unless its server is Clementine's own or a plugin |
| SkillLaws.WrittenExactly | src/agent/auto-skills.ts:240-300 | without clashes as many files are written as were not up to date |
| AutoSkills.SkillDirectory.WriteAutoSkill | src/agent/auto-skills.ts:188-220 | writes unless the stored hash is the same |
| AutoSkills.SkillDirectory.SynthesizeSkillsFromSchemas | src/agent/auto-skills.ts:231-315 | the three phases leave the mirror, and written + unchanged = toolCount |
| AutoSkills.SkillDirectory.Prune | src/agent/auto-skills.ts:289-312 | the walk removes exactly the unexpected Markdown files and counts them |
| AgentCache.SlugIsCanonical | src/agent/agent-manager.ts:333 | a slug keeps the letters and digits of the name in order, has no dash at either end, and names a listed directory unless it is empty |
| AgentLaws.SlugIsWords | src/agent/agent-manager.ts:332-333 | the slug of a name is its runs of letters and digits, joined by single dashes |
| AgentCache.ReadsAreFresh | src/agent/agent-manager.ts:93-127 | after any mix of calls without outside edits a read equals a fresh read of the directory |
| AgentCache.ReadsAreRecent | src/agent/agent-manager.ts:93-127 | with outside edits a read equals the directory at some moment of the last 60 seconds, not before the last mutation through the manager |
| AgentCache.EditIsVisible | src/agent/agent-manager.ts:93-98 | an outside edit shows at once exactly when the cache is empty, expired or already right |
| AgentCache.CreateIsVisible | src/agent/agent-manager.ts:332-437 | createAgent returns the new profile exactly when the name has a letter or digit and the text loads |
| AgentCache.AgentManager.RefreshIfStale | src/agent/agent-manager.ts:93-127 | the loading loop fills the cache with exactly the listed, loadable profiles |
| AgentCache.AgentManager.Get | src/agent/agent-manager.ts:284-287 | refreshes, then answers from the cache |
| AgentCache.AgentManager.ListAll | src/agent/agent-manager.ts:289-292 | refreshes, then lists the cache |
| AgentCache.AgentManager.CreateAgent | src/agent/agent-manager.ts:332-437 | throws exactly when the file exists; else writes it and reads it back |
| AgentCache.AgentManager.UpdateAgent | src/agent/agent-manager.ts:439-508 | throws exactly when the file is missing or unreadable; else rewrites it and reads it back |
| AgentCache.AgentManager.DeleteAgent | src/agent/agent-manager.ts:522-540 | throws exactly when the directory is missing; else removes it and invalidates the cache |
| AgentLaws.CreateExactly | src/agent/agent-manager.ts:332-437 | a new agent gets its file and directories, nothing else changes, and an existing one is left alone |
| AgentLaws.UpdateExactly | src/agent/agent-manager.ts:439-508 | an update replaces the one file by its edited text |
| AgentLaws.DeleteExactly | src/agent/agent-manager.ts:522-540 | a deletion removes the one directory, or everything for the empty slug |
| AgentLaws.ReadsChangeNothing | src/agent/agent-manager.ts:284-293 | reads and invalidations leave the directory alone |
| AgentLaws.NamelessAgentTakesAllAlong | src/agent/agent-manager.ts:332-540 | such an agent, made and deleted: the directory is empty |
| CronText.HeadingIsFound | src/agent/cron-migrator.ts:61 | a heading with any white space around its dash is recognised |
| CronText.FoundIsHeading | src/agent/cron-migrator.ts:61 | and nothing else is |
| CronText.BlankLineIsFirst | src/agent/cron-migrator.ts:61 | the preamble ends at the first blank line of either kind |
| CronText.PreambleIsStripped | src/agent/cron-migrator.ts:73-98 | stripping happens exactly on a preamble and leaves a trimmed, strictly shorter remainder |
| PromptLaws.PreambleIsParted | src/agent/cron-migrator.ts:61-80 | a prompt with a heading is parted at the first blank line behind it, and the rest trimmed |
| PromptLaws.UnpartedIsLeftAlone | src/agent/cron-migrator.ts:61-80 | without a blank line behind the heading the prompt is left alone |
| PromptLaws.WordAtExactly | src/agent/cron-migrator.ts:61 | the heading's words in any letter case |
| PromptLaws.BlankLinesAre | src/agent/cron-migrator.ts:61 | the two kinds of blank lines |
| CronText.SentenceIsFirst | src/agent/cron-migrator.ts:177-182 | the description candidate ends no later than any sentence end |
| PromptLaws.OpeningExactly | src/agent/cron-migrator.ts:175-180 | the first sentence, or the first 200 characters of a text without one |
| PromptLaws.SummaryIsWords | src/agent/cron-migrator.ts:175-183 | its words with single spaces between them, up to 240 characters |
| Text.TrimIsExact | src/agent/cron-migrator.ts:80 | trimming cuts white space off both ends and nothing else |
| Text.PiecesAreComplete | src/agent/cron-migrator.ts:116-117 | splitting a name loses nothing but its separators, each of which ends a piece |
| SkillMatch.MatchIsBest | src/agent/cron-migrator.ts:112-157 | the match is the first skill of the best tier any skill fits; there is none only if no tier has one |
| SkillMatch.FindMatchingSkill | src/agent/cron-migrator.ts:112-157 | the three loops find that skill |
| SkillMatch.FindTriggered | src/agent/cron-migrator.ts:124-140 | the nested loops find the first skill with a trigger that holds every word of the job name |
| PromptLaws.NamedAlike | src/agent/cron-migrator.ts:119-121 | the first tier: the same name but for letter case |
| PromptLaws.TriggeredAlike | src/agent/cron-migrator.ts:124-140 | the second tier: every word of the job's name is a word of one trigger |
| PromptLaws.OverlappingAlike | src/agent/cron-migrator.ts:142-155 | the third tier: two different words of three letters or more in common |
| CronMigrator.EligibleMeansChanged | src/agent/cron-migrator.ts:202-304 | a job is reported eligible exactly when migrating it changes it |
| CronMigrator.MigrationIsConfined | src/agent/cron-migrator.ts:228-291 | only five fields change, no allowed tool is lost, and tools change only with a preamble |
| CronMigrator.ToolsArrive | src/agent/cron-migrator.ts:238-256 | the tools of a migrated job are those it was allowed, first, and those its preamble allowed, none twice |
| CronMigrator.MigrationDoes | src/agent/cron-migrator.ts:257-279 | which skill is pinned, what the prompt becomes, and that a description is kept |
| CronMigrator.DescriptionComesFrom | src/agent/cron-migrator.ts:169-291 | a missing description is drawn from the skill's, else from the first sentence |
| CronMigrator.InstructionsSurvive | src/agent/cron-migrator.ts:257-279 | a pinned job keeps its instructions whole exactly when they have 51 to 1000 characters |
| CronMigrator.SecondPassIsIdle | src/agent/cron-migrator.ts:190-304 | a second pass changes nothing exactly when the first leaves no work behind |
| CronMigrator.DoubledPreambleLeavesWork | src/agent/cron-migrator.ts:61-98 | a doubled preamble needs two passes |
| CronMigrator.EmptyPromptLeavesWork | src/agent/cron-migrator.ts:257-291 | an empty prompt with a skill that has no description needs two passes |
| CronMigrator.Settle | src/agent/cron-migrator.ts:202-304 | migrating again and again ends at an ineligible job |
| CronMigrator.PassProgresses | src/agent/cron-migrator.ts:202-304 | each pass flips the mode, pins a skill, describes the job or shortens the prompt |
| CronMigrator.SettledIsClean | src/agent/cron-migrator.ts:202-304 | a settled job is strict, without preamble and pinned if it can be; its name, its other fields, its tools and its own description are kept |
| CronMigrator.MigrationEndsClean | src/agent/cron-migrator.ts:61-304 | the same with the real preamble parser and catalog, whose match never changes on the way |
| CronMigrator.OnePassSettles | src/agent/cron-migrator.ts:202-304 | one pass is enough exactly when it leaves no work |
| CronMigrator.MigrateCronJob | src/agent/cron-migrator.ts:202-304 | the migrated job, its eligibility and whether changes are reported |
| CronMigrator.Rewrite | src/agent/cron-migrator.ts:230-281 | the steps that set the mode, strip the preamble and pin the skill |
| CronMigrator.BulkPartition | src/agent/cron-migrator.ts:314-332 | dealing the two lists back by eligibility restores the inventory in order |
| CronMigrator.MigrateAllEligibleJobs | src/agent/cron-migrator.ts:314-332 | the loop splits the jobs in order and pairs each eligible one with its migration |
| FailureFix.FixSettles | src/agent/failure-fix-consumer.ts:153-194 | a recipe reaches its target, stops there, reports exactly whether it changed anything, and touches two keys |
| FailureFix.RestoreUndoesFix | src/agent/failure-fix-consumer.ts:340-356 | restoring the snapshot gives the entry back exactly when no touched field was explicitly null |
| FailureFix.ExplicitNullIsLost | src/gateway/fix-verification.ts:283-288 | an entry whose mode was null comes back without a mode |
| FailureFix.RestoreSetsBack | src/gateway/fix-verification.ts:262-303 | a revert sets the two fields back to what they were, whatever became of them since |
| FailureFix.RestoreKeepsOtherEdits | src/gateway/fix-verification.ts:262-303 | a revert leaves every other key as it finds it |
| FailureFix.FirstNamed | src/agent/failure-fix-consumer.ts:257-300 | finds the first job of that name |
| FailureFix.LoadCronJob | src/agent/failure-fix-consumer.ts:257-330 | searches the agent's file, the central file, then the inferred agent's file; what it finds is the first job of its bare name there |
| FailureFix.SearchOrder | src/agent/failure-fix-consumer.ts:257-330 | an agent's own file comes first; a job found elsewhere was not in the places searched before |
| FailureFix.OlderTriggersFindTheSameJob | src/agent/failure-fix-consumer.ts:306-327 | a trigger without a slug finds the job its newer form finds exactly when one of the two files lacks the name, or neither can be read |
| FailureFix.ReapplyIsNoop | src/agent/failure-fix-consumer.ts:544-625 | a trigger whose fix was applied is a no-op the next time |
| FailureFix.RevertUndoesTheFix | src/gateway/fix-verification.ts:262-303 | applying a fix and reverting it restores every CRON.md exactly when the job has a name and no touched field was null |
| FailureFix.TickIsExact | src/agent/failure-fix-consumer.ts:497-542 | processed = applied + pending + noop, and a tick that runs to its end leaves exactly the triggers whose processing threw |
| FixLaws.CategoryExactly | src/agent/failure-fix-consumer.ts:150-214 | the category of a failure by the phrases in its first 4000 characters, in any letter case |
| FixLaws.FirstPlaceDecides | src/agent/failure-fix-consumer.ts:257-330 | the first file that does not lack the job decides: the search fails if it is broken, and finds the job there otherwise |
| FixLaws.LackingEverywhereIsNotFound | src/agent/failure-fix-consumer.ts:257-330 | a job lacking in every file searched is not found |
| FixLaws.NamesAre | src/agent/failure-fix-consumer.ts:270-300 | a job's name is the text of its name field |
| FixLaws.WhoseJob | src/agent/failure-fix-consumer.ts:275-327 | whose a job is: the file's agent, else the trigger's, else that of its own tag |
| FixLaws.OutcomeExactly | src/agent/failure-fix-consumer.ts:544-661 | which triggers are fixed, which become proposals, and which are let go |
| FixLaws.ProposalExactly | src/agent/failure-fix-consumer.ts:576-640 | what a proposal names |
| FixLaws.FixExactly | src/agent/failure-fix-consumer.ts:340-356 | a fix changes the two fields of the one entry found and keeps their former values |
| FixLaws.TickAddsUp | src/agent/failure-fix-consumer.ts:497-542 | a tick leaves the proposals and fixes of its triggers in order, watches the fixes, and counts them |
| FailureFix.NullBlocksTheQueue | src/agent/failure-fix-consumer.ts:510-542 | a tick throws exactly when a listed file holds null, and never removes that file |
| FailureFix.DeadTickStops | src/agent/failure-fix-consumer.ts:510-542 | nothing behind the file that kills a tick is looked at |
| FailureFix.JobEntry.Apply | src/agent/failure-fix-consumer.ts:154-194 | the recipe in place: the fixed entry, and whether it changed |
| FailureFix.FailureFixConsumer.ApplyCronEdit | src/agent/failure-fix-consumer.ts:340-356 | snapshots the declared fields, edits one entry, and returns nothing when nothing had to change |
| FailureFix.FailureFixConsumer.ProcessTrigger | src/agent/failure-fix-consumer.ts:544-661 | the effect and the one count of a trigger, or no change at all when it throws |
| FailureFix.FailureFixConsumer.ApplySafeFix | src/agent/failure-fix-consumer.ts:563-625 | a recognised failure of a job that was found: fixed already, proposed, or fixed now |
| FailureFix.FailureFixConsumer.Tick | src/agent/failure-fix-consumer.ts:497-542 | a tick during a tick does nothing; else the loop has the specified effect and releases the latch |
| FailureFixRuns.NoTriggerTwice | src/agent/failure-fix-consumer.ts:497-542 | however ticks, writes, unlinks and deaths of the daemon interleave, a write is acted on at most once more than the daemon died over it, and the counts of every tick balance |
| FailureFixRuns.UndisturbedTickIsTheTick | src/agent/failure-fix-consumer.ts:510-535 | a tick that nobody disturbs does step by step what the sequential tick does, and dies alike |
| FailureFixRuns.TicksEndWhenDone | src/agent/failure-fix-consumer.ts:510-538 | a tick can end exactly when nothing is left to read or unlink |
| FailureFixRuns.StepLosesExactly | src/agent/failure-fix-consumer.ts:510-535 | a step loses a waiting trigger exactly when it unlinks its file |
| FailureFixRuns.WriteIsLostExactly | src/gateway/cron-scheduler.ts:1732-1748 | in every run a write that is not repeated is lost exactly when it landed while its file was being handled and that tick lived to unlink it |
| FailureFixRuns.RewriteBeforeUnlinkIsLost | src/agent/failure-fix-consumer.ts:510-535 | such a run from the start: write, tick, handle, write, unlink |
| InsightThrottle.InsightState.CanSendInsight | src/agent/insight-engine.ts:50-75 | the answer, and the daily reset that even asking performs |
| InsightThrottle.InsightState.RecordInsightSent | src/agent/insight-engine.ts:80-85 | records one send |
| InsightThrottle.InsightState.MaybeIncreaseCooldown | src/agent/insight-engine.ts:99-105 | doubles the multiplier, up to 8, after three unanswered sends |
| InsightThrottle.InsightState.BeginCheck | src/gateway/heartbeat-scheduler.ts:1207-1222 | the head of a check: only a granted one may raise the cooldown |
| InsightThrottle.CooldownAdapts | src/agent/insight-engine.ts:80-105 | with ticks one at a time the multiplier is 2 to the number of complete threes of sends since the last reply, at most 8 |
| InsightThrottle.StateRemembers | src/agent/insight-engine.ts:50-85 | through every restart the stored dates are those of the last send and of the last check not forgotten |
| InsightThrottle.ListIsCounted | src/agent/insight-engine.ts:50-85 | the daily list, in memory and in the state file, counts the sends made while its date was current |
| InsightThrottle.GrantedOnADay | src/agent/insight-engine.ts:50-85 | with at most k ticks waiting at once at most 3 + k - 1 sends are granted on a day |
| InsightThrottle.OverlapLimit | src/gateway/heartbeat-scheduler.ts:1219-1335 | then at most k + 2 sends fall on a day beside at most k that span midnight: 2k + 2 exactly when both bounds are reached |
| InsightThrottle.OverlapReachesTheLimit | src/gateway/heartbeat-scheduler.ts:1219-1335 | for every k a run that sends k + 2 on one day, the last k at one moment |
| InsightThrottle.MostInOneDay | src/gateway/heartbeat-scheduler.ts:1219-1335 | for every k a run with 2k + 2 sends on one day |
| InsightThrottle.DailyLimit | src/agent/insight-engine.ts:44-75 | with ticks one at a time never more than four sends fall on a day, and more than three exactly when one spans midnight and three more are granted and sent that day |
| InsightThrottle.LimitOverDays | src/agent/insight-engine.ts:44-75 | over any N days at most (k + 2)N messages are granted and at most k more are sent, carried over from before: 3N + 1 with ticks one at a time |
| InsightThrottle.SpacedSends | src/agent/insight-engine.ts:65-72 | with ticks one at a time consecutive sends lie at least two hours times the multiplier apart, which is 1, 2, 4 or 8 |
| InsightThrottle.GrantedExactly | src/agent/insight-engine.ts:50-75 | overlapping or not, a check is granted exactly when fewer than three sends were counted today and the cooldown is over |
| InsightThrottle.SilenceEnds | src/agent/insight-engine.ts:50-105 | sixteen silent hours and a day without a message always permit a send |
| InsightThrottle.FourInOneDay | src/gateway/heartbeat-scheduler.ts:1219-1335 | a run with ticks one at a time and four sends on one day |
| LogRotation.RotateShifts | src/index.ts:506-522 | rotating shifts every slot to the next, absent slots included, and starts an empty log |
| LogRotation.RotatesExactly | src/index.ts:503-522 | logs of two mebibytes or more, and no others, are rotated into seven backups |
| LogRotation.LogFiles.ShiftBackups | src/index.ts:515-518 | the descending loop moves every backup up and never renames onto an existing file |
| LogRotation.LogFiles.RotateOne | src/index.ts:506-522 | rotation of a full log is the shift; any other log is left alone |
| LogRotation.SlotsAreTheLatestLogs | src/index.ts:506-522 | after n rotations slot k holds the k-th latest rotated log, or what slot k - n held at first |
| LogRotation.NothingIsLost | src/index.ts:506-522 | rotated logs and live log together are everything ever appended, in order |
| LogRotation.SevenRotationsLoseNothing | src/index.ts:506-522 | up to seven rotations of a directory without backups, the slots hold every byte |

## Left out

- Prompts, model calls, notifications, messages, log lines, trace contexts and telemetry: no decidable contract.
- File-system and JSON details: reads and writes succeed except where a crash cuts between two writes; names with path separators or dots, and the sanitising of ids in file names, are not modelled.
- Task deletion and metadata patches of `updateBackgroundTask`: runs contain neither.
- Random identifiers: an operation that creates a task is given an id no task has.
- Background tasks: what the claim check finds missing in a result is a parameter.
- The plan's prompts and estimates: carried by no transition.
- Interleavings inside one chain operation: each runs to its end or is cut by a crash, as in a single-threaded process without awaits between its writes.
- Sessions.PersonalAssistant.InjectContext: the transcript entry is not modelled, and the wording of the truncation note is a parameter.
- Sessions: the markers `restoredSessions` and `stallNudges` are not kept. A file that does not parse loads nothing.
- Sessions.PersonalAssistant.SaveSessionsNow: a failing write is not modelled.
- Tool policy: the order of the sorted lists, environment variables, the permission-mode flag and the discovery of tool names on disk.
- Permissions: regular expressions are uninterpreted predicates; the audit file, the denial texts and the JSONL trace are not kept.
- Auto-skills: the rendered text of a skill, the splitting of inventory names at their server, and files outside the server directories.
- Agent cache: the order of `listAll`, tokens kept in the keychain, the scaffold and goal files of a new agent; loading is a function of slug and text.
- AgentCache.AgentManager.UpdateAgent: the edit is an arbitrary function of the old text.
- Cron migrator: the names on the "ALLOWED" line are an arbitrary function of the preamble; characters outside the Basic Multilingual Plane count once, and letters fold in ASCII only.
- Failure fixes: proposal ids and files, notifications, key order in a CRON.md, and triggers without a job name; a list of errors is a list of strings.
- FailureFix.TickIsExact: a failing write of a proposal is not modelled; it would leave the trigger in place. Triggers written during a tick are in FailureFixRuns.
- Insights: a message delivered by a daemon that dies before recording it; a send and its record are one step.
- Log rotation: the two log names rotate alike, so one is modelled.
